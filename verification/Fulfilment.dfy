/**
 End to end, without aborting anything: every row of the outbox can be published and marked, every cancel can reach
 the restaurant, and every order that is still on its way can be completed.
 */
module Fulfilment {
  import opened Common
  import opened Statuses
  import opened StatusTopic
  import opened Delivery
  import opened Tables
  import opened Platform
  import opened PlatformRuns
  import opened Republishing
  import opened Completion
  import S = Store
  import K = Kitchen
  import KitchenRuns
  import KitchenCancels
  import Progress

  /******* From the outbox to the topics *******/

  // Only the relay has moved.
  ghost predicate OnlyRelayed(p: Platform, q: Platform) {
    q == p.(jobs := q.jobs, log := q.log) && p.log <= q.log
  }

  lemma {:induction false} MarkedWasSent(p: SoundPlatform, i: nat)
    requires i < |p.store.db.outbox| && p.store.db.outbox[i].processed
    ensures MessageOf(p.store.db.outbox[i]) in p.log
  {}

  lemma {:induction false} SendsRow(p: Platform, i: nat) returns (steps: seq<Step>)
    requires i < |p.store.db.outbox| && !p.store.db.outbox[i].processed
    ensures Plain(steps) && OnlyRelayed(p, Run(p, steps)) && MessageOf(p.store.db.outbox[i]) in Run(p, steps).log
  {
    var job := Progress.UnusedId(p.jobs.Keys);
    FetchesAndPublishes(p, job, i);
    steps := [Fetch(job, i)] + [PublishJob(job, 1, true)];
    var m := MessageOf(p.store.db.outbox[i]);
    assert (p.log + [m])[|p.log|] == m;
  }

  /* Every row can be on its topic. */
  lemma {:induction false} RowCanBeSent(p: SoundPlatform, i: nat) returns (steps: seq<Step>, m: Message)
    requires i < |p.store.db.outbox|
    ensures Plain(steps) && OnlyRelayed(p, Run(p, steps))
    ensures Tells(m, p.store.db.outbox[i]) && m in Run(p, steps).log
  {
    m := MessageOf(p.store.db.outbox[i]);
    if p.store.db.outbox[i].processed {
      MarkedWasSent(p, i);
      steps := [];
    } else {
      steps := SendsRow(p, i);
    }
  }

  lemma {:induction false} MarksRow(p: Platform, job: int, i: nat)
    requires job !in p.jobs && i < |p.store.db.outbox| && !p.store.db.outbox[i].processed
    ensures var q := Run(p, [Fetch(job, i)] + [PublishJob(job, 1, true)] + [MarkJob(job, true)]);
      i < |q.store.db.outbox| && q.store.db.outbox[i] == p.store.db.outbox[i].(processed := true)
  {
    FetchesAndPublishes(p, job, i);
    RunOneMore(p, [Fetch(job, i)] + [PublishJob(job, 1, true)], MarkJob(job, true));
  }

  /* And it can be marked: no row has to stay in the outbox. */
  lemma {:induction false} RowCanBeMarked(p: Platform, i: nat) returns (steps: seq<Step>)
    requires i < |p.store.db.outbox| && !p.store.db.outbox[i].processed
    ensures Plain(steps)
    ensures var q := Run(p, steps);
      i < |q.store.db.outbox| && q.store.db.outbox[i] == p.store.db.outbox[i].(processed := true)
  {
    var job := Progress.UnusedId(p.jobs.Keys);
    MarksRow(p, job, i);
    steps := [Fetch(job, i)] + [PublishJob(job, 1, true)] + [MarkJob(job, true)];
  }

  // The row that holds a payload.
  lemma {:induction false} RowOf(outbox: seq<OutboxRow>, topic: Topic, o: int) returns (i: nat)
    requires PayloadsOf(outbox, topic, o) != []
    ensures i < |outbox| && outbox[i].topic == topic && outbox[i].key == o
    ensures outbox[i].payload in PayloadsOf(outbox, topic, o)
  {
    i := |outbox| - 1;
    if !(outbox[i].topic == topic && outbox[i].key == o) {
      i := RowOf(outbox[..i], topic, o);
    }
  }

  /******* Through the restaurant *******/

  // The steps are those of the process once it was started anew and the messages it reads are there.
  ghost predicate Delivers(log: seq<Message>, steps: seq<K.Step>) {
    forall i :: 0 <= i < |steps| ==>
      && (steps[i].ReadOrder? ==> Announced(log, OrdersTopic, steps[i].order))
      && (steps[i].ReadCancel? ==> Announced(log, CancelTopic, steps[i].order))
  }

  function InKitchens(steps: seq<K.Step>): (lifted: seq<Step>)
    ensures |lifted| == |steps|
  {
    seq(|steps|, i requires 0 <= i < |steps| => InKitchen(steps[i]))
  }

  lemma {:induction false} LiftsOneMore(before: seq<K.Step>, last: K.Step)
    ensures InKitchens(before + [last]) == InKitchens(before) + [InKitchen(last)]
  {}

  lemma {:induction false} DeliversFirst(log: seq<Message>, before: seq<K.Step>, last: K.Step)
    requires Delivers(log, before + [last])
    ensures Delivers(log, before)
    ensures (last.ReadOrder? ==> Announced(log, OrdersTopic, last.order)) && (last.ReadCancel? ==> Announced(log, CancelTopic, last.order))
  {
    var steps := before + [last];
    assert steps[|before|] == last;
    forall i | 0 <= i < |before|
      ensures before[i].ReadOrder? ==> Announced(log, OrdersTopic, before[i].order)
      ensures before[i].ReadCancel? ==> Announced(log, CancelTopic, before[i].order)
    {
      assert steps[i] == before[i];
    }
  }

  lemma {:induction false} InKitchensArePlain(steps: seq<K.Step>)
    ensures Plain(InKitchens(steps))
  {}

  lemma {:induction false} KitchenRunsAlong(p: Platform, steps: seq<K.Step>)
    requires Delivers(p.log, steps)
    ensures Run(p, InKitchens(steps)) == p.(kitchen := K.Run(p.kitchen, steps))
  {
    if steps != [] {
      var before, last := SplitsOff(steps);
      DeliversFirst(p.log, before, last);
      KitchenRunsAlong(p, before);
      LiftsOneMore(before, last);
      RunOneMore(p, InKitchens(before), InKitchen(last));
    }
  }

  // What a pipeline sends when nothing goes wrong.
  function FourMessages(o: int): seq<StatusMessage> {
    [StatusMessage(o, Accepted)] + [StatusMessage(o, Cooking)] + [StatusMessage(o, Ready)] + [StatusMessage(o, Completed)]
  }

  // One status and the wait after it.
  lemma {:induction false} SendsAndWaits(k: K.Kitchen, before: seq<K.Step>, gen: int, rank: nat, next: nat)
    returns (steps: seq<K.Step>)
    requires K.At(K.Run(k, before), gen, K.Publishing(rank)) && rank < LAST && next == rank + 1
    ensures KitchenCancels.GoesOn(before, steps)
    ensures var a, b := K.Run(k, before), K.Run(k, steps);
      && K.At(b, gen, K.Publishing(next)) && b.pipes[gen].order == a.pipes[gen].order
      && b.topic == a.topic + [StatusMessage(a.pipes[gen].order, KitchenStatus(rank))]
  {
    var m := StatusMessage(K.Run(k, before).pipes[gen].order, KitchenStatus(rank));
    assert Repeat(m, 1) == [m];
    steps := before + [K.Publish(gen, 1, true)];
    KitchenRuns.RunStep(k, before, K.Publish(gen, 1, true));
    KitchenRuns.RunStep(k, steps, K.Sleep(gen, true));
    steps := steps + [K.Sleep(gen, true)];
  }

  lemma {:induction false} SendsLast(k: K.Kitchen, before: seq<K.Step>, gen: int, rank: nat) returns (steps: seq<K.Step>)
    requires K.At(K.Run(k, before), gen, K.Publishing(rank))
    ensures KitchenCancels.GoesOn(before, steps)
    ensures var a, b := K.Run(k, before), K.Run(k, steps);
      b.topic == a.topic + [StatusMessage(a.pipes[gen].order, KitchenStatus(rank))]
  {
    var m := StatusMessage(K.Run(k, before).pipes[gen].order, KitchenStatus(rank));
    assert Repeat(m, 1) == [m];
    KitchenRuns.RunStep(k, before, K.Publish(gen, 1, true));
    steps := before + [K.Publish(gen, 1, true)];
  }

  lemma {:induction false} CooksThrough(k: K.Kitchen, before: seq<K.Step>, gen: int, o: int) returns (steps: seq<K.Step>)
    requires K.At(K.Run(k, before), gen, K.Publishing(1)) && K.Run(k, before).pipes[gen].order == o
    ensures KitchenCancels.GoesOn(before, steps)
    ensures K.Run(k, steps).topic == K.Run(k, before).topic + FourMessages(o)
  {
    var a := SendsAndWaits(k, before, gen, 1, 2);
    var b := SendsAndWaits(k, a, gen, 2, 3);
    var c := SendsAndWaits(k, b, gen, 3, 4);
    steps := SendsLast(k, c, gen, 4);
  }

  lemma {:induction false} GoesOnOn(a: seq<K.Step>, b: seq<K.Step>, c: seq<K.Step>)
    requires KitchenCancels.GoesOn(a, b) && KitchenCancels.GoesOn(b, c)
    ensures KitchenCancels.GoesOn(a, c)
  {}

  lemma {:induction false} DeliversOn(log: seq<Message>, before: seq<K.Step>, steps: seq<K.Step>)
    requires Delivers(log, before) && KitchenCancels.GoesOn(before, steps)
    ensures Delivers(log, steps)
  {
    forall i | 0 <= i < |steps|
      ensures steps[i].ReadOrder? ==> Announced(log, OrdersTopic, steps[i].order)
      ensures steps[i].ReadCancel? ==> Announced(log, CancelTopic, steps[i].order)
    {
      if i < |before| {
        assert steps[i] == before[i];
      }
    }
  }

  // A new process reads the order and decides to start it.
  function ReadSteps(o: int): seq<K.Step> {
    [K.Restart] + ([K.ReadOrder(o)] + [K.LookUpActive] + [K.LookUpNoted])
  }

  lemma {:induction false} NewProcessReads(k: K.Kitchen, o: int)
    ensures K.Run(k, ReadSteps(o)) == K.Started(k.nextGen, k.topic).(orders := K.Storing(o))
  {
    var started := K.Started(k.nextGen, k.topic);
    KitchenRuns.RunTwo(k, K.Restart, K.Restart);
    KitchenRuns.ChecksRun(started, o);
    KitchenRuns.RunsJoin(k, [K.Restart], [K.ReadOrder(o)] + [K.LookUpActive] + [K.LookUpNoted]);
  }

  lemma {:induction false} ReadsAreDelivered(log: seq<Message>, o: int)
    requires Announced(log, OrdersTopic, o)
    ensures Delivers(log, ReadSteps(o))
  {}

  /* A new process cooks an order it is told of, whatever the old one was doing. */
  lemma {:induction false} CanBeCooked(p: Platform, o: int) returns (steps: seq<Step>)
    requires Announced(p.log, OrdersTopic, o)
    ensures Plain(steps)
    ensures var q := Run(p, steps);
      q == p.(kitchen := q.kitchen) && q.kitchen.topic == p.kitchen.topic + FourMessages(o)
  {
    var k := p.kitchen;
    NewProcessReads(k, o);
    ReadsAreDelivered(p.log, o);
    var spawned := KitchenCancels.StartsAllTheSame(k, ReadSteps(o), o);
    var cooked := CooksThrough(k, spawned, k.nextGen, o);
    GoesOnOn(ReadSteps(o), spawned, cooked);
    DeliversOn(p.log, ReadSteps(o), cooked);
    KitchenRunsAlong(p, cooked);
    InKitchensArePlain(cooked);
    steps := InKitchens(cooked);
  }

  /******* To the status of the order *******/

  function FourStatuses(): seq<Status> {
    [Accepted] + [Cooking] + [Ready] + [Completed]
  }

  lemma {:induction false} OneMoreStatus(topic: seq<StatusMessage>, m: StatusMessage, o: int)
    requires m.order == o
    ensures StatusesOf(topic + [m], o) == StatusesOf(topic, o) + [m.status]
  {
    assert (topic + [m])[..|topic|] == topic;
  }

  lemma {:induction false} FourMore(topic: seq<StatusMessage>, o: int)
    ensures StatusesOf(topic + FourMessages(o), o) == StatusesOf(topic, o) + FourStatuses()
  {
    var a, b := topic + [StatusMessage(o, Accepted)], topic + [StatusMessage(o, Accepted)] + [StatusMessage(o, Cooking)];
    OneMoreStatus(topic, StatusMessage(o, Accepted), o);
    OneMoreStatus(a, StatusMessage(o, Cooking), o);
    OneMoreStatus(b, StatusMessage(o, Ready), o);
    OneMoreStatus(b + [StatusMessage(o, Ready)], StatusMessage(o, Completed), o);
    assert topic + FourMessages(o) == b + [StatusMessage(o, Ready)] + [StatusMessage(o, Completed)];
  }

  // The order is neither rejected nor cancelled.
  predicate OnItsWay(s: Status) {
    s == Created || s == Accepted || s == Cooking || s == Ready || s == Completed
  }

  lemma {:induction false} StaysOnItsWay(old_: Status, s: seq<Status>)
    requires OnItsWay(old_) && forall i :: 0 <= i < |s| ==> OnItsWay(s[i])
    ensures OnItsWay(ReceiveAll(old_, s))
  {
    if s != [] {
      StaysOnItsWay(old_, s[..|s| - 1]);
    }
  }

  // Whatever it has by then, the four statuses complete it.
  lemma {:induction false} FourComplete(old_: Status)
    requires OnItsWay(old_)
    ensures ReceiveAll(old_, FourStatuses()) == Completed
  {
    ReceiveOneMore(old_, [], Accepted);
    assert [] + [Accepted] == [Accepted];
    ReceiveOneMore(old_, [Accepted], Cooking);
    ReceiveOneMore(old_, [Accepted] + [Cooking], Ready);
    ReceiveOneMore(old_, [Accepted] + [Cooking] + [Ready], Completed);
  }

  lemma {:induction false} KitchenSendsThese(topic: seq<StatusMessage>, o: int, i: nat)
    requires Chained(StatusesOf(topic, o)) && i < |StatusesOf(topic, o)|
    ensures OnItsWay(StatusesOf(topic, o)[i])
  {
    IsKitchenStatus(StatusesOf(topic, o), i);
  }

  lemma {:induction false} ReadToTheEnd(old_: Status, s: seq<Status>, offset: nat)
    requires OnItsWay(old_) && offset <= |s| && forall i :: 0 <= i < |s| ==> OnItsWay(s[i])
    ensures ReceiveAll(old_, (s + FourStatuses())[offset..]) == Completed
  {
    assert (s + FourStatuses())[offset..] == s[offset..] + FourStatuses();
    ReceiveAllJoin(old_, s[offset..], FourStatuses());
    StaysOnItsWay(old_, s[offset..]);
    FourComplete(ReceiveAll(old_, s[offset..]));
  }

  /******* End to end *******/

  // The created row of a stored order.
  lemma {:induction false} CreatedRowOf(db: Db, o: int) returns (i: nat)
    requires DbOk(db) && o in db.orders
    ensures i < |db.outbox| && db.outbox[i].topic == OrdersTopic && db.outbox[i].payload.orderId == o
  {
    assert OrderOk(db, o);
    i := RowOf(db.outbox, OrdersTopic, o);
  }

  lemma {:induction false} CancelRowOf(db: Db, o: int) returns (i: nat)
    requires DbOk(db) && o in db.orders && db.orders[o].status == Cancelled
    ensures i < |db.outbox| && db.outbox[i].topic == CancelTopic && db.outbox[i].payload.orderId == o
  {
    assert OrderOk(db, o);
    i := RowOf(db.outbox, CancelTopic, o);
  }

  lemma {:induction false} SoundDb(p: SoundPlatform)
    ensures DbOk(p.store.db)
  {}

  lemma {:induction false} SoundTopic(p: SoundPlatform, o: int)
    ensures Chained(MessagesOf(p, o))
  {
    WasSettled(p, o);
  }

  lemma {:induction false} SaysSo(log: seq<Message>, m: Message, row: OutboxRow)
    requires m in log && Tells(m, row)
    ensures Announced(log, row.topic, row.payload.orderId)
  {}

  /* The restaurant can hear of every order. */
  lemma {:induction false} CanBeAnnounced(p: SoundPlatform, o: int) returns (steps: seq<Step>)
    requires o in p.store.db.orders
    ensures Plain(steps) && OnlyRelayed(p, Run(p, steps)) && Announced(Run(p, steps).log, OrdersTopic, o)
  {
    SoundDb(p);
    var i := CreatedRowOf(p.store.db, o);
    var m;
    steps, m := RowCanBeSent(p, i);
    SaysSo(Run(p, steps).log, m, p.store.db.outbox[i]);
  }

  // Relay and restaurant have moved, the store and the consumer have not.
  ghost predicate StoreAlike(p: Platform, q: Platform) {
    q == p.(jobs := q.jobs, log := q.log, kitchen := q.kitchen)
  }

  lemma {:induction false} CanBeSentAllOfIt(p: SoundPlatform, o: int) returns (steps: seq<Step>, q: SoundPlatform)
    requires o in p.store.db.orders
    ensures Plain(steps) && q == Run(p, steps) && StoreAlike(p, q)
    ensures q.kitchen.topic == p.kitchen.topic + FourMessages(o)
  {
    var first := CanBeAnnounced(p, o);
    var a := Run(p, first);
    var more := CanBeCooked(a, o);
    steps := RunsOn(p, first, a, more);
    q := RunKeeps(p, steps);
  }

  // The consumer reads it all.
  lemma {:induction false} CanBeReadAllOfIt(p: SoundPlatform, o: int, s: seq<Status>)
    returns (steps: seq<Step>, q: SoundPlatform)
    requires p.consuming == None && RowFree(p.store, o) && o in p.store.db.orders && OnItsWay(p.store.db.orders[o].status)
    requires MessagesOf(p, o) == s + FourStatuses() && forall i :: 0 <= i < |s| ==> OnItsWay(s[i])
    requires Count(p.offsets, o) <= |s|
    ensures Plain(steps) && q == Run(p, steps) && o in q.store.db.orders && q.store.db.orders[o].status == Completed
  {
    var offset := Count(p.offsets, o);
    steps, q := CatchesUp(p, o, offset, s + FourStatuses());
    ReadToTheEnd(p.store.db.orders[o].status, s, offset);
  }

  lemma {:induction false} SentStatuses(p: SoundPlatform, o: int)
    ensures forall i :: 0 <= i < |MessagesOf(p, o)| ==> OnItsWay(MessagesOf(p, o)[i])
  {
    SoundTopic(p, o);
    forall i | 0 <= i < |MessagesOf(p, o)| ensures OnItsWay(MessagesOf(p, o)[i]) {
      KitchenSendsThese(p.kitchen.topic, o, i);
    }
  }

  // What relay and restaurant have left for the consumer.
  lemma {:induction false} LeftToRead(p: Platform, q: Platform, o: int)
    requires StoreAlike(p, q) && q.kitchen.topic == p.kitchen.topic + FourMessages(o)
    requires p.consuming == None && RowFree(p.store, o)
    ensures MessagesOf(q, o) == MessagesOf(p, o) + FourStatuses()
    ensures q.consuming == None && RowFree(q.store, o) && Count(q.offsets, o) == Count(p.offsets, o)
    ensures q.store.db.orders == p.store.db.orders
  {
    FourMore(p.kitchen.topic, o);
  }

  /*
   The whole way of an order: from every reachable state in which it is stored and neither rejected nor cancelled,
   the consumer has no message under way and nobody holds its row, a run without an abort completes it. What was
   dropped, lost, restarted or moved by hand before does not matter.
   */
  lemma {:induction false} OrderCanComplete(p: SoundPlatform, o: int) returns (steps: seq<Step>, q: SoundPlatform)
    requires o in p.store.db.orders && OnItsWay(p.store.db.orders[o].status)
    requires p.consuming == None && RowFree(p.store, o)
    ensures Plain(steps) && q == Run(p, steps) && o in q.store.db.orders && q.store.db.orders[o].status == Completed
  {
    var s := MessagesOf(p, o);
    NotBeyond(p, o);
    SentStatuses(p, o);
    var first, a := CanBeSentAllOfIt(p, o);
    LeftToRead(p, a, o);
    var more;
    more, q := CanBeReadAllOfIt(a, o, s);
    steps := RunsOn(p, first, a, more);
  }

  /******* A cancel reaches the restaurant *******/

  function NoteSteps(o: int): seq<K.Step> {
    [K.Restart] + ([K.ReadCancel(o)] + [K.LookUpForCancel] + [K.NoteCancel])
  }

  lemma {:induction false} NewProcessNotes(k: K.Kitchen, o: int)
    ensures o in K.Run(k, NoteSteps(o)).noted
  {
    var started := K.Started(k.nextGen, k.topic);
    KitchenRuns.RunTwo(k, K.Restart, K.Restart);
    KitchenRuns.RunTwo(started, K.ReadCancel(o), K.LookUpForCancel);
    KitchenRuns.RunStep(started, [K.ReadCancel(o)] + [K.LookUpForCancel], K.NoteCancel);
    KitchenRuns.RunsJoin(k, [K.Restart], [K.ReadCancel(o)] + [K.LookUpForCancel] + [K.NoteCancel]);
  }

  lemma {:induction false} CanBeNoted(p: Platform, o: int) returns (steps: seq<Step>)
    requires Announced(p.log, CancelTopic, o)
    ensures Plain(steps) && o in Run(p, steps).kitchen.noted
  {
    NewProcessNotes(p.kitchen, o);
    steps := InKitchens(NoteSteps(o));
    InKitchensArePlain(NoteSteps(o));
    KitchenRunsAlong(p, NoteSteps(o));
  }

  /* The restaurant can hear of every cancel. */
  lemma {:induction false} CancelCanBeNoted(p: SoundPlatform, o: int) returns (steps: seq<Step>)
    requires o in p.store.db.orders && p.store.db.orders[o].status == Cancelled
    ensures Plain(steps) && o in Run(p, steps).kitchen.noted
  {
    SoundDb(p);
    var i := CancelRowOf(p.store.db, o);
    var first, m := RowCanBeSent(p, i);
    var a := Run(p, first);
    SaysSo(a.log, m, p.store.db.outbox[i]);
    var more := CanBeNoted(a, o);
    steps := RunsOn(p, first, a, more);
  }
}
