/**
 What the whole platform can always still do, without aborting anything: the status consumer can catch up with its
 topic, a row of the outbox can be published and marked, an order can be completed, a cancel can reach the restaurant.
 */
module Completion {
  import opened Common
  import opened Statuses
  import opened StatusTopic
  import opened Delivery
  import opened Tables
  import opened Platform
  import opened PlatformRuns
  import opened Republishing
  import S = Store
  import K = Kitchen
  import Guarantees
  import Progress
  import StoreRuns

  /******* The consumer finishes one message *******/

  // Nothing is aborted and the consumer is not taken back.
  ghost predicate Plain(steps: seq<Step>) {
    forall i :: 0 <= i < |steps| ==> !steps[i].Rewind? && !(steps[i].InStore? && steps[i].store.Abort?)
  }

  lemma {:induction false} PlainJoin(a: seq<Step>, b: seq<Step>)
    requires Plain(a) && Plain(b)
    ensures Plain(a + b)
  {}

  lemma {:induction false} AloneIsPlain(steps: seq<S.Step>, t: int)
    requires Progress.Alone([], steps, t)
    ensures Plain(InStores(steps))
  {
    forall i | 0 <= i < |steps| ensures !steps[i].Abort? {
      assert Progress.Moves(steps[i], t);
    }
  }

  // The message under way when its transaction goes on alone: until that ends it is under way, then it was received.
  function Along(p: Platform, s: S.Store): Platform
    requires p.consuming.Some?
  {
    var q := p.(store := s);
    if p.consuming.value.t in s.txs then q else Consumed(q, false)
  }

  lemma {:induction false} MoveAlong(p: Platform, s: S.Store, step: S.Step, t: int)
    requires p.consuming.Some? && p.consuming.value.t == t && Progress.Moves(step, t)
    ensures Do(Along(p, s), InStore(step)) == Along(p, S.Do(s, step))
  {
    if t !in s.txs {
      Progress.GoneDoesNothing(s, step, t);
    }
  }

  lemma {:induction false} RunAlong(p: Platform, steps: seq<S.Step>, t: int)
    requires p.consuming.Some? && p.consuming.value.t == t && t in p.store.txs && Progress.Alone([], steps, t)
    ensures Run(p, InStores(steps)) == Along(p, S.Run(p.store, steps))
  {
    if steps != [] {
      var before, last := SplitsOff(steps);
      RunAlong(p, before, t);
      assert InStores(steps) == InStores(before) + [InStore(last)];
      RunOneMore(p, InStores(before), InStore(last));
      MoveAlong(p, S.Run(p.store, before), last, t);
    }
  }

  // Nobody holds the row of the order, if there is one.
  ghost predicate RowFree(s: S.Store, o: int) {
    o in s.db.orders ==> forall u :: u in s.txs ==> !S.Owns(s.txs[u], S.OrderLock(o))
  }

  // The consumer and what it writes have moved, and nothing else.
  ghost predicate OnlyConsumed(p: Platform, q: Platform) {
    && q.kitchen == p.kitchen && q.jobs == p.jobs && q.log == p.log && q.lost == p.lost && q.partnered == p.partnered
    && q.consuming == None && q.store.txs == p.store.txs
  }

  lemma {:induction false} OnlyConsumedOn(p: Platform, q: Platform, r: Platform)
    requires OnlyConsumed(p, q) && OnlyConsumed(q, r)
    ensures OnlyConsumed(p, r)
  {}

  // The next message about its order.
  predicate IsNext(p: Platform, offset: nat, m: StatusMessage) {
    offset == Count(p.offsets, m.order) && offset < |MessagesOf(p, m.order)| && m.status == MessagesOf(p, m.order)[offset]
  }

  // The consumer has taken it up and asked for a transaction.
  function TakenUp(p: Platform, t: int, m: StatusMessage): Platform {
    p.(store := S.Move(p.store, t, S.Tx(S.StatusProg(m.order, m.status, S.Consumer), S.Begun, S.NOTHING), {}),
       consuming := Some(Underway(t, m)))
  }

  lemma {:induction false} TakesUp(p: Platform, t: int, offset: nat, m: StatusMessage)
    requires p.consuming == None && t !in p.store.txs && IsNext(p, offset, m) && RowFree(p.store, m.order)
    ensures Do(p, Consume(t, m.order)) == TakenUp(p, t, m) && Progress.CanLock(TakenUp(p, t, m).store, t)
  {}

  lemma {:induction false} SameTxs(a: S.Store, tx: S.Tx, t: int, b: S.Store)
    requires t !in a.txs && t !in b.txs && Progress.OthersAlike(S.Move(a, t, tx, {}), b, t)
    ensures b.txs == a.txs
  {
    forall u ensures u in b.txs <==> u in a.txs
      ensures u in a.txs ==> b.txs[u] == a.txs[u]
    {
      if u != t {
        assert u in S.Move(a, t, tx, {}).txs <==> u in a.txs;
      }
    }
  }

  lemma {:induction false} AmountsToReceiving(a: Db, m: StatusMessage, b: Db)
    requires Progress.Amounts(a, S.StatusProg(m.order, m.status, S.Consumer), b)
    ensures b.orders == ReceiveInto(a.orders, m)
  {
    var rowId, stamp :| b == SetStatus(a, m.order, m.status, rowId, stamp).0;
    UpdateReceives(a, m, rowId, stamp);
  }

  // The transaction under way runs to its end, on its own.
  lemma {:induction false} FinishesUnderway(a: SoundPlatform, u: Underway) returns (steps: seq<Step>, s: S.Store)
    requires a.consuming == Some(u) && Progress.CanLock(a.store, u.t)
    ensures Plain(steps) && Run(a, steps) == Consumed(a.(store := s), false)
    ensures u.t !in s.txs && Progress.OthersAlike(a.store, s, u.t) && s.db.orders == ReceiveInto(a.store.db.orders, u.m)
  {
    ConsumerKnows(a);
    var more := Progress.StatusCanFinish(a.store, u.t);
    s := S.Run(a.store, more);
    steps := InStores(more);
    RunAlong(a, more, u.t);
    AloneIsPlain(more, u.t);
    AmountsToReceiving(a.store.db, u.m, s.db);
  }

  lemma {:induction false} PlatformRunIs(p: SoundPlatform, steps: seq<Step>, r: Platform) returns (q: SoundPlatform)
    requires Run(p, steps) == r
    ensures q == r
  {
    q := RunKeeps(p, steps);
  }

  // From the platform that has taken the message up.
  lemma {:induction false} FinishesMessage(p: Platform, t: int, m: StatusMessage, a: SoundPlatform)
    returns (steps: seq<Step>, q: SoundPlatform)
    requires p.consuming == None && t !in p.store.txs && a == TakenUp(p, t, m) && Progress.CanLock(a.store, t)
    ensures Plain(steps) && q == Run(a, steps) && OnlyConsumed(p, q)
    ensures Count(q.offsets, m.order) == Count(p.offsets, m.order) + 1
    ensures q.store.db.orders == ReceiveInto(p.store.db.orders, m)
  {
    var s;
    steps, s := FinishesUnderway(a, Underway(t, m));
    SameTxs(p.store, S.Tx(S.StatusProg(m.order, m.status, S.Consumer), S.Begun, S.NOTHING), t, s);
    q := PlatformRunIs(a, steps, Consumed(a.(store := s), false));
  }

  lemma {:induction false} StepThenRun(p: Platform, step: Step, a: Platform, more: seq<Step>) returns (steps: seq<Step>)
    requires a == Do(p, step) && Plain(more) && !step.Rewind? && !step.InStore?
    ensures Plain(steps) && Run(p, steps) == Run(a, more)
  {
    RunTwo(p, step, step);
    RunsJoin(p, [step], more);
    steps := [step] + more;
  }

  lemma {:induction false} TakesUpSoundly(p: SoundPlatform, t: int, offset: nat, m: StatusMessage)
    returns (a: SoundPlatform)
    requires p.consuming == None && t !in p.store.txs && IsNext(p, offset, m) && RowFree(p.store, m.order)
    ensures a == Do(p, Consume(t, m.order)) && a == TakenUp(p, t, m) && Progress.CanLock(a.store, t)
  {
    TakesUp(p, t, offset, m);
    a := StepKeeps(p, Consume(t, m.order));
  }

  // One message: taken up, and offered to its order.
  lemma {:induction false} ConsumeOneMore(p: SoundPlatform, offset: nat, m: StatusMessage)
    returns (steps: seq<Step>, q: SoundPlatform)
    requires p.consuming == None && RowFree(p.store, m.order) && IsNext(p, offset, m)
    ensures Plain(steps) && q == Run(p, steps) && OnlyConsumed(p, q)
    ensures Count(q.offsets, m.order) == offset + 1
    ensures q.store.db.orders == ReceiveInto(p.store.db.orders, m)
  {
    var t := Progress.UnusedId(p.store.txs.Keys);
    var a := TakesUpSoundly(p, t, offset, m);
    var more;
    more, q := FinishesMessage(p, t, m, a);
    steps := StepThenRun(p, Consume(t, m.order), a, more);
  }

  /******* The consumer catches up *******/

  // The order o is there as before, and has received these statuses.
  ghost predicate Received(a: map<int, OrderRow>, o: int, s: seq<Status>, b: map<int, OrderRow>) {
    && (o in b <==> o in a)
    && (o in a ==> b[o] == a[o].(status := ReceiveAll(a[o].status, s)))
  }

  lemma {:induction false} ReceivesFirst(a: map<int, OrderRow>, m: StatusMessage, s: seq<Status>, b: map<int, OrderRow>)
    requires Received(ReceiveInto(a, m), m.order, s, b)
    ensures Received(a, m.order, [m.status] + s, b)
  {
    if m.order in a {
      ReceiveFirst(a[m.order].status, m.status, s);
    }
  }

  lemma {:induction false} ReceivesNothing(a: map<int, OrderRow>, o: int)
    ensures Received(a, o, [], a)
  {
    if o in a {
      assert a[o].(status := a[o].status) == a[o];
    }
  }

  lemma {:induction false} StaysFree(p: Platform, q: Platform, m: StatusMessage)
    requires RowFree(p.store, m.order) && OnlyConsumed(p, q) && q.store.db.orders == ReceiveInto(p.store.db.orders, m)
    ensures RowFree(q.store, m.order)
  {}

  lemma {:induction false} NotBeyond(p: SoundPlatform, o: int)
    ensures Count(p.offsets, o) <= Count(p.seen, o) <= |MessagesOf(p, o)|
  {
    ConsumerKnows(p);
  }

  lemma {:induction false} RunsOn(p: Platform, first: seq<Step>, q: Platform, more: seq<Step>) returns (steps: seq<Step>)
    requires Run(p, first) == q && Plain(first) && Plain(more)
    ensures Plain(steps) && Run(p, steps) == Run(q, more)
  {
    RunsJoin(p, first, more);
    PlainJoin(first, more);
    steps := first + more;
  }

  // The steps lead to q, where all of s was read from offset on and nothing else has happened.
  ghost predicate ReadsAll(p: Platform, o: int, offset: nat, s: seq<Status>, steps: seq<Step>, q: Platform)
    requires offset <= |s|
  {
    && Plain(steps) && q == Run(p, steps) && OnlyConsumed(p, q) && Count(q.offsets, o) == |s|
    && Received(p.store.db.orders, o, s[offset..], q.store.db.orders)
  }

  lemma {:induction false} ReadsNothing(p: Platform, o: int, s: seq<Status>)
    requires p.consuming == None && Count(p.offsets, o) == |s|
    ensures ReadsAll(p, o, |s|, s, [], p)
  {
    ReceivesNothing(p.store.db.orders, o);
    assert s[|s|..] == [];
  }

  lemma {:induction false} ReadsOneMore(
    p: Platform, offset: nat, next: nat, s: seq<Status>, m: StatusMessage, first: seq<Step>, a: Platform,
    more: seq<Step>, q: Platform)
    returns (steps: seq<Step>)
    requires offset < |s| && next == offset + 1 && m.status == s[offset]
    requires Plain(first) && a == Run(p, first) && OnlyConsumed(p, a)
    requires a.store.db.orders == ReceiveInto(p.store.db.orders, m)
    requires ReadsAll(a, m.order, next, s, more, q)
    ensures ReadsAll(p, m.order, offset, s, steps, q)
  {
    steps := RunsOn(p, first, a, more);
    OnlyConsumedOn(p, a, q);
    var rest := StartsWith(s, offset);
    ReceivesFirst(p.store.db.orders, m, rest, q.store.db.orders);
  }

  // What is needed to go on.
  ghost predicate CanRead(p: Platform, o: int, offset: nat, s: seq<Status>) {
    p.consuming == None && RowFree(p.store, o) && offset == Count(p.offsets, o) && s == MessagesOf(p, o) && offset <= |s|
  }

  lemma {:induction false} NextIsThere(p: Platform, offset: nat, s: seq<Status>, m: StatusMessage)
    requires CanRead(p, m.order, offset, s) && offset < |s| && m.status == s[offset]
    ensures IsNext(p, offset, m) && p.consuming == None && RowFree(p.store, m.order)
  {}

  lemma {:induction false} CanReadOn(p: Platform, a: Platform, offset: nat, next: nat, s: seq<Status>, m: StatusMessage)
    requires CanRead(p, m.order, offset, s) && offset < |s| && next == offset + 1
    requires OnlyConsumed(p, a) && a.store.db.orders == ReceiveInto(p.store.db.orders, m) && Count(a.offsets, m.order) == next
    ensures CanRead(a, m.order, next, s)
  {
    StaysFree(p, a, m);
  }

  lemma {:induction false} ReadsNext(p: SoundPlatform, offset: nat, next: nat, s: seq<Status>, m: StatusMessage)
    returns (first: seq<Step>, a: SoundPlatform)
    requires CanRead(p, m.order, offset, s) && offset < |s| && next == offset + 1 && m.status == s[offset]
    ensures CanRead(a, m.order, next, s)
    ensures Plain(first) && a == Run(p, first) && OnlyConsumed(p, a)
    ensures a.store.db.orders == ReceiveInto(p.store.db.orders, m)
  {
    NextIsThere(p, offset, s, m);
    first, a := ConsumeOneMore(p, offset, m);
    CanReadOn(p, a, offset, next, s, m);
  }

  lemma {:induction false} CatchesUp(p: SoundPlatform, o: int, offset: nat, s: seq<Status>)
    returns (steps: seq<Step>, q: SoundPlatform)
    requires CanRead(p, o, offset, s)
    ensures ReadsAll(p, o, offset, s, steps, q)
    decreases |s| - offset
  {
    if offset == |s| {
      steps, q := [], p;
      ReadsNothing(p, o, s);
    } else {
      var m, next := StatusMessage(o, s[offset]), offset + 1;
      var first, a := ReadsNext(p, offset, next, s, m);
      var more;
      more, q := CatchesUp(a, o, next, s);
      steps := ReadsOneMore(p, offset, next, s, m, first, a, more, q);
    }
  }

  // All there is was read.
  lemma {:induction false} CaughtUpMeans(q: SoundPlatform, o: int)
    requires Count(q.offsets, o) == |MessagesOf(q, o)|
    ensures SeenOf(q, o) == MessagesOf(q, o)
    ensures o in q.store.db.orders && o !in q.partnered && o !in q.lost && q.store.db.orders[o].status != Cancelled ==>
      q.store.db.orders[o].status == KitchenStatus(Furthest(MessagesOf(q, o)))
  {
    NotBeyond(q, o);
    WasSettled(q, o);
  }

  /*
   The consumer never gets stuck: from every reachable state in which it has no message under way and nobody
   holds the row of the order, it can read all that the topic has about the order, without an abort. The order is
   then as far as its pipelines got, unless it was cancelled, an update of it was dropped, or a partner moved it.
   */
  lemma {:induction false} ConsumerCanCatchUp(p: SoundPlatform, o: int) returns (steps: seq<Step>, q: SoundPlatform)
    requires p.consuming == None && RowFree(p.store, o)
    ensures Plain(steps) && q == Run(p, steps) && q.kitchen.topic == p.kitchen.topic && q.lost == p.lost
    ensures Count(q.offsets, o) == |MessagesOf(q, o)| && SeenOf(q, o) == MessagesOf(q, o)
    ensures o in q.store.db.orders && o !in q.partnered && o !in q.lost && q.store.db.orders[o].status != Cancelled ==>
      q.store.db.orders[o].status == KitchenStatus(Furthest(MessagesOf(q, o)))
  {
    NotBeyond(p, o);
    steps, q := CatchesUp(p, o, Count(p.offsets, o), MessagesOf(p, o));
    CaughtUpMeans(q, o);
  }
}
