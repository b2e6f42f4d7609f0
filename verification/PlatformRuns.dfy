/**
 Runs of the whole platform: what the relay guarantees, and which status an order ends up with, under
 duplicates, failures and restarts everywhere.
 */
module PlatformRuns {
  import opened Common
  import opened Statuses
  import opened StatusTopic
  import opened Delivery
  import opened Tables
  import opened Platform
  import opened StoreRuns
  import opened StoreEffects
  import I = Isolation
  import S = Store
  import K = Kitchen
  import KitchenRuns

  /******* The relay *******/

  ghost predicate Backed(outbox: seq<OutboxRow>, m: Message) {
    exists i :: 0 <= i < |outbox| && MessageOf(outbox[i]) == m
  }

  ghost predicate JobOk(outbox: seq<OutboxRow>, log: seq<Message>, job: Job) {
    && (exists i :: 0 <= i < |outbox| && outbox[i].id == job.row.id && MessageOf(outbox[i]) == MessageOf(job.row))
    && (job.sent ==> MessageOf(job.row) in log)
  }

  // Messages are committed rows, jobs carry committed rows, and processed rows were published.
  ghost predicate RelayOk(outbox: seq<OutboxRow>, jobs: map<int, Job>, log: seq<Message>) {
    && (forall m :: m in log ==> Backed(outbox, m))
    && (forall j :: j in jobs ==> JobOk(outbox, log, jobs[j]))
    && (forall i :: 0 <= i < |outbox| && outbox[i].processed ==> MessageOf(outbox[i]) in log)
  }

  lemma {:induction false} RelayQueues(a: seq<OutboxRow>, b: seq<OutboxRow>, jobs: map<int, Job>, log: seq<Message>)
    requires RelayOk(a, jobs, log) && Queues(a, b)
    ensures RelayOk(b, jobs, log)
  {
    forall m | m in log ensures Backed(b, m) {
      var i :| 0 <= i < |a| && MessageOf(a[i]) == m;
      assert MessageOf(b[i]) == m;
    }
    forall j | j in jobs ensures JobOk(b, log, jobs[j]) {
      assert JobOk(a, log, jobs[j]);
      var i :| 0 <= i < |a| && a[i].id == jobs[j].row.id && MessageOf(a[i]) == MessageOf(jobs[j].row);
      assert b[i] == a[i];
    }
  }

  lemma {:induction false} RelayMarks(outbox: seq<OutboxRow>, jobs: map<int, Job>, log: seq<Message>, job: Job)
    requires RelayOk(outbox, jobs, log) && RowIdsDistinct(outbox) && JobOk(outbox, log, job) && job.sent
    ensures RelayOk(MarkRows(outbox, job.row.id), jobs, log)
  {
    var b := MarkRows(outbox, job.row.id);
    forall m | m in log ensures Backed(b, m) {
      var i :| 0 <= i < |outbox| && MessageOf(outbox[i]) == m;
      assert MessageOf(b[i]) == m;
    }
    forall j | j in jobs ensures JobOk(b, log, jobs[j]) {
      assert JobOk(outbox, log, jobs[j]);
      var i :| 0 <= i < |outbox| && outbox[i].id == jobs[j].row.id && MessageOf(outbox[i]) == MessageOf(jobs[j].row);
      assert b[i].id == jobs[j].row.id && MessageOf(b[i]) == MessageOf(jobs[j].row);
    }
    var k :| 0 <= k < |outbox| && outbox[k].id == job.row.id && MessageOf(outbox[k]) == MessageOf(job.row);
    forall i | 0 <= i < |b| && b[i].processed ensures MessageOf(b[i]) in log {
      assert outbox[i].processed || i == k;
    }
  }

  lemma {:induction false} RelayPublishes(outbox: seq<OutboxRow>, jobs: map<int, Job>, log: seq<Message>, job: Job, copies: nat)
    requires RelayOk(outbox, jobs, log) && JobOk(outbox, log, job)
    ensures RelayOk(outbox, jobs, log + Repeat(MessageOf(job.row), copies))
    ensures copies > 0 ==> JobOk(outbox, log + Repeat(MessageOf(job.row), copies), job.(sent := true))
  {
    var more := log + Repeat(MessageOf(job.row), copies);
    forall m | m in more ensures Backed(outbox, m) {
      assert m in log || m == MessageOf(job.row);
    }
    forall j | j in jobs ensures JobOk(outbox, more, jobs[j]) {
      assert JobOk(outbox, log, jobs[j]);
    }
    if copies > 0 {
      assert more[|log|] == MessageOf(job.row);
    }
  }

  /******* Every order the restaurant hears of is stored *******/

  ghost predicate PollerKnown(orders: map<int, OrderRow>, poller: K.OrderPoller) {
    match poller
    case Reading | Finishing | Finished => true
    case CheckingActive(o) => o in orders
    case CheckingCancelled(o) => o in orders
    case Storing(o) => o in orders
    case Adding(o, _) => o in orders
    case Spawning(o, _) => o in orders
  }

  ghost predicate Known(orders: map<int, OrderRow>, k: K.Kitchen) {
    && PollerKnown(orders, k.orders)
    && (forall g :: g in k.pipes ==> k.pipes[g].order in orders)
    && (forall i :: 0 <= i < |k.topic| ==> k.topic[i].order in orders)
  }

  lemma {:induction false} KnownStays(a: map<int, OrderRow>, b: map<int, OrderRow>, k: K.Kitchen)
    requires Known(a, k) && forall o :: o in a ==> o in b
    ensures Known(b, k)
  {}

  lemma {:induction false} KnownStep(orders: map<int, OrderRow>, k: K.Kitchen, step: K.Step)
    requires Known(orders, k) && (step.ReadOrder? ==> step.order in orders)
    ensures Known(orders, K.Do(k, step))
  {}

  lemma {:induction false} PayloadListed(outbox: seq<OutboxRow>, i: nat)
    requires i < |outbox|
    ensures outbox[i].payload in PayloadsOf(outbox, outbox[i].topic, outbox[i].key)
  {
    var n := |outbox| - 1;
    if i < n {
      PayloadListed(outbox[..n], i);
    }
  }

  // A message is about a stored order.
  lemma {:induction false} RowKnown(db: Db, i: nat)
    requires DbOk(db) && i < |db.outbox|
    ensures db.outbox[i].key in db.orders && db.outbox[i].payload.orderId == db.outbox[i].key
  {
    var row := db.outbox[i];
    PayloadListed(db.outbox, i);
    if row.key in db.orders {
      assert OrderOk(db, row.key);
    }
  }

  lemma {:induction false} AnnouncedKnown(db: Db, log: seq<Message>, topic: Topic, o: int)
    requires DbOk(db) && (forall m :: m in log ==> Backed(db.outbox, m)) && Announced(log, topic, o)
    ensures o in db.orders
  {
    var k :| 0 <= k < |log| && log[k].topic == topic && log[k].payload.orderId == o;
    assert log[k] in log;
    var i :| 0 <= i < |db.outbox| && MessageOf(db.outbox[i]) == log[k];
    RowKnown(db, i);
  }

  /******* The consumer *******/

  ghost predicate TxsKnown(txs: map<int, S.Tx>, consuming: Option<Underway>, partnered: set<int>) {
    forall t :: t in txs && txs[t].prog.StatusProg? ==>
      match txs[t].prog.origin
      case Client => true
      case Partner => txs[t].prog.order in partnered
      case Consumer => consuming.Some? && consuming.value.t == t
  }

  ghost predicate UnderwayOk(txs: map<int, S.Tx>, u: Underway) {
    u.t in txs && txs[u.t].prog == S.StatusProg(u.m.order, u.m.status, S.Consumer)
  }

  // What the consumer has read of the topic.
  ghost predicate ReadOk(
    topic: seq<StatusMessage>, offsets: map<int, nat>, seen: map<int, nat>, consuming: Option<Underway>)
  {
    && (forall o :: Count(offsets, o) <= Count(seen, o) <= |StatusesOf(topic, o)|)
    && (consuming.Some? ==>
          var m := consuming.value.m;
          Count(offsets, m.order) < |StatusesOf(topic, m.order)| &&
          StatusesOf(topic, m.order)[Count(offsets, m.order)] == m.status)
  }

  ghost predicate ConsumerOk(p: Platform) {
    && TxsKnown(p.store.txs, p.consuming, p.partnered)
    && (p.consuming.Some? ==> UnderwayOk(p.store.txs, p.consuming.value))
    && ReadOk(p.kitchen.topic, p.offsets, p.seen, p.consuming)
  }

  /******* The outcome *******/

  function Taken(s: seq<Status>, n: nat): seq<Status> {
    if n <= |s| then s[..n] else s
  }

  // What the consumer has seen about the order so far.
  function SeenOf(p: Platform, o: int): seq<Status> {
    Taken(MessagesOf(p, o), Count(p.seen, o))
  }

  // Every order no partner touched is as far as the consumer has got, or behind if an update of it was dropped.
  ghost predicate OutcomeOk(p: Platform) {
    forall o :: o in p.store.db.orders && o !in p.partnered ==>
      Settled(p.store.db.orders[o].status, SeenOf(p, o), o in p.lost)
  }

  ghost predicate PlatformOk(p: Platform) {
    && StoreOk(p.store)
    && KitchenRuns.KitchenOk(p.kitchen)
    && RelayOk(p.store.db.outbox, p.jobs, p.log)
    && Known(p.store.db.orders, p.kitchen)
    && ConsumerOk(p)
    && OutcomeOk(p)
  }

  lemma {:induction false} FreshOk(restaurants: map<int, bool>)
    ensures PlatformOk(Fresh(restaurants))
  {
    StoreRuns.InitiallyOk(restaurants);
    KitchenRuns.InitiallyOk(0);
  }

  ghost function Idle(): (p: Platform)
    ensures PlatformOk(p)
  {
    FreshOk(map[]);
    Fresh(map[])
  }

  /* A platform that meets the invariant. */
  type SoundPlatform = p: Platform | PlatformOk(p) ghost witness Idle()

  // Nobody has said anything about an order that does not exist.
  lemma {:induction false} UnheardOf(topic: seq<StatusMessage>, o: int)
    requires forall i :: 0 <= i < |topic| ==> topic[i].order != o
    ensures StatusesOf(topic, o) == []
  {
    if topic != [] {
      UnheardOf(topic[..|topic| - 1], o);
    }
  }

  /*** One message is consumed ***/

  ghost predicate EndsConsuming(p: Platform, step: S.Step) {
    p.consuming.Some? && p.consuming.value.t !in S.Do(p.store, step).txs
  }

  lemma {:induction false} SameStatus(orders: map<int, OrderRow>, o: int)
    requires o in orders
    ensures orders[o := orders[o].(status := orders[o].status)] == orders
  {
    assert orders[o].(status := orders[o].status) == orders[o];
  }

  lemma {:induction false} RefusedReceives(orders: map<int, OrderRow>, m: StatusMessage)
    requires Refused(orders, m.order, m.status)
    ensures ReceiveInto(orders, m) == orders
  {
    if m.order in orders {
      SameStatus(orders, m.order);
    }
  }

  lemma {:induction false} CommittedReceives(orders: map<int, OrderRow>, m: StatusMessage, tx: S.Tx, after: map<int, OrderRow>)
    requires OrdersAfter(orders, tx, after) && tx.prog == S.StatusProg(m.order, m.status, S.Consumer)
    ensures ReceiveInto(orders, m) == after
  {}

  lemma {:induction false} ConsumerKnows(p: SoundPlatform)
    ensures p.consuming.Some? ==> UnderwayOk(p.store.txs, p.consuming.value)
    ensures ReadOk(p.kitchen.topic, p.offsets, p.seen, p.consuming)
  {}

  lemma {:induction false} CommitReceives(s: SoundStore, u: Underway, acked: bool)
    requires UnderwayOk(s.txs, u) && S.Finishable(s.txs[u.t])
    ensures S.DoCommit(s, u.t, acked).db.orders == ReceiveInto(s.db.orders, u.m)
  {
    CommitOnOrders(s, u.t, acked);
    CommittedReceives(s.db.orders, u.m, s.txs[u.t], S.DoCommit(s, u.t, acked).db.orders);
  }

  // A refusal, or a missing order: the message is received in vain.
  lemma {:induction false} RefusalReceives(s: SoundStore, step: S.Step, u: Underway, b: S.Store)
    requires UnderwayOk(s.txs, u) && b == S.Do(s, step) && u.t !in b.txs && !step.Commit? && !step.Abort?
    ensures b.db.orders == ReceiveInto(s.db.orders, u.m)
  {
    StatusTxEnds(s, step, u.t);
    OrdersChangeByCommit(s, step);
    RefusedReceives(s.db.orders, u.m);
  }

  lemma {:induction false} EndingCommits(s: S.Store, step: S.Step, u: Underway)
    requires UnderwayOk(s.txs, u) && step.Commit? && u.t !in S.DoCommit(s, step.t, step.acked).txs
    ensures step.t == u.t && S.Finishable(s.txs[u.t])
  {
    CommitEnds(s, u.t, step.t, step.acked);
  }

  // However the transaction of a message ends: the message was dropped, or received.
  lemma {:induction false} EndingReceives(s: SoundStore, step: S.Step, u: Underway, b: S.Store)
    requires UnderwayOk(s.txs, u) && b == S.Do(s, step) && u.t !in b.txs
    ensures b.db.orders == if step.Abort? then s.db.orders else ReceiveInto(s.db.orders, u.m)
  {
    if step.Commit? {
      S.CommitStep(s, step);
      EndingCommits(s, step, u);
      CommitReceives(s, u, step.acked);
    } else if step.Abort? {
      OrdersChangeByCommit(s, step);
    } else {
      RefusalReceives(s, step, u, b);
    }
  }

  lemma {:induction false} WasSettled(p: SoundPlatform, o: int)
    ensures Chained(MessagesOf(p, o)) && Count(p.seen, o) <= |MessagesOf(p, o)|
    ensures o in p.store.db.orders && o !in p.partnered ==> Settled(p.store.db.orders[o].status, SeenOf(p, o), o in p.lost)
  {}

  // A new order: the restaurant cannot have mentioned it yet, nor can it have been dropped or touched.
  lemma {:induction false} NewOrderSettles(p: SoundPlatform, o: int)
    requires o !in p.store.db.orders
    ensures SeenOf(p, o) == [] && Settled(Created, SeenOf(p, o), o in p.lost)
  {
    UnheardOf(p.kitchen.topic, o);
  }

  // What a commit that is neither the consumer's nor a partner's makes of the status of o.
  lemma {:induction false} StatusAfter(a: map<int, OrderRow>, tx: S.Tx, b: map<int, OrderRow>, o: int)
    requires OrdersAfter(a, tx, b) && o in b
    requires tx.prog.StatusProg? && tx.prog.order == o ==> tx.prog.origin == S.Client
    ensures o in a ==> b[o].status == a[o].status || b[o].status == Cancelled
    ensures o !in a ==> b[o].status == Created
  {}

  lemma {:induction false} OnlyClients(p: Platform, t: int, acked: bool, o: int)
    requires ConsumerOk(p) && !EndsConsuming(p, S.Commit(t, acked)) && o !in p.partnered
    requires t in p.store.txs && S.Finishable(p.store.txs[t])
    ensures var prog := p.store.txs[t].prog; prog.StatusProg? && prog.order == o ==> prog.origin == S.Client
  {
    assert t !in S.DoCommit(p.store, t, acked).txs;
  }

  lemma {:induction false} CommitSettles(p: SoundPlatform, t: int, acked: bool, o: int)
    requires !EndsConsuming(p, S.Commit(t, acked))
    requires t in p.store.txs && S.Finishable(p.store.txs[t])
    requires o in S.DoCommit(p.store, t, acked).db.orders && o !in p.partnered
    ensures Settled(S.DoCommit(p.store, t, acked).db.orders[o].status, SeenOf(p, o), o in p.lost)
  {
    CommitOnOrders(p.store, t, acked);
    OnlyClients(p, t, acked, o);
    StatusAfter(p.store.db.orders, p.store.txs[t], S.DoCommit(p.store, t, acked).db.orders, o);
    if o in p.store.db.orders {
      WasSettled(p, o);
    } else {
      NewOrderSettles(p, o);
    }
  }

  lemma {:induction false} StepSettles(p: SoundPlatform, step: S.Step, o: int)
    requires !EndsConsuming(p, step)
    requires o in S.Do(p.store, step).db.orders && o !in p.partnered
    ensures Settled(S.Do(p.store, step).db.orders[o].status, SeenOf(p, o), o in p.lost)
  {
    WasSettled(p, o);
    if step.Commit? && step.t in p.store.txs && S.Finishable(p.store.txs[step.t]) {
      CommitSettles(p, step.t, step.acked, o);
    } else if !step.Commit? {
      OrdersChangeByCommit(p.store, step);
    }
  }

  function Partnered(p: Platform, step: S.Step): set<int> {
    if step.PartnerRequest? then p.partnered + {step.order} else p.partnered
  }

  lemma {:induction false} TxsStayKnown(p: Platform, step: S.Step)
    requires ConsumerOk(p) && !step.ConsumerRequest?
    ensures TxsKnown(S.Do(p.store, step).txs, p.consuming, Partnered(p, step))
    ensures EndsConsuming(p, step) ==> TxsKnown(S.Do(p.store, step).txs, None, Partnered(p, step))
  {
    var b := S.Do(p.store, step);
    forall t | t in b.txs && b.txs[t].prog.StatusProg?
      ensures match b.txs[t].prog.origin
        case Client => true
        case Partner => b.txs[t].prog.order in Partnered(p, step)
        case Consumer => p.consuming.Some? && p.consuming.value.t == t
    {
      StatusTxFrom(p.store, step, t);
    }
  }

  // What a step of the store leaves of the rest of the platform, when the message under way stays so.
  lemma {:induction false} AfterStep(p: Platform, step: S.Step)
    requires !step.ConsumerRequest? && !step.Mark? && !EndsConsuming(p, step)
    ensures DoInStore(p, step) == p.(store := S.Do(p.store, step), partnered := Partnered(p, step))
  {}

  lemma {:induction false} AfterEnding(p: Platform, step: S.Step)
    requires !step.ConsumerRequest? && !step.Mark? && EndsConsuming(p, step)
    ensures DoInStore(p, step) == Consumed(p.(store := S.Do(p.store, step), partnered := Partnered(p, step)), step.Abort?)
  {}

  // The consumer's transaction goes on.
  lemma {:induction false} StillConsuming(p: Platform, step: S.Step)
    requires ConsumerOk(p) && p.consuming.Some? && !EndsConsuming(p, step)
    ensures UnderwayOk(S.Do(p.store, step).txs, p.consuming.value)
  {
    StatusTxFrom(p.store, step, p.consuming.value.t);
  }

  lemma {:induction false} CountSet(counts: map<int, nat>, o: int, n: nat, x: int)
    ensures Count(counts[o := n], x) == if x == o then n else Count(counts, x)
  {}

  lemma {:induction false} ReadOneMore(
    topic: seq<StatusMessage>, offsets: map<int, nat>, seen: map<int, nat>, u: Underway, offset: nat, seen': nat)
    requires ReadOk(topic, offsets, seen, Some(u))
    requires offset == Count(offsets, u.m.order) + 1 && seen' == Advanced(Count(offsets, u.m.order), Count(seen, u.m.order))
    ensures ReadOk(topic, offsets[u.m.order := offset], seen[u.m.order := seen'], None)
  {
    var o := u.m.order;
    forall x ensures Count(offsets[o := offset], x) <= Count(seen[o := seen'], x) <= |StatusesOf(topic, x)| {
      CountSet(offsets, o, offset, x);
      CountSet(seen, o, seen', x);
      assert Count(offsets, x) <= Count(seen, x) <= |StatusesOf(topic, x)|;
    }
  }

  lemma {:induction false} StepConsumer(p: Platform, step: S.Step)
    requires ConsumerOk(p) && !step.ConsumerRequest? && !EndsConsuming(p, step)
    ensures ConsumerOk(p.(store := S.Do(p.store, step), partnered := Partnered(p, step)))
  {
    TxsStayKnown(p, step);
    if p.consuming.Some? {
      StillConsuming(p, step);
    }
  }

  lemma {:induction false} EndingConsumer(p: Platform, step: S.Step)
    requires ConsumerOk(p) && !step.ConsumerRequest? && EndsConsuming(p, step)
    ensures ConsumerOk(Consumed(p.(store := S.Do(p.store, step), partnered := Partnered(p, step)), step.Abort?))
  {
    TxsStayKnown(p, step);
    var o := p.consuming.value.m.order;
    ReadOneMore(p.kitchen.topic, p.offsets, p.seen, p.consuming.value,
                Count(p.offsets, o) + 1, Advanced(Count(p.offsets, o), Count(p.seen, o)));
  }

  lemma {:induction false} StepOutcome(p: SoundPlatform, step: S.Step)
    requires !EndsConsuming(p, step)
    ensures OutcomeOk(p.(store := S.Do(p.store, step), partnered := Partnered(p, step)))
  {
    var q := p.(store := S.Do(p.store, step), partnered := Partnered(p, step));
    forall o | o in q.store.db.orders && o !in q.partnered
      ensures Settled(q.store.db.orders[o].status, SeenOf(q, o), o in q.lost)
    {
      StepSettles(p, step, o);
    }
  }

  lemma {:induction false} SeenAfter(p: Platform, dropped: bool)
    requires p.consuming.Some? && ReadOk(p.kitchen.topic, p.offsets, p.seen, p.consuming)
    ensures var o, q := p.consuming.value.m.order, Consumed(p, dropped);
      var s, offset, seen := MessagesOf(p, o), Count(p.offsets, o), Count(p.seen, o);
      && offset <= seen <= |s| && offset < |s| && s[offset] == p.consuming.value.m.status
      && SeenOf(p, o) == s[..seen] && SeenOf(q, o) == s[..Advanced(offset, seen)]
      && (o in q.lost <==> o in p.lost || dropped)
  {
    assert Count(p.offsets, p.consuming.value.m.order) <= Count(p.seen, p.consuming.value.m.order);
  }

  // The order of the message under way, once that was dealt with.
  lemma {:induction false} MessageEnds(p: SoundPlatform, dropped: bool, old_: Status)
    requires p.consuming.Some?
    ensures var m, q := p.consuming.value.m, Consumed(p, dropped);
      Settled(old_, SeenOf(p, m.order), m.order in p.lost) ==>
        Settled(if dropped then old_ else Receive(old_, m.status), SeenOf(q, m.order), m.order in q.lost)
  {
    var o := p.consuming.value.m.order;
    var s, offset, seen, lossy := MessagesOf(p, o), Count(p.offsets, o), Count(p.seen, o), o in p.lost;
    WasSettled(p, o);
    ConsumerKnows(p);
    SeenAfter(p, dropped);
    if Settled(old_, s[..seen], lossy) {
      MessageSettles(s, offset, seen, lossy, dropped, old_);
    }
  }

  lemma {:induction false} OthersUnread(p: Platform, dropped: bool, o: int)
    requires p.consuming.Some? && p.consuming.value.m.order != o
    ensures var q := Consumed(p, dropped); SeenOf(q, o) == SeenOf(p, o) && (o in q.lost <==> o in p.lost)
  {}

  // The status of one order after a message was dropped, or received.
  lemma {:induction false} StatusReceived(a: map<int, OrderRow>, m: StatusMessage, dropped: bool, b: map<int, OrderRow>, o: int)
    requires o in b && b == if dropped then a else ReceiveInto(a, m)
    ensures o in a
    ensures b[o].status == if dropped || o != m.order then a[o].status else Receive(a[o].status, m.status)
  {}

  // Any order; orders are the rows by then.
  lemma {:induction false} EndingSettles(p: SoundPlatform, dropped: bool, orders: map<int, OrderRow>, o: int)
    requires p.consuming.Some? && o !in p.partnered && o in orders
    requires orders == if dropped then p.store.db.orders else ReceiveInto(p.store.db.orders, p.consuming.value.m)
    ensures var q := Consumed(p, dropped); Settled(orders[o].status, SeenOf(q, o), o in q.lost)
  {
    StatusReceived(p.store.db.orders, p.consuming.value.m, dropped, orders, o);
    WasSettled(p, o);
    if o == p.consuming.value.m.order {
      MessageEnds(p, dropped, p.store.db.orders[o].status);
    } else {
      OthersUnread(p, dropped, o);
    }
  }

  lemma {:induction false} EndingOutcome(p: SoundPlatform, step: S.Step)
    requires EndsConsuming(p, step)
    ensures OutcomeOk(Consumed(p.(store := S.Do(p.store, step), partnered := Partnered(p, step)), step.Abort?))
  {
    var q := Consumed(p.(store := S.Do(p.store, step), partnered := Partnered(p, step)), step.Abort?);
    ConsumerKnows(p);
    EndingReceives(p.store, step, p.consuming.value, S.Do(p.store, step));
    forall o | o in q.store.db.orders && o !in q.partnered
      ensures Settled(q.store.db.orders[o].status, SeenOf(q, o), o in q.lost)
    {
      EndingSettles(p, step.Abort?, q.store.db.orders, o);
    }
  }

  /******* All steps *******/

  lemma {:induction false} StoreKeeps(s: S.Store, step: S.Step)
    requires StoreOk(s)
    ensures StoreOk(S.Do(s, step)) && Evolves(s.db, S.Do(s, step).db)
  {
    var b := StoreRuns.StepKeeps(s, step);
  }

  lemma {:induction false} OrdersStay(a: Db, b: Db)
    requires Evolves(a, b)
    ensures forall o :: o in a.orders ==> o in b.orders
  {
    forall o | o in a.orders ensures o in b.orders {
      assert OrderEvolves(a, b, o);
    }
  }

  lemma {:induction false} InStoreRest(p: SoundPlatform, step: S.Step)
    requires !step.Mark?
    ensures var b := S.Do(p.store, step);
      StoreOk(b) && RelayOk(b.db.outbox, p.jobs, p.log) && Known(b.db.orders, p.kitchen)
  {
    StoreKeeps(p.store, step);
    OutboxQueues(p.store, step);
    RelayQueues(p.store.db.outbox, S.Do(p.store, step).db.outbox, p.jobs, p.log);
    OrdersStay(p.store.db, S.Do(p.store, step).db);
    KnownStays(p.store.db.orders, S.Do(p.store, step).db.orders, p.kitchen);
  }

  lemma {:induction false} InStoreKeeps(p: SoundPlatform, step: S.Step) returns (q: SoundPlatform)
    requires !step.ConsumerRequest? && !step.Mark?
    ensures q == DoInStore(p, step)
  {
    InStoreRest(p, step);
    if EndsConsuming(p, step) {
      AfterEnding(p, step);
      EndingConsumer(p, step);
      EndingOutcome(p, step);
    } else {
      AfterStep(p, step);
      StepConsumer(p, step);
      StepOutcome(p, step);
    }
    q := DoInStore(p, step);
  }

  // Steps of the relay alone.
  lemma {:induction false} JobsMove(p: SoundPlatform, jobs: map<int, Job>, log: seq<Message>)
    ensures RelayOk(p.store.db.outbox, jobs, log) ==> PlatformOk(p.(jobs := jobs, log := log))
  {}

  lemma {:induction false} MarkMoves(p: SoundPlatform, store: SoundStore, jobs: map<int, Job>)
    requires store.db.orders == p.store.db.orders && store.txs == p.store.txs
    ensures RelayOk(store.db.outbox, jobs, p.log) ==> PlatformOk(p.(store := store, jobs := jobs))
  {}

  // Steps of the consumer that end nothing.
  lemma {:induction false} ConsumerMoves(
    p: SoundPlatform, store: SoundStore, consuming: Option<Underway>, offsets: map<int, nat>)
    requires store.db == p.store.db
    ensures var q := p.(store := store, consuming := consuming, offsets := offsets); ConsumerOk(q) ==> PlatformOk(q)
  {}

  lemma {:induction false} FetchRelay(outbox: seq<OutboxRow>, jobs: map<int, Job>, log: seq<Message>, job: int, i: nat)
    requires i < |outbox| && RelayOk(outbox, jobs, log)
    ensures RelayOk(outbox, jobs[job := Job(outbox[i], false)], log)
  {}

  lemma {:induction false} FetchKeeps(p: SoundPlatform, job: int, i: nat) returns (q: SoundPlatform)
    ensures q == DoFetch(p, job, i)
  {
    q := p;
    if job !in p.jobs && i < |p.store.db.outbox| && !p.store.db.outbox[i].processed {
      var jobs := p.jobs[job := Job(p.store.db.outbox[i], false)];
      FetchRelay(p.store.db.outbox, p.jobs, p.log, job, i);
      JobsMove(p, jobs, p.log);
      q := p.(jobs := jobs);
    }
  }

  lemma {:induction false} DropRelay(outbox: seq<OutboxRow>, jobs: map<int, Job>, log: seq<Message>, job: int)
    requires RelayOk(outbox, jobs, log)
    ensures RelayOk(outbox, jobs - {job}, log)
  {}

  lemma {:induction false} DropKeeps(p: SoundPlatform, job: int) returns (q: SoundPlatform)
    ensures q == p.(jobs := p.jobs - {job})
  {
    DropRelay(p.store.db.outbox, p.jobs, p.log, job);
    JobsMove(p, p.jobs - {job}, p.log);
    q := p.(jobs := p.jobs - {job});
  }

  lemma {:induction false} JobFacts(p: SoundPlatform, job: int)
    ensures job in p.jobs ==> JobOk(p.store.db.outbox, p.log, p.jobs[job])
  {}

  lemma {:induction false} PublishRelay(p: SoundPlatform, job: int, copies: nat, ok: bool)
    requires CanPublish(p, job, copies, ok)
    ensures var q := JobPublished(p, job, copies, ok); RelayOk(p.store.db.outbox, q.jobs, q.log)
  {
    JobFacts(p, job);
    RelayPublishes(p.store.db.outbox, p.jobs, p.log, p.jobs[job], copies);
    DropRelay(p.store.db.outbox, p.jobs, p.log + Repeat(MessageOf(p.jobs[job].row), copies), job);
  }

  lemma {:induction false} PublishKeeps(p: SoundPlatform, job: int, copies: nat, ok: bool) returns (q: SoundPlatform)
    requires CanPublish(p, job, copies, ok)
    ensures q == JobPublished(p, job, copies, ok)
  {
    PublishRelay(p, job, copies, ok);
    JobsMove(p, JobPublished(p, job, copies, ok).jobs, JobPublished(p, job, copies, ok).log);
    q := JobPublished(p, job, copies, ok);
  }

  lemma {:induction false} MarkedRelay(p: SoundPlatform, job: int)
    requires job in p.jobs && p.jobs[job].sent
    ensures RelayOk(MarkRows(p.store.db.outbox, p.jobs[job].row.id), p.jobs - {job}, p.log)
    ensures RelayOk(p.store.db.outbox, p.jobs - {job}, p.log)
  {
    JobFacts(p, job);
    DropRelay(p.store.db.outbox, p.jobs, p.log, job);
    RelayMarks(p.store.db.outbox, p.jobs - {job}, p.log, p.jobs[job]);
  }

  lemma {:induction false} MarkJobKeeps(p: SoundPlatform, job: int, ok: bool) returns (q: SoundPlatform)
    ensures q == DoMarkJob(p, job, ok)
  {
    if job !in p.jobs || !p.jobs[job].sent {
      q := p;
    } else {
      MarkedRelay(p, job);
      var store: SoundStore := p.store;
      if ok {
        store := MarkKeeps(p.store, p.jobs[job].row.id);
      }
      MarkMoves(p, store, p.jobs - {job});
      q := p.(store := store, jobs := p.jobs - {job});
    }
  }

  lemma {:induction false} TopicGrows(k: K.Kitchen, step: K.Step)
    ensures k.topic <= K.Do(k, step).topic
  {}

  lemma {:induction false} StatusesGrow(a: seq<StatusMessage>, b: seq<StatusMessage>, o: int)
    requires a <= b
    ensures StatusesOf(a, o) <= StatusesOf(b, o)
  {
    if |a| < |b| {
      StatusesGrow(a, b[..|b| - 1], o);
    } else {
      assert a == b;
    }
  }

  lemma {:induction false} KitchenConsumer(p: Platform, k: K.Kitchen)
    requires ConsumerOk(p) && p.kitchen.topic <= k.topic
    ensures ConsumerOk(p.(kitchen := k))
  {
    forall o ensures Count(p.offsets, o) <= Count(p.seen, o) <= |StatusesOf(k.topic, o)| {
      StatusesGrow(p.kitchen.topic, k.topic, o);
    }
    if p.consuming.Some? {
      StatusesGrow(p.kitchen.topic, k.topic, p.consuming.value.m.order);
    }
  }

  lemma {:induction false} KitchenSeen(p: Platform, k: K.Kitchen, o: int)
    requires ConsumerOk(p) && p.kitchen.topic <= k.topic
    ensures SeenOf(p.(kitchen := k), o) == SeenOf(p, o)
  {
    StatusesGrow(p.kitchen.topic, k.topic, o);
    assert Count(p.offsets, o) <= Count(p.seen, o) <= |StatusesOf(p.kitchen.topic, o)|;
  }

  lemma {:induction false} KitchenOutcome(p: Platform, k: K.Kitchen)
    requires ConsumerOk(p) && p.kitchen.topic <= k.topic && OutcomeOk(p)
    ensures OutcomeOk(p.(kitchen := k))
  {
    forall o ensures SeenOf(p.(kitchen := k), o) == SeenOf(p, o) {
      KitchenSeen(p, k, o);
    }
  }

  lemma {:induction false} KitchenMoves(p: SoundPlatform, k: K.Kitchen)
    requires p.kitchen.topic <= k.topic
    ensures Known(p.store.db.orders, k) && KitchenRuns.KitchenOk(k) ==> PlatformOk(p.(kitchen := k))
  {
    KitchenConsumer(p, k);
    KitchenOutcome(p, k);
  }

  lemma {:induction false} InKitchenKeeps(p: SoundPlatform, step: K.Step) returns (q: SoundPlatform)
    requires Deliverable(p, step)
    ensures q == p.(kitchen := K.Do(p.kitchen, step))
  {
    if step.ReadOrder? {
      AnnouncedKnown(p.store.db, p.log, OrdersTopic, step.order);
    }
    KnownStep(p.store.db.orders, p.kitchen, step);
    KitchenRuns.StepKeeps(p.kitchen, step);
    TopicGrows(p.kitchen, step);
    KitchenMoves(p, K.Do(p.kitchen, step));
    q := p.(kitchen := K.Do(p.kitchen, step));
  }

  lemma {:induction false} ConsumeConsumer(p: Platform, t: int, order: int)
    requires CanConsume(p, t, order)
    ensures ConsumerOk(p) ==> ConsumerOk(DoConsume(p, t, order))
  {}

  lemma {:induction false} ConsumeStore(p: SoundPlatform, t: int, order: int) returns (store: SoundStore)
    requires CanConsume(p, t, order)
    ensures store == DoConsume(p, t, order).store && store.db == p.store.db
  {
    store := StatusRequestKeeps(p.store, t, order, MessagesOf(p, order)[Count(p.offsets, order)], S.Consumer);
  }

  lemma {:induction false} ConsumeKeeps(p: SoundPlatform, t: int, order: int) returns (q: SoundPlatform)
    ensures q == DoConsume(p, t, order)
  {
    q := p;
    if CanConsume(p, t, order) {
      var store := ConsumeStore(p, t, order);
      ConsumeConsumer(p, t, order);
      ConsumerMoves(p, store, DoConsume(p, t, order).consuming, p.offsets);
      q := DoConsume(p, t, order);
    }
  }

  lemma {:induction false} RewindConsumer(p: Platform, order: int, offset: nat)
    requires ConsumerOk(p)
    ensures ConsumerOk(DoRewind(p, order, offset))
  {
    if offset <= Count(p.offsets, order) {
      forall o ensures Count(p.offsets[order := offset], o) <= Count(p.seen, o) <= |StatusesOf(p.kitchen.topic, o)| {
        assert Count(p.offsets, o) <= Count(p.seen, o) <= |StatusesOf(p.kitchen.topic, o)|;
      }
    }
  }

  lemma {:induction false} RewindKeeps(p: SoundPlatform, order: int, offset: nat) returns (q: SoundPlatform)
    ensures q == DoRewind(p, order, offset)
  {
    RewindConsumer(p, order, offset);
    ConsumerMoves(p, p.store, p.consuming, DoRewind(p, order, offset).offsets);
    q := DoRewind(p, order, offset);
  }

  lemma {:induction false} StepKeeps(p: SoundPlatform, step: Step) returns (q: SoundPlatform)
    ensures q == Do(p, step)
  {
    if step.InStore? && !step.store.ConsumerRequest? && !step.store.Mark? {
      q := InStoreKeeps(p, step.store);
    } else if step.Fetch? {
      q := FetchKeeps(p, step.job, step.i);
    } else if step.PublishJob? && CanPublish(p, step.job, step.copies, step.ok) {
      q := PublishKeeps(p, step.job, step.copies, step.ok);
    } else if step.MarkJob? {
      q := MarkJobKeeps(p, step.job, step.ok);
    } else if step.DropJob? {
      q := DropKeeps(p, step.job);
    } else if step.InKitchen? && Deliverable(p, step.kitchen) {
      q := InKitchenKeeps(p, step.kitchen);
    } else if step.Consume? {
      q := ConsumeKeeps(p, step.t, step.order);
    } else if step.Rewind? {
      q := RewindKeeps(p, step.order, step.offset);
    } else {
      q := p;
    }
  }

  lemma {:induction false} RunKeeps(p: SoundPlatform, steps: seq<Step>) returns (q: SoundPlatform)
    ensures q == Run(p, steps)
  {
    q := p;
    if steps != [] {
      q := RunKeeps(p, steps[..|steps| - 1]);
      q := StepKeeps(q, steps[|steps| - 1]);
    }
  }
}
