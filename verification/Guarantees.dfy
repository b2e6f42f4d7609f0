/** What every run of the platform guarantees, started with any restaurants and nothing else. */
module Guarantees {
  import opened Common
  import opened Int64
  import opened Pricing
  import opened Statuses
  import opened StatusTopic
  import opened Tables
  import opened Platform
  import opened PlatformRuns
  import S = Store
  import StoreRuns

  /******* Status of an order, end to end *******/

  ghost predicate CancelCommitted(db: Db, o: int) {
    exists i :: 0 <= i < |EventsOf(db.events, o)| && EventsOf(db.events, o)[i].newStatus == Cancelled
  }

  lemma {:induction false} CancelledIff(db: Db, o: int)
    requires DbOk(db) && o in db.orders
    ensures db.orders[o].status == Cancelled <==> CancelCommitted(db, o)
  {
    assert OrderOk(db, o);
    var h := EventsOf(db.events, o);
    if CancelCommitted(db, o) {
      var i :| 0 <= i < |h| && h[i].newStatus == Cancelled;
      if i < |h| - 1 {
        HistoryClimbs(HistoryOf(h), i, |h| - 1);
      }
    }
  }

  lemma {:induction false} FurthestIsNotCancelled(s: seq<Status>)
    ensures KitchenStatus(Furthest(s)) != Cancelled
  {}

  // A committed cancel found the order created or accepted.
  ghost predicate CancelledEarly(db: Db, o: int) {
    var h := EventsOf(db.events, o);
    |h| >= 2 && (h[|h| - 1].oldStatus == Some(Created) || h[|h| - 1].oldStatus == Some(Accepted))
  }

  /*
   The status of o: cancelled if a cancel was committed; otherwise the last status of the longest pipeline
   prefix consumed so far, or of a shorter one if the consumer dropped an update of o.
   */
  ghost predicate EndsRight(p: Platform, o: int)
    requires o in p.store.db.orders
  {
    var db, status, furthest := p.store.db, p.store.db.orders[o].status, Furthest(SeenOf(p, o));
    && (CancelCommitted(db, o) ==> status == Cancelled && CancelledEarly(db, o))
    && (!CancelCommitted(db, o) && o !in p.lost ==> status == KitchenStatus(furthest))
    && (!CancelCommitted(db, o) && o in p.lost ==> status == KitchenStatus(Rank(status)) && Rank(status) <= furthest)
  }

  lemma {:induction false} SoundEndsRight(p: SoundPlatform, o: int)
    ensures o in p.store.db.orders && o !in p.partnered ==> EndsRight(p, o)
  {
    if o in p.store.db.orders && o !in p.partnered {
      WasSettled(p, o);
      CancelledIff(p.store.db, o);
      FurthestIsNotCancelled(SeenOf(p, o));
      if CancelCommitted(p.store.db, o) {
        CancelledWhileEarly(p.store.db, o);
      }
    }
  }

  /*
   In every run, with duplicates, failed publishes, restarts and rewinds everywhere, and the partitions of
   the status topic read in any order: unless a partner tried to move it, an order ends right.
   */
  lemma {:induction false} EndToEnd(restaurants: map<int, bool>, steps: seq<Step>, o: int)
    requires o in Run(Fresh(restaurants), steps).store.db.orders && o !in Run(Fresh(restaurants), steps).partnered
    ensures EndsRight(Run(Fresh(restaurants), steps), o)
  {
    FreshOk(restaurants);
    var p := RunKeeps(Fresh(restaurants), steps);
    SoundEndsRight(p, o);
  }

  /******* The relay *******/

  // What a message says is what the tables say.
  ghost predicate IsTrue(db: Db, m: Message) {
    && m.key in db.orders
    && var row := db.orders[m.key];
       match m.topic
       case OrdersTopic =>
         m.payload == CreatedPayload(m.key, row.restaurantId, row.totalCents, ItemsOf(db.items, m.key))
       case CancelTopic =>
         row.status == Cancelled && m.payload == CancelledPayload(m.key, row.restaurantId, Cancelled)
  }

  // What the relay has done so far, column by column.
  ghost predicate RelayedRight(p: Platform) {
    && (forall i :: 0 <= i < |p.store.db.outbox| && p.store.db.outbox[i].processed ==>
          var row := p.store.db.outbox[i]; Message(row.topic, row.key, row.payload) in p.log)
    && (forall m :: m in p.log ==> IsTrue(p.store.db, m))
    && (forall m :: m in p.log ==> exists i :: 0 <= i < |p.store.db.outbox| && Tells(m, p.store.db.outbox[i]))
  }

  lemma {:induction false} ListedIsTrue(db: Db, i: nat)
    requires DbOk(db) && i < |db.outbox|
    ensures IsTrue(db, Message(db.outbox[i].topic, db.outbox[i].key, db.outbox[i].payload))
  {
    RowKnown(db, i);
    PayloadListed(db.outbox, i);
    assert OrderOk(db, db.outbox[i].key);
  }

  lemma {:induction false} LogKnown(p: SoundPlatform, m: Message) returns (i: nat)
    requires m in p.log
    ensures i < |p.store.db.outbox| && IsTrue(p.store.db, m) && Tells(m, p.store.db.outbox[i])
  {
    assert Backed(p.store.db.outbox, m);
    i :| 0 <= i < |p.store.db.outbox| && MessageOf(p.store.db.outbox[i]) == m;
    ListedIsTrue(p.store.db, i);
  }

  lemma {:induction false} SoundRelays(p: SoundPlatform)
    ensures RelayedRight(p)
  {
    forall m | m in p.log
      ensures IsTrue(p.store.db, m)
      ensures exists i :: 0 <= i < |p.store.db.outbox| && Tells(m, p.store.db.outbox[i])
    {
      var i := LogKnown(p, m);
    }
  }

  /*
   A processed row was published, and every published message is a committed row about a stored order and says
   what the tables say about it.
   */
  lemma {:induction false} AtLeastOnce(restaurants: map<int, bool>, steps: seq<Step>)
    ensures RelayedRight(Run(Fresh(restaurants), steps))
  {
    FreshOk(restaurants);
    var p := RunKeeps(Fresh(restaurants), steps);
    SoundRelays(p);
  }

  /******* The platform runs the store *******/

  // The step of the store that a step of the platform takes, if it takes one.
  function StoreStepOf(p: Platform, step: Step): Option<S.Step> {
    match step
    case InStore(st) => if st.ConsumerRequest? || st.Mark? then None else Some(st)
    case MarkJob(job, ok) =>
      if job in p.jobs && p.jobs[job].sent && ok then Some(S.Mark(p.jobs[job].row.id)) else None
    case Consume(t, order) =>
      if CanConsume(p, t, order) then Some(S.ConsumerRequest(t, order, MessagesOf(p, order)[Count(p.offsets, order)]))
      else None
    case _ => None
  }

  lemma {:induction false} TakesStoreStep(p: Platform, step: Step)
    ensures Do(p, step).store ==
            match StoreStepOf(p, step)
            case None => p.store
            case Some(st) => S.Do(p.store, st)
  {}

  lemma {:induction false} StoreRunOf(p: Platform, steps: seq<Step>) returns (of: seq<S.Step>)
    ensures Run(p, steps).store == S.Run(p.store, of)
  {
    if steps == [] {
      of := [];
    } else {
      var n := |steps| - 1;
      of := StoreRunOf(p, steps[..n]);
      var q := Run(p, steps[..n]);
      TakesStoreStep(q, steps[n]);
      match StoreStepOf(q, steps[n])
      case None =>
      case Some(st) =>
        S.RunOneMore(p.store, of, st);
        of := of + [st];
    }
  }

  /*
   No lost update and no partial transaction: the committed tables of every run are those of the logged
   atomic operations run one after the other, and the answers are the answers of that serial run.
   */
  lemma {:induction false} EveryRunIsSerial(restaurants: map<int, bool>, steps: seq<Step>)
    ensures var s, start := Run(Fresh(restaurants), steps).store, Fresh(restaurants).store.db;
      Replay(start, s.log) == s.db && AnswersReplay(start, s.log)
  {
    FreshOk(restaurants);
    var of := StoreRunOf(Fresh(restaurants), steps);
    StoreRuns.EveryRunIsSerial(Fresh(restaurants).store, of);
  }

  lemma {:induction false} GrowsOn(a: seq<OutboxRow>, b: seq<OutboxRow>, c: seq<OutboxRow>)
    requires OutboxGrows(a, b) && OutboxGrows(b, c)
    ensures OutboxGrows(a, c)
  {}

  lemma {:induction false} StepGrows(p: SoundPlatform, step: Step)
    ensures OutboxGrows(p.store.db.outbox, Do(p, step).store.db.outbox)
  {
    TakesStoreStep(p, step);
    if StoreStepOf(p, step).Some? {
      StoreKeeps(p.store, StoreStepOf(p, step).value);
    }
  }

  /* Rows are never lost and processed never reverts. */
  lemma {:induction false} NothingIsLost(p: SoundPlatform, steps: seq<Step>)
    ensures OutboxGrows(p.store.db.outbox, Run(p, steps).store.db.outbox)
  {
    if steps != [] {
      var n := |steps| - 1;
      NothingIsLost(p, steps[..n]);
      var q := RunKeeps(p, steps[..n]);
      StepGrows(q, steps[n]);
      GrowsOn(p.store.db.outbox, q.store.db.outbox, Run(p, steps).store.db.outbox);
    }
  }

  /******* What the tables say about one order, in every run of the store *******/

  lemma {:induction false} ReachableOk(restaurants: map<int, bool>, steps: seq<S.Step>)
    ensures DbOk(S.Run(StoreRuns.EmptyStore(restaurants), steps).db)
  {
    StoreRuns.InitiallyOk(restaurants);
    StoreRuns.RunKeeps(StoreRuns.EmptyStore(restaurants), steps);
  }

  /*
   Whatever statuses arrive from clients, partners and the topic, known or not: the audit trail of an
   order is a legal history from created to its status, so it is one of the eight there are: it makes at
   most four transitions, visits no status twice, and never both cooks and is cancelled.
   */
  lemma {:induction false} AuditInEveryRun(restaurants: map<int, bool>, steps: seq<S.Step>, o: int)
    requires o in S.Run(StoreRuns.EmptyStore(restaurants), steps).db.orders
    ensures var db := S.Run(StoreRuns.EmptyStore(restaurants), steps).db;
      var h := HistoryOf(EventsOf(db.events, o));
      && AuditOk(EventsOf(db.events, o), db.orders[o].status)
      && LegalHistory(h) && 0 < |h| <= 5 && h[0] == Created
      && (|| h <= [Created, Accepted, Cooking, Ready, Completed]
          || h == [Created, Rejected] || h == [Created, Cancelled] || h == [Created, Accepted, Cancelled])
      && (forall i, j :: 0 <= i < j < |h| ==> h[i] != h[j])
      && !(Cooking in h && Cancelled in h)
  {
    ReachableOk(restaurants, steps);
    var db := S.Run(StoreRuns.EmptyStore(restaurants), steps).db;
    assert OrderOk(db, o);
    AuditTrailReplays(db, o);
    LegalHistoryIff(HistoryOf(EventsOf(db.events, o)));
  }

  // Exactly one created row, which repeats what is stored, and one cancel row exactly for a cancelled order.
  ghost predicate OutboxTells(db: Db, o: int)
    requires o in db.orders
  {
    var row, created := db.orders[o], PayloadsOf(db.outbox, OrdersTopic, o);
    && created == [CreatedPayload(o, row.restaurantId, row.totalCents, ItemsOf(db.items, o))]
    && |PayloadsOf(db.outbox, CancelTopic, o)| == if row.status == Cancelled then 1 else 0
  }

  /* Outbox and orders agree after any number of concurrent or repeated cancels, and totals are sums. */
  lemma {:induction false} OutboxAgreesInEveryRun(restaurants: map<int, bool>, steps: seq<S.Step>, o: int)
    requires o in S.Run(StoreRuns.EmptyStore(restaurants), steps).db.orders
    ensures var db := S.Run(StoreRuns.EmptyStore(restaurants), steps).db;
      OutboxTells(db, o) && db.orders[o].totalCents == Wrap(LineTotal(LinesOf(ItemsOf(db.items, o))))
  {
    ReachableOk(restaurants, steps);
    assert OrderOk(S.Run(StoreRuns.EmptyStore(restaurants), steps).db, o);
  }
}
