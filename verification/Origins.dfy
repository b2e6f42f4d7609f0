/**
 Who asked for what is in the tables: every order was requested by its owner from its restaurant, and every
 transition was asked for by somebody who may.
 */
module Origins {
  import opened Common
  import opened Statuses
  import opened Int64
  import opened Menu
  import opened Pricing
  import opened Text
  import opened Tables
  import opened Store
  import opened Isolation
  import opened StoreRuns

  // The request is for this transaction, and comes from who may ask for it: the owner of the order, or its
  // restaurant; the consumer may ask for anything.
  predicate AsksFor(step: Step, prog: Prog, db: Db) {
    match prog
    case StatusProg(o, target, Client) =>
      && step.CancelRequest? && step.order == o && target == Cancelled
      && o in db.orders && db.orders[o].userId == TrimSpace(step.userId)
    case StatusProg(o, target, Partner) =>
      && step.PartnerRequest? && step.order == o && step.target == target
      && o in db.orders && db.orders[o].restaurantId == step.rid
    case StatusProg(o, target, Consumer) => step.ConsumerRequest? && step.order == o && step.target == target
    case PlaceProg(userId, rid, request, _) =>
      step.PlaceRequest? && step.userId == userId && step.rid == rid && step.request == request
    case UpsertProg(rid, items) => step.UpsertRequest? && step.rid == rid && step.items == items
  }

  ghost predicate Asked(steps: seq<Step>, prog: Prog, db: Db) {
    exists i :: 0 <= i < |steps| && AsksFor(steps[i], prog, db)
  }

  // Where a transaction that runs after the step comes from.
  lemma {:induction false} TxFrom(s: Store, step: Step, t: int)
    requires t in Do(s, step).txs
    ensures t in s.txs ==> Do(s, step).txs[t].prog == s.txs[t].prog
    ensures t !in s.txs ==> AsksFor(step, Do(s, step).txs[t].prog, s.db) && Do(s, step).db == s.db
  {}

  // A status was asked for, by the owner, by the restaurant, or by the consumer.
  ghost predicate StatusAsked(steps: seq<Step>, o: int, target: Status, db: Db) {
    || Asked(steps, StatusProg(o, target, Client), db)
    || Asked(steps, StatusProg(o, target, Partner), db)
    || Asked(steps, StatusProg(o, target, Consumer), db)
  }

  // The order holds what the request asks for, and belongs to whom made it.
  ghost predicate Requested(step: Step, db: Db, o: int)
    requires o in db.orders
  {
    step.PlaceRequest? &&
    var row, items, ids := db.orders[o], ItemsOf(db.items, o), FirstOccurrences(step.request);
    && row.userId == TrimSpace(step.userId) && row.restaurantId == step.rid
    && |items| == |ids|
    && forall k :: 0 <= k < |ids| ==>
         items[k].line.menuItemId == ids[k] && items[k].line.quantity == Wrap(QuantityOf(step.request, ids[k]))
  }

  ghost predicate OrderAsked(steps: seq<Step>, db: Db, o: int)
    requires o in db.orders
  {
    exists i :: 0 <= i < |steps| && Requested(steps[i], db, o)
  }

  ghost predicate EventAsked(steps: seq<Step>, db: Db, e: EventRow) {
    e.oldStatus.Some? ==> StatusAsked(steps, e.orderId, e.newStatus, db)
  }

  ghost predicate AllAsked(steps: seq<Step>, s: Store) {
    && (forall t :: t in s.txs ==> Asked(steps, s.txs[t].prog, s.db))
    && (forall o :: o in s.db.orders ==> OrderAsked(steps, s.db, o))
    && (forall i :: 0 <= i < |s.db.events| ==> EventAsked(steps, s.db, s.db.events[i]))
  }

  /******* Nothing of it is forgotten *******/

  lemma {:induction false} AskedStays(steps: seq<Step>, step: Step, prog: Prog, a: Db, b: Db)
    requires Asked(steps, prog, a) && Evolves(a, b)
    ensures Asked(steps + [step], prog, b)
  {
    var i :| 0 <= i < |steps| && AsksFor(steps[i], prog, a);
    if prog.StatusProg? && prog.order in a.orders {
      assert OrderEvolves(a, b, prog.order);
    }
    assert AsksFor((steps + [step])[i], prog, b);
  }

  lemma {:induction false} OrderAskedStays(steps: seq<Step>, step: Step, o: int, a: Db, b: Db)
    requires o in a.orders && OrderAsked(steps, a, o) && Evolves(a, b)
    ensures o in b.orders && OrderAsked(steps + [step], b, o)
  {
    assert OrderEvolves(a, b, o);
    var i :| 0 <= i < |steps| && Requested(steps[i], a, o);
    assert Requested((steps + [step])[i], b, o);
  }

  lemma {:induction false} EventAskedStays(steps: seq<Step>, step: Step, e: EventRow, a: Db, b: Db)
    requires EventAsked(steps, a, e) && Evolves(a, b)
    ensures EventAsked(steps + [step], b, e)
  {
    if e.oldStatus.Some? {
      if Asked(steps, StatusProg(e.orderId, e.newStatus, Client), a) {
        AskedStays(steps, step, StatusProg(e.orderId, e.newStatus, Client), a, b);
      } else if Asked(steps, StatusProg(e.orderId, e.newStatus, Partner), a) {
        AskedStays(steps, step, StatusProg(e.orderId, e.newStatus, Partner), a, b);
      } else {
        AskedStays(steps, step, StatusProg(e.orderId, e.newStatus, Consumer), a, b);
      }
    }
  }

  /******* What a step adds *******/

  // The trail after a step: as it was, or with one row more, from the transaction that was committed.
  ghost predicate OneEventMore(s: Store, step: Step, b: Store) {
    || b.db.events == s.db.events
    || (step.Commit? && step.t in s.txs &&
        var prog := s.txs[step.t].prog;
        exists e :: b.db.events == s.db.events + [e] &&
          (e.oldStatus == None || (prog.StatusProg? && e.orderId == prog.order && e.newStatus == prog.target)))
  }

  lemma {:induction false} ApplyEvents(db: Db, op: Op) returns (e: EventRow)
    ensures var b := Apply(db, op).0;
      b.events == db.events || (b.events == db.events + [e] && (e.oldStatus == None || (op.StatusOp? && e.orderId == op.order && e.newStatus == op.target)))
  {
    e := EventRow(0, None, Created);
    match op
    case StatusOp(order, target, _, _) =>
      if order in db.orders {
        e := EventRow(order, Some(db.orders[order].status), target);
      }
    case CreateOp(_, _, _, order, _, _, _) => e := EventRow(order, None, Created);
    case _ =>
  }

  lemma {:induction false} OnlyCommitsWrite(s: Store, step: Step)
    requires !step.Commit?
    ensures var b := Do(s, step); b.db.orders == s.db.orders && b.db.events == s.db.events && b.db.items == s.db.items
  {}

  lemma {:induction false} CommitApplies(s: SoundStore, t: int, acked: bool)
    requires t in s.txs && Finishable(s.txs[t])
    ensures DoCommit(s, t, acked).db == Apply(s.db, OpOf(s.txs[t])).0
  {
    TxKnows(s, t);
    CommitIsAtomic(s.db, s.txs[t]);
  }

  lemma {:induction false} EventsAfter(s: SoundStore, step: Step, b: Store)
    requires b == Do(s, step)
    ensures OneEventMore(s, step, b)
  {
    if !step.Commit? {
      OnlyCommitsWrite(s, step);
    } else if step.t in s.txs && Finishable(s.txs[step.t]) {
      CommitApplies(s, step.t, step.acked);
      var e := ApplyEvents(s.db, OpOf(s.txs[step.t]));
      var prog := s.txs[step.t].prog;
      assert b.db.events == s.db.events + [e] ==>
          (e.oldStatus == None || (prog.StatusProg? && e.orderId == prog.order && e.newStatus == prog.target));
    }
  }

  lemma {:induction false} ItemsPlaced(
    db: Db, userId: string, rid: int, quote: Quote, order: int, ids: seq<int>, rowId: int, stamp: int)
    requires |ids| == |quote.lines| && Untouched(db, order)
    ensures ItemsOf(PlaceOrder(db, userId, rid, quote, order, ids, rowId, stamp).items, order) ==
            ItemRows(order, quote.lines, ids)
  {
    PlaceOrderProjects(db, userId, rid, quote, order, ids, rowId, stamp, order);
    assert [] + ItemRows(order, quote.lines, ids) == ItemRows(order, quote.lines, ids);
  }

  lemma {:induction false} PlacedRows(
    db: Db, userId: string, rid: int, request: seq<OrderItemCreate>, order: int, ids: seq<int>, rowId: int, stamp: int)
    returns (quote: Quote, after: Db)
    requires CreateOrder(db, userId, rid, request, order, ids, rowId, stamp).1 == Done
    ensures after == CreateOrder(db, userId, rid, request, order, ids, rowId, stamp).0
    ensures QuoteFor(RestaurantMenu(db.menu, rid), request) == Ok(quote) && |ids| == |quote.lines|
    ensures after == PlaceOrder(db, TrimSpace(userId), rid, quote, order, ids, rowId, stamp)
  {
    after := CreateOrder(db, userId, rid, request, order, ids, rowId, stamp).0;
    quote := QuoteFor(RestaurantMenu(db.menu, rid), request).value;
  }

  lemma {:induction false} PlacedIsRequested(
    db: Db, order: int, ids: seq<int>, rowId: int, stamp: int, step: Step) returns (after: Db)
    requires step.PlaceRequest? && Untouched(db, order)
    requires CreateOrder(db, step.userId, step.rid, step.request, order, ids, rowId, stamp).1 == Done
    ensures after == CreateOrder(db, step.userId, step.rid, step.request, order, ids, rowId, stamp).0
    ensures order in after.orders && Requested(step, after, order)
  {
    var quote;
    quote, after := PlacedRows(db, step.userId, step.rid, step.request, order, ids, rowId, stamp);
    QuoteMeaning(RestaurantMenu(db.menu, step.rid), step.request);
    ItemsPlaced(db, TrimSpace(step.userId), step.rid, quote, order, ids, rowId, stamp);
  }

  // The only operation that adds an order.
  lemma {:induction false} ApplyAdds(db: Db, op: Op, o: int)
    requires o !in db.orders && o in Apply(db, op).0.orders
    ensures op.CreateOp? && o == op.order
  {}

  // What a place transaction amounts to.
  lemma {:induction false} CreateOpOf(tx: Tx)
    requires Finishable(tx) && OpOf(tx).CreateOp?
    ensures tx.prog.PlaceProg?
    ensures var op := OpOf(tx);
      op.userId == tx.prog.userId && op.restaurantId == tx.prog.rid && op.request == tx.prog.request
  {}

  lemma {:induction false} NewOrderFrom(s: SoundStore, t: int, acked: bool, o: int) returns (prog: Prog)
    requires t in s.txs && Finishable(s.txs[t])
    requires o !in s.db.orders && o in DoCommit(s, t, acked).db.orders
    ensures prog == s.txs[t].prog && prog.PlaceProg?
    ensures forall step :: AsksFor(step, prog, s.db) ==> Requested(step, DoCommit(s, t, acked).db, o)
  {
    prog := s.txs[t].prog;
    var op := OpOf(s.txs[t]);
    CommitApplies(s, t, acked);
    ApplyAdds(s.db, op, o);
    CreateOpOf(s.txs[t]);
    assert Untouched(s.db, o);
    forall step | AsksFor(step, prog, s.db) ensures Requested(step, DoCommit(s, t, acked).db, o) {
      if CreateOrder(s.db, step.userId, step.rid, step.request, o, op.itemIds, op.rowId, op.stamp).1 == Done {
        var after := PlacedIsRequested(s.db, o, op.itemIds, op.rowId, op.stamp, step);
      }
    }
  }

  /******* All runs *******/

  lemma {:induction false} TxsStayAsked(steps: seq<Step>, s: SoundStore, step: Step)
    requires AllAsked(steps, s)
    ensures forall t :: t in Do(s, step).txs ==> Asked(steps + [step], Do(s, step).txs[t].prog, Do(s, step).db)
  {
    var b := StepKeeps(s, step);
    forall t | t in b.txs ensures Asked(steps + [step], b.txs[t].prog, b.db) {
      TxFrom(s, step, t);
      if t in s.txs {
        AskedStays(steps, step, s.txs[t].prog, s.db, b.db);
      } else {
        assert AsksFor((steps + [step])[|steps|], b.txs[t].prog, b.db);
      }
    }
  }

  lemma {:induction false} OrdersStayAsked(steps: seq<Step>, s: SoundStore, step: Step, o: int)
    requires AllAsked(steps, s) && o in Do(s, step).db.orders
    ensures OrderAsked(steps + [step], Do(s, step).db, o)
  {
    var b := StepKeeps(s, step);
    if o in s.db.orders {
      OrderAskedStays(steps, step, o, s.db, b.db);
    } else if step.Commit? {
      var prog := NewOrderFrom(s, step.t, step.acked, o);
      assert Asked(steps, prog, s.db);
      var i :| 0 <= i < |steps| && AsksFor(steps[i], prog, s.db);
      assert Requested((steps + [step])[i], b.db, o);
    } else {
      OnlyCommitsWrite(s, step);
    }
  }

  // A row of the trail that the committed transaction has added.
  lemma {:induction false} NewEventAsked(steps: seq<Step>, step: Step, prog: Prog, e: EventRow, a: Db, b: Db)
    requires Asked(steps, prog, a) && Evolves(a, b)
    requires e.oldStatus == None || (prog.StatusProg? && e.orderId == prog.order && e.newStatus == prog.target)
    ensures EventAsked(steps + [step], b, e)
  {
    AskedStays(steps, step, prog, a, b);
    if e.oldStatus.Some? {
      assert prog == StatusProg(e.orderId, e.newStatus, prog.origin);
    }
  }

  lemma {:induction false} EventsStayAsked(steps: seq<Step>, s: SoundStore, step: Step, i: nat)
    requires AllAsked(steps, s) && i < |Do(s, step).db.events|
    ensures EventAsked(steps + [step], Do(s, step).db, Do(s, step).db.events[i])
  {
    var b := StepKeeps(s, step);
    EventsAfter(s, step, b);
    if i < |s.db.events| {
      assert b.db.events[i] == s.db.events[i];
      EventAskedStays(steps, step, s.db.events[i], s.db, b.db);
    } else {
      NewEventAsked(steps, step, s.txs[step.t].prog, b.db.events[i], s.db, b.db);
    }
  }

  lemma {:induction false} StaysAsked(steps: seq<Step>, s: SoundStore, step: Step) returns (b: SoundStore)
    requires AllAsked(steps, s)
    ensures b == Do(s, step) && AllAsked(steps + [step], b)
  {
    b := StepKeeps(s, step);
    TxsStayAsked(steps, s, step);
    forall o | o in b.db.orders ensures OrderAsked(steps + [step], b.db, o) {
      OrdersStayAsked(steps, s, step, o);
    }
    forall i | 0 <= i < |b.db.events| ensures EventAsked(steps + [step], b.db, b.db.events[i]) {
      EventsStayAsked(steps, s, step, i);
    }
  }

  lemma {:induction false} NothingToAsk(restaurants: map<int, bool>) returns (s: SoundStore)
    ensures s == EmptyStore(restaurants) && AllAsked([], s)
  {
    StoreRuns.InitiallyOk(restaurants);
    s := EmptyStore(restaurants);
  }

  lemma {:induction false} RunIsAsked(e: SoundStore, steps: seq<Step>) returns (s: SoundStore)
    requires AllAsked([], e)
    ensures s == Run(e, steps) && AllAsked(steps, s)
  {
    if steps == [] {
      s := e;
    } else {
      var before, last := SplitsOff(steps);
      var a := RunIsAsked(e, before);
      s := StaysAsked(before, a, last);
    }
  }

  lemma {:induction false} EveryRunIsAsked(restaurants: map<int, bool>, steps: seq<Step>) returns (s: SoundStore)
    ensures s == Run(EmptyStore(restaurants), steps) && AllAsked(steps, s)
  {
    var e := NothingToAsk(restaurants);
    s := RunIsAsked(e, steps);
  }

  /* Every stored order was requested by its owner from its restaurant, and holds what that request asks for. */
  lemma {:induction false} OrdersWereRequested(restaurants: map<int, bool>, steps: seq<Step>, o: int)
    requires o in Run(EmptyStore(restaurants), steps).db.orders
    ensures exists i :: 0 <= i < |steps| && Requested(steps[i], Run(EmptyStore(restaurants), steps).db, o)
  {
    var s := EveryRunIsAsked(restaurants, steps);
    assert OrderAsked(steps, s.db, o);
  }

  // The step asks for the order to move to the status: its owner for a cancel, its restaurant, or the topic.
  ghost predicate AskedBy(step: Step, o: int, target: Status, db: Db)
    requires o in db.orders
  {
    match step
    case CancelRequest(_, order, userId) =>
      order == o && target == Cancelled && TrimSpace(userId) == db.orders[o].userId
    case PartnerRequest(_, rid, order, status) => order == o && target == status && rid == db.orders[o].restaurantId
    case ConsumerRequest(_, order, status) => order == o && target == status
    case _ => false
  }

  lemma {:induction false} WhoAsked(steps: seq<Step>, o: int, target: Status, db: Db) returns (i: nat)
    requires o in db.orders && StatusAsked(steps, o, target, db)
    ensures i < |steps| && AskedBy(steps[i], o, target, db)
  {
    if Asked(steps, StatusProg(o, target, Client), db) {
      i :| 0 <= i < |steps| && AsksFor(steps[i], StatusProg(o, target, Client), db);
    } else if Asked(steps, StatusProg(o, target, Partner), db) {
      i :| 0 <= i < |steps| && AsksFor(steps[i], StatusProg(o, target, Partner), db);
    } else {
      i :| 0 <= i < |steps| && AsksFor(steps[i], StatusProg(o, target, Consumer), db);
    }
  }

  lemma {:induction false} EventListed(events: seq<EventRow>, k: nat)
    requires k < |events|
    ensures events[k] in EventsOf(events, events[k].orderId)
  {
    var n := |events| - 1;
    if k < n {
      EventListed(events[..n], k);
    }
  }

  lemma {:induction false} EventComesFrom(events: seq<EventRow>, o: int, l: nat) returns (k: nat)
    requires l < |EventsOf(events, o)|
    ensures k < |events| && events[k] == EventsOf(events, o)[l] && events[k].orderId == o
  {
    var n := |events| - 1;
    if l < |EventsOf(events[..n], o)| {
      k := EventComesFrom(events[..n], o, l);
    } else {
      k := n;
    }
  }

  lemma {:induction false} NoTrailOfOthers(db: Db, o: int)
    requires DbOk(db) && o !in db.orders
    ensures EventsOf(db.events, o) == []
  {
    assert Untouched(db, o);
  }

  // The trail is about stored orders.
  lemma {:induction false} EventsAreKnown(db: Db, k: nat)
    requires DbOk(db) && k < |db.events|
    ensures db.events[k].orderId in db.orders
  {
    EventListed(db.events, k);
    if db.events[k].orderId !in db.orders {
      NoTrailOfOthers(db, db.events[k].orderId);
    }
  }

  /*
   Every transition in the audit trail was asked for: a cancel by the owner of the order, any status by its
   restaurant, or by a message of the status topic.
   */
  lemma {:induction false} TransitionsWereAsked(restaurants: map<int, bool>, steps: seq<Step>, k: nat)
    requires k < |Run(EmptyStore(restaurants), steps).db.events|
    requires Run(EmptyStore(restaurants), steps).db.events[k].oldStatus.Some?
    ensures var db := Run(EmptyStore(restaurants), steps).db;
      db.events[k].orderId in db.orders &&
      exists i :: 0 <= i < |steps| && AskedBy(steps[i], db.events[k].orderId, db.events[k].newStatus, db)
  {
    var s := EveryRunIsAsked(restaurants, steps);
    EventsAreKnown(s.db, k);
    assert EventAsked(steps, s.db, s.db.events[k]);
    var i := WhoAsked(steps, s.db.events[k].orderId, s.db.events[k].newStatus, s.db);
  }

  lemma {:induction false} CancelWasAsked(steps: seq<Step>, s: SoundStore, o: int) returns (i: nat)
    requires AllAsked(steps, s) && o in s.db.orders && s.db.orders[o].status == Cancelled
    ensures i < |steps| && AskedBy(steps[i], o, Cancelled, s.db)
  {
    CancelledWhileEarly(s.db, o);
    var h := EventsOf(s.db.events, o);
    var k := EventComesFrom(s.db.events, o, |h| - 1);
    assert EventAsked(steps, s.db, s.db.events[k]);
    i := WhoAsked(steps, o, Cancelled, s.db);
  }

  // Neither the restaurant nor a message of the status topic asks for a cancel of the order.
  ghost predicate OnlyClientsCancel(steps: seq<Step>, o: int) {
    forall i :: 0 <= i < |steps| ==>
      && !(steps[i].PartnerRequest? && steps[i].order == o && steps[i].target == Cancelled)
      && !(steps[i].ConsumerRequest? && steps[i].order == o && steps[i].target == Cancelled)
  }

  /* Nobody else can cancel an order: unless its restaurant or the topic asked for it, its owner did. */
  lemma {:induction false} CancelledByOwner(restaurants: map<int, bool>, steps: seq<Step>, o: int) returns (i: nat)
    requires var db := Run(EmptyStore(restaurants), steps).db; o in db.orders && db.orders[o].status == Cancelled
    requires OnlyClientsCancel(steps, o)
    ensures i < |steps| && steps[i].CancelRequest? && steps[i].order == o
    ensures TrimSpace(steps[i].userId) == Run(EmptyStore(restaurants), steps).db.orders[o].userId
  {
    var s := EveryRunIsAsked(restaurants, steps);
    i := CancelWasAsked(steps, s, o);
  }
}
