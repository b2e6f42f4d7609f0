/** What single steps of the store do to the orders, to the outbox and to the set of transactions. */
module StoreEffects {
  import opened Common
  import opened Statuses
  import opened Pricing
  import opened Tables
  import opened Store
  import opened Isolation
  import opened StoreRuns

  // Only a commit changes a row of orders.
  lemma {:induction false} OrdersChangeByCommit(s: Store, step: Step)
    requires !step.Commit?
    ensures Do(s, step).db.orders == s.db.orders
  {}

  // The orders before and after tx has committed.
  ghost predicate OrdersAfter(a: map<int, OrderRow>, tx: Tx, b: map<int, OrderRow>) {
    match tx.prog
    case StatusProg(o, target, origin) =>
      && o in a && (a[o].status == target || CanTransition(a[o].status, target))
      && b == a[o := a[o].(status := target)]
      && (origin == Client ==> target == Cancelled)
    case PlaceProg(_, _, _, _) =>
      && GotOrder(tx.pc) && tx.pc.newOrder !in a
      && b == a[tx.pc.newOrder := NewOrderRow(tx.prog)]
    case UpsertProg(_, _) => b == a
  }

  lemma {:induction false} StatusInstalls(db: Db, tx: Tx)
    requires tx.prog.StatusProg? && StatusOk(db, tx) && Finishable(tx)
    ensures OrdersAfter(db.orders, tx, Install(db, tx.writes).orders)
  {
    var o := tx.prog.order;
    assert db.orders[o].(status := db.orders[o].status) == db.orders[o];
  }

  lemma {:induction false} PlaceInstallsOrder(db: Db, tx: Tx)
    requires tx.prog.PlaceProg? && PlaceOk(db, tx) && Finishable(tx)
    ensures OrdersAfter(db.orders, tx, Install(db, tx.writes).orders)
  {
    assert InsertedOk(db, tx);
  }

  lemma {:induction false} CommitOnOrders(s: SoundStore, t: int, acked: bool)
    requires t in s.txs && Finishable(s.txs[t])
    ensures OrdersAfter(s.db.orders, s.txs[t], DoCommit(s, t, acked).db.orders)
  {
    TxKnows(s, t);
    if s.txs[t].prog.StatusProg? {
      StatusInstalls(s.db, s.txs[t]);
    } else if s.txs[t].prog.PlaceProg? {
      PlaceInstallsOrder(s.db, s.txs[t]);
    }
  }

  // Committed rows are never changed by a commit, and what it adds is unprocessed.
  ghost predicate Queues(a: seq<OutboxRow>, b: seq<OutboxRow>) {
    && a <= b
    && (forall i :: |a| <= i < |b| ==> !b[i].processed)
  }

  lemma {:induction false} CommitQueues(s: SoundStore, t: int, acked: bool)
    requires t in s.txs && Finishable(s.txs[t])
    ensures Queues(s.db.outbox, DoCommit(s, t, acked).db.outbox)
  {
    TxKnows(s, t);
    var tx := s.txs[t];
    forall i | 0 <= i < |tx.writes.outbox| ensures !tx.writes.outbox[i].processed {
      if tx.prog.PlaceProg? {
        assert InsertedOk(s.db, tx);
      }
    }
  }

  lemma {:induction false} OutboxQueues(s: SoundStore, step: Step)
    requires !step.Mark?
    ensures Queues(s.db.outbox, Do(s, step).db.outbox)
  {
    if step.Commit? && step.t in s.txs && Finishable(s.txs[step.t]) {
      CommitQueues(s, step.t, step.acked);
    } else {
      assert Do(s, step).db == s.db;
    }
  }

  // Where a status transaction that runs after the step comes from.
  lemma {:induction false} StatusTxFrom(s: Store, step: Step, u: int)
    requires u in Do(s, step).txs && Do(s, step).txs[u].prog.StatusProg?
    ensures u in s.txs ==> Do(s, step).txs[u].prog == s.txs[u].prog
    ensures u !in s.txs ==>
      match Do(s, step).txs[u].prog.origin
      case Client => step.CancelRequest?
      case Partner => step.PartnerRequest? && step.order == Do(s, step).txs[u].prog.order
      case Consumer => step == ConsumerRequest(u, Do(s, step).txs[u].prog.order, Do(s, step).txs[u].prog.target)
  {}

  // An answer of UpdateOrderStatus that changes nothing: no such order, or no such transition.
  ghost predicate Refused(orders: map<int, OrderRow>, order: int, target: Status) {
    order in orders ==> orders[order].status != target && !CanTransition(orders[order].status, target)
  }

  lemma {:induction false} StatusTxStays(s: Store, step: Step, t: int)
    requires t in s.txs && s.txs[t].prog.StatusProg?
    requires !step.Commit? && !step.Abort? && !step.LockOrder? && !step.Refuse?
    ensures t in Do(s, step).txs
  {}

  lemma {:induction false} LockEnds(s: Store, t: int, u: int)
    requires t in s.txs && t !in DoLockOrder(s, u).txs
    ensures DoLockOrder(s, u).db == s.db && s.txs[t].prog.StatusProg? && s.txs[t].prog.order !in s.db.orders
  {}

  lemma {:induction false} RefuseEnds(s: SoundStore, t: int, u: int)
    requires t in s.txs && t !in DoRefuse(s, u).txs
    ensures DoRefuse(s, u).db == s.db && s.txs[t].prog.StatusProg?
    ensures Refused(s.db.orders, s.txs[t].prog.order, s.txs[t].prog.target)
  {
    TxKnows(s, t);
  }

  lemma {:induction false} CommitEnds(s: Store, t: int, u: int, acked: bool)
    requires t in s.txs && t !in DoCommit(s, u, acked).txs
    ensures u == t && Finishable(s.txs[t])
  {}

  lemma {:induction false} AbortEnds(s: Store, t: int, u: int)
    requires t in s.txs && t !in DoAbort(s, u).txs
    ensures u == t
  {}

  // How a status transaction can end: by an abort, by a commit, or by an answer that changes nothing.
  ghost predicate Ended(s: Store, step: Step, t: int)
    requires t in s.txs && s.txs[t].prog.StatusProg?
  {
    || step == Abort(t)
    || (step.Commit? && step.t == t && Finishable(s.txs[t]))
    || (!step.Commit? && Refused(s.db.orders, s.txs[t].prog.order, s.txs[t].prog.target))
  }

  lemma {:induction false} StatusTxEnds(s: SoundStore, step: Step, t: int)
    requires t in s.txs && s.txs[t].prog.StatusProg? && t !in Do(s, step).txs
    ensures Ended(s, step, t)
  {
    if step.LockOrder? {
      LockEnds(s, t, step.t);
    } else if step.Refuse? {
      RefuseEnds(s, t, step.t);
    } else if step.Commit? {
      CommitEnds(s, t, step.t, step.acked);
    } else if step.Abort? {
      AbortEnds(s, t, step.t);
    } else {
      StatusTxStays(s, step, t);
    }
  }
}
