/** Transactions that have the locks they need can always finish, whatever all others do or hold. */
module Progress {
  import opened Common
  import opened Statuses
  import opened Pricing
  import opened Tables
  import opened Store
  import opened StoreRuns
  import opened Isolation

  // A status transaction beyond its SELECT ... FOR UPDATE.
  predicate HasLock(s: Store, t: int) {
    StatusAt(s, t) && !s.txs[t].pc.Begun?
  }

  // The statements that are left before the transaction ends.
  function StatementsLeft(tx: Tx): nat {
    if Finishable(tx) || Refusable(tx) then 0
    else if tx.pc.Locked? then 3
    else if tx.pc.RowWritten? then 2
    else 1
  }

  // b is what the transaction makes of a.
  ghost predicate Amounts(a: Db, prog: Prog, b: Db) {
    prog.StatusProg? && exists rowId, stamp :: b == SetStatus(a, prog.order, prog.target, rowId, stamp).0
  }

  lemma {:induction false} CommitAmounts(s: SoundStore, t: int)
    requires HasLock(s, t) && Finishable(s.txs[t])
    ensures t !in DoCommit(s, t, true).txs && Amounts(s.db, s.txs[t].prog, DoCommit(s, t, true).db)
  {
    TxKnows(s, t);
    StatusCommitIsAtomic(s.db, s.txs[t]);
    var StatusOp(order, target, rowId, stamp) := OpOf(s.txs[t]);
    assert DoCommit(s, t, true).db == SetStatus(s.db, order, target, rowId, stamp).0;
  }

  lemma {:induction false} RefuseAmounts(s: SoundStore, t: int)
    requires HasLock(s, t) && Refusable(s.txs[t])
    ensures t !in DoRefuse(s, t).txs && Amounts(s.db, s.txs[t].prog, DoRefuse(s, t).db)
  {
    TxKnows(s, t);
    var prog := s.txs[t].prog;
    assert s.db == SetStatus(s.db, prog.order, prog.target, 0, 0).0;
  }

  // A statement was executed: nothing is committed and less is left to do.
  ghost predicate OneLess(a: Store, b: Store, t: int)
    requires HasLock(a, t)
  {
    && HasLock(b, t) && b.db == a.db && b.txs[t].prog == a.txs[t].prog
    && StatementsLeft(b.txs[t]) < StatementsLeft(a.txs[t])
  }

  // tx' is a later stage of the same transaction.
  predicate Later(tx: Tx, tx': Tx) {
    tx.prog.StatusProg? && tx'.prog == tx.prog && !tx'.pc.Begun? && StatementsLeft(tx') < StatementsLeft(tx)
  }

  lemma {:induction false} MoveIsOneLess(s: Store, t: int, tx': Tx, ids: set<int>) returns (b: Store)
    requires HasLock(s, t) && Later(s.txs[t], tx')
    ensures b == Move(s, t, tx', ids) && OneLess(s, b, t)
  {
    b := Move(s, t, tx', ids);
  }

  lemma {:induction false} WrittenIsLater(db: Db, tx: Tx)
    requires tx.prog.StatusProg? && StatusOk(db, tx) && tx.pc.Locked? && !Finishable(tx) && !Refusable(tx)
    ensures CanTransition(tx.pc.old_, tx.prog.target) && Later(tx, StatusWritten(db, tx))
  {}

  lemma {:induction false} RecordedIsLater(tx: Tx)
    requires tx.prog.StatusProg? && tx.pc.RowWritten?
    ensures Later(tx, StatusRecorded(tx))
  {}

  lemma {:induction false} QueuedIsLater(db: Db, tx: Tx, rowId: int)
    requires tx.prog.StatusProg? && StatusOk(db, tx) && tx.pc.Recorded? && !Finishable(tx)
    ensures tx.prog.order in tx.writes.orders && Later(tx, CancelQueued(tx, rowId, 0))
  {}

  lemma {:induction false} WriteGoesOn(s: SoundStore, t: int) returns (b: Store)
    requires HasLock(s, t) && s.txs[t].pc.Locked? && !Finishable(s.txs[t]) && !Refusable(s.txs[t])
    ensures CanWriteStatus(s, t) && b == Move(s, t, StatusWritten(s.db, s.txs[t]), {}) && OneLess(s, b, t)
  {
    TxKnows(s, t);
    WrittenIsLater(s.db, s.txs[t]);
    b := MoveIsOneLess(s, t, StatusWritten(s.db, s.txs[t]), {});
  }

  lemma {:induction false} RecordGoesOn(s: Store, t: int) returns (b: Store)
    requires HasLock(s, t) && s.txs[t].pc.RowWritten?
    ensures CanRecordStatus(s, t) && b == Move(s, t, StatusRecorded(s.txs[t]), {}) && OneLess(s, b, t)
  {
    RecordedIsLater(s.txs[t]);
    b := MoveIsOneLess(s, t, StatusRecorded(s.txs[t]), {});
  }

  lemma {:induction false} QueueGoesOn(s: SoundStore, t: int, rowId: int) returns (b: Store)
    requires HasLock(s, t) && s.txs[t].pc.Recorded? && !Finishable(s.txs[t]) && rowId !in s.used
    ensures CanQueueCancel(s, t, rowId) && b == Move(s, t, CancelQueued(s.txs[t], rowId, 0), {rowId}) && OneLess(s, b, t)
  {
    TxKnows(s, t);
    QueuedIsLater(s.db, s.txs[t], rowId);
    b := MoveIsOneLess(s, t, CancelQueued(s.txs[t], rowId, 0), {rowId});
  }

  lemma {:induction false} HasStatement(s: SoundStore, t: int)
    requires HasLock(s, t)
    ensures var pc := s.txs[t].pc; Finishable(s.txs[t]) || pc.Locked? || pc.RowWritten? || pc.Recorded?
  {
    TxKnows(s, t);
  }

  // It ends the transaction, or leaves less to do.
  ghost predicate Helps(a: Store, b: Store, t: int)
    requires HasLock(a, t)
  {
    (t !in b.txs && Amounts(a.db, a.txs[t].prog, b.db)) || OneLess(a, b, t)
  }

  // A statement of transaction t, or its end by a commit or an answer.
  predicate Moves(step: Step, t: int) {
    !IsRequest(step) && !step.Mark? && !step.Abort? && step.t == t
  }

  // steps goes on from before with steps of t alone.
  ghost predicate Alone(before: seq<Step>, steps: seq<Step>, t: int) {
    before <= steps && forall i :: |before| <= i < |steps| ==> Moves(steps[i], t)
  }

  lemma {:induction false} AloneOneMore(before: seq<Step>, next: Step, steps: seq<Step>, t: int)
    requires Moves(next, t) && Alone(before + [next], steps, t)
    ensures Alone(before, steps, t)
  {
    forall i | |before| <= i < |steps| ensures Moves(steps[i], t) {
      assert steps[|before|] == (before + [next])[|before|];
    }
  }

  lemma {:induction false} CommitIsEnabled(s: SoundStore, t: int) returns (next: Step, b: Store)
    requires HasLock(s, t) && Finishable(s.txs[t])
    ensures b == Do(s, next) && Helps(s, b, t) && Moves(next, t)
  {
    EndSteps(s, t);
    CommitAmounts(s, t);
    next, b := Commit(t, true), DoCommit(s, t, true);
  }

  lemma {:induction false} RefusalIsEnabled(s: SoundStore, t: int) returns (next: Step, b: Store)
    requires HasLock(s, t) && Refusable(s.txs[t])
    ensures b == Do(s, next) && Helps(s, b, t) && Moves(next, t)
  {
    EndSteps(s, t);
    RefuseAmounts(s, t);
    next, b := Refuse(t), DoRefuse(s, t);
  }

  lemma {:induction false} WriteIsEnabled(s: SoundStore, t: int) returns (next: Step, b: Store)
    requires HasLock(s, t) && s.txs[t].pc.Locked? && !Finishable(s.txs[t]) && !Refusable(s.txs[t])
    ensures b == Do(s, next) && OneLess(s, b, t) && Moves(next, t)
  {
    b := WriteGoesOn(s, t);
    next := WriteStatus(t);
    StatusSteps(s, t);
  }

  lemma {:induction false} RecordingIsEnabled(s: SoundStore, t: int) returns (next: Step, b: Store)
    requires HasLock(s, t) && s.txs[t].pc.RowWritten?
    ensures b == Do(s, next) && OneLess(s, b, t) && Moves(next, t)
  {
    b := RecordGoesOn(s, t);
    next := RecordStatus(t);
    StatusSteps(s, t);
  }

  lemma {:induction false} QueueNext(s: SoundStore, t: int, rowId: int) returns (b: Store)
    requires HasLock(s, t) && s.txs[t].pc.Recorded? && !Finishable(s.txs[t]) && rowId !in s.used
    ensures b == Do(s, QueueCancel(t, rowId, 0)) && OneLess(s, b, t)
  {
    b := QueueGoesOn(s, t, rowId);
    QueueStep(s, t, rowId);
  }

  lemma {:induction false} QueueMoves(t: int, rowId: int)
    ensures Moves(QueueCancel(t, rowId, 0), t)
  {}

  lemma {:induction false} QueueIsEnabled(s: SoundStore, t: int, rowId: int) returns (next: Step, b: Store)
    requires HasLock(s, t) && s.txs[t].pc.Recorded? && !Finishable(s.txs[t]) && rowId !in s.used
    ensures b == Do(s, next) && OneLess(s, b, t) && Moves(next, t)
  {
    next := QueueCancel(t, rowId, 0);
    b := QueueNext(s, t, rowId);
    QueueMoves(t, rowId);
  }

  lemma {:induction false} StatementIsEnabled(s: SoundStore, t: int, rowId: int) returns (next: Step, b: Store)
    requires HasLock(s, t) && rowId !in s.used && !Finishable(s.txs[t]) && !Refusable(s.txs[t])
    ensures b == Do(s, next) && OneLess(s, b, t) && Moves(next, t)
  {
    HasStatement(s, t);
    if s.txs[t].pc.Locked? {
      next, b := WriteIsEnabled(s, t);
    } else if s.txs[t].pc.RowWritten? {
      next, b := RecordingIsEnabled(s, t);
    } else {
      next, b := QueueIsEnabled(s, t, rowId);
    }
  }

  /* Some statement of such a transaction is never blocked. */
  lemma {:induction false} NextIsEnabled(s: SoundStore, t: int, rowId: int) returns (next: Step, b: Store)
    requires HasLock(s, t) && rowId !in s.used
    ensures b == Do(s, next) && Helps(s, b, t) && Moves(next, t)
  {
    if Finishable(s.txs[t]) {
      next, b := CommitIsEnabled(s, t);
    } else if Refusable(s.txs[t]) {
      next, b := RefusalIsEnabled(s, t);
    } else {
      next, b := StatementIsEnabled(s, t, rowId);
    }
  }

  lemma {:induction false} UnusedId(used: set<int>) returns (i: int)
    ensures i !in used && i > 0
  {
    i := Above(used + {0});
  }

  lemma {:induction false} Above(ids: set<int>) returns (i: int)
    ensures forall j :: j in ids ==> j < i
    decreases |ids|
  {
    i := 0;
    if ids != {} {
      var x := Member(ids);
      i := Above(ids - {x});
      assert forall j :: j in ids ==> j == x || j in ids - {x};
      if i <= x {
        i := x + 1;
      }
    }
  }

  // One more statement of t, whatever was done before.
  lemma {:induction false} OneStatementMore(s: SoundStore, before: seq<Step>, t: int) returns (next: Step)
    requires HasLock(Run(s, before), t)
    ensures Moves(next, t) && Helps(Run(s, before), Run(s, before + [next]), t)
  {
    RunKeeps(s, before);
    var now: SoundStore := Run(s, before);
    var rowId := UnusedId(now.used);
    var b;
    next, b := NextIsEnabled(now, t, rowId);
    RunOneMore(s, before, next);
  }

  /*
   No deadlock among status updates: from every reachable state, a status transaction that has its lock
   can be run to its end without any other transaction moving, and then has the effect of the atomic
   operation on the tables as they are.
   */
  lemma {:induction false} LockedCanFinish(s: SoundStore, before: seq<Step>, t: int) returns (steps: seq<Step>)
    requires HasLock(Run(s, before), t)
    ensures Alone(before, steps, t)
    ensures t !in Run(s, steps).txs && Amounts(Run(s, before).db, Run(s, before).txs[t].prog, Run(s, steps).db)
    decreases StatementsLeft(Run(s, before).txs[t])
  {
    var next := OneStatementMore(s, before, t);
    steps := before + [next];
    if t in Run(s, steps).txs {
      steps := LockedCanFinish(s, steps, t);
      AloneOneMore(before, next, steps, t);
    }
  }

  /******* From the request on *******/

  lemma {:induction false} MovesLeaveOthers(s: Store, step: Step, t: int, u: int)
    requires Moves(step, t) && u != t
    ensures u in Do(s, step).txs <==> u in s.txs
    ensures u in s.txs ==> Do(s, step).txs[u] == s.txs[u]
  {}

  lemma {:induction false} GoneDoesNothing(s: Store, step: Step, t: int)
    requires Moves(step, t) && t !in s.txs
    ensures Do(s, step) == s
  {}

  // The other transactions are as they were.
  ghost predicate OthersAlike(a: Store, b: Store, t: int) {
    forall u :: u != t ==> (u in b.txs <==> u in a.txs) && (u in a.txs ==> b.txs[u] == a.txs[u])
  }

  lemma {:induction false} AloneLeavesOthers(s: Store, steps: seq<Step>, t: int)
    requires Alone([], steps, t)
    ensures OthersAlike(s, Run(s, steps), t)
  {
    if steps != [] {
      var before, last := SplitsOff(steps);
      AloneLeavesOthers(s, before, t);
      forall u | u != t
        ensures u in Run(s, steps).txs <==> u in s.txs
        ensures u in s.txs ==> Run(s, steps).txs[u] == s.txs[u]
      {
        MovesLeaveOthers(Run(s, before), last, t, u);
      }
    }
  }

  // A status transaction that waits for its row, which nobody holds, or which is not there.
  ghost predicate CanLock(s: Store, t: int) {
    StatusAt(s, t) && s.txs[t].pc.Begun? &&
    (s.txs[t].prog.order in s.db.orders ==> FreeToOwn(s, t, OrderLock(s.txs[t].prog.order)))
  }

  lemma {:induction false} LocksOrEnds(s: Store, t: int)
    requires CanLock(s, t)
    ensures var b := Do(s, LockOrder(t));
      b.db == s.db && if s.txs[t].prog.order in s.db.orders then HasLock(b, t) && b.txs[t].prog == s.txs[t].prog else t !in b.txs
  {}

  lemma {:induction false} MissingAmounts(db: Db, prog: Prog)
    requires prog.StatusProg? && prog.order !in db.orders
    ensures Amounts(db, prog, db)
  {
    assert db == SetStatus(db, prog.order, prog.target, 0, 0).0;
  }

  /* A status update can run from its start to its end without anybody else moving, as soon as its row is free. */
  lemma {:induction false} StatusCanFinish(s: SoundStore, t: int) returns (steps: seq<Step>)
    requires CanLock(s, t)
    ensures Alone([], steps, t)
    ensures t !in Run(s, steps).txs && Amounts(s.db, s.txs[t].prog, Run(s, steps).db)
    ensures OthersAlike(s, Run(s, steps), t)
  {
    var first := [LockOrder(t)];
    LocksOrEnds(s, t);
    RunOneMore(s, [], LockOrder(t));
    assert [] + [LockOrder(t)] == first;
    if s.txs[t].prog.order in s.db.orders {
      steps := LockedCanFinish(s, first, t);
      assert Alone([], first, t);
      AloneJoins(first, steps, t);
    } else {
      steps := first;
      MissingAmounts(s.db, s.txs[t].prog);
    }
    AloneLeavesOthers(s, steps, t);
  }

  lemma {:induction false} AloneJoins(first: seq<Step>, steps: seq<Step>, t: int)
    requires Alone([], first, t) && Alone(first, steps, t)
    ensures Alone([], steps, t)
  {
    forall i | 0 <= i < |steps| ensures Moves(steps[i], t) {
      if i < |first| {
        assert steps[i] == first[i];
      }
    }
  }

  /******* Orders being placed *******/

  // An order creation that has passed its second check.
  predicate HasPrices(s: Store, t: int) {
    PlaceAt(s, t) && !s.txs[t].pc.Reading?
  }

  function LinesIn(tx: Tx): nat {
    if tx.prog.PlaceProg? then |QuoteOf(tx.prog).lines| else 0
  }

  function InsertsLeft(tx: Tx): int {
    match tx.pc
    case Checked(_) => LinesIn(tx) + 3
    case Inserting(_, _, itemIds) => LinesIn(tx) - |itemIds| + 2
    case Audited(_, _, _) => 1
    case _ => 0
  }

  // The order was placed as the atomic operation places it, or nothing happened because it cannot be stored.
  ghost predicate PlacedOrRefused(a: Db, prog: Prog, b: Db) {
    prog.PlaceProg? &&
    if Storable(QuoteOf(prog)) then
      exists o, ids, rowId, stamp :: (b, Done) == CreateOrder(a, prog.userId, prog.rid, prog.request, o, ids, rowId, stamp)
    else b == a
  }

  lemma {:induction false} PlaceCommits(s: SoundStore, t: int)
    requires HasPrices(s, t) && Finishable(s.txs[t])
    ensures t !in DoCommit(s, t, true).txs && PlacedOrRefused(s.db, s.txs[t].prog, DoCommit(s, t, true).db)
  {
    TxKnows(s, t);
    var tx := s.txs[t];
    AnnouncedIsReady(s.db, tx);
    PlaceCommitIsAtomic(s.db, tx);
    assert OpOf(tx) == CreateOp(tx.prog.userId, tx.prog.rid, tx.prog.request,
                                tx.pc.newOrder, tx.pc.itemIds, tx.pc.rowId, tx.pc.stamp);
  }

  // A violated CHECK: the quote is not storable, and the tables stay.
  lemma {:induction false} RejectionIsRight(s: Store, t: int, answer: Answer)
    requires HasPrices(s, t) && !Storable(QuoteOf(s.txs[t].prog))
    ensures var b := Finish(s, t, answer); t !in b.txs && PlacedOrRefused(s.db, s.txs[t].prog, b.db)
  {}

  ghost predicate OneInsertLess(a: Store, b: Store, t: int)
    requires HasPrices(a, t)
  {
    && HasPrices(b, t) && b.db == a.db && b.txs[t].prog == a.txs[t].prog
    && 0 <= InsertsLeft(b.txs[t]) < InsertsLeft(a.txs[t])
  }

  lemma {:induction false} MoveIsOneInsertLess(s: Store, t: int, tx': Tx, ids: set<int>)
    requires HasPrices(s, t) && tx'.prog == s.txs[t].prog && !tx'.pc.Reading?
    requires 0 <= InsertsLeft(tx') < InsertsLeft(s.txs[t])
    ensures OneInsertLess(s, Move(s, t, tx', ids), t)
  {}

  // The statement ends the creation as it should, or leaves less to do.
  ghost predicate Inserts(a: Store, b: Store, t: int)
    requires HasPrices(a, t)
  {
    (t !in b.txs && PlacedOrRefused(a.db, a.txs[t].prog, b.db)) || OneInsertLess(a, b, t)
  }

  lemma {:induction false} OrderGoesIn(s: Store, t: int, id: int)
    requires HasPrices(s, t) && s.txs[t].pc.Checked? && id !in s.used && id > 0
    ensures Inserts(s, DoInsertOrder(s, t, id), t)
  {
    if QuoteOf(s.txs[t].prog).totalCents < 0 {
      RejectionIsRight(s, t, Failed(DatabaseFailure));
    } else {
      MoveIsOneInsertLess(s, t, OrderInserted(s.txs[t], id), {id});
    }
  }

  lemma {:induction false} ItemGoesIn(s: Store, t: int, id: int)
    requires HasPrices(s, t) && ItemsPending(s.txs[t])
    ensures Inserts(s, DoInsertItem(s, t, id), t)
  {
    if !StorableLine(QuoteOf(s.txs[t].prog).lines[|s.txs[t].pc.itemIds|]) {
      RejectionIsRight(s, t, Failed(DatabaseFailure));
    } else {
      MoveIsOneInsertLess(s, t, ItemInserted(s.txs[t], id), {});
    }
  }

  lemma {:induction false} PlacingKnows(s: SoundStore, t: int)
    requires HasPrices(s, t)
    ensures var tx := s.txs[t];
      || tx.pc.Checked? || tx.pc.Audited? || Finishable(tx)
      || (tx.pc.Inserting? && |tx.pc.itemIds| <= |QuoteOf(tx.prog).lines|)
  {
    TxKnows(s, t);
  }

  lemma {:induction false} CreationIsAudited(s: Store, t: int)
    requires CanAuditCreation(s, t)
    ensures Inserts(s, Move(s, t, CreationAudited(s.txs[t]), {}), t)
  {
    MoveIsOneInsertLess(s, t, CreationAudited(s.txs[t]), {});
  }

  lemma {:induction false} OrderIsAnnounced(s: Store, t: int, id: int)
    requires CanAnnounceOrder(s, t, id)
    ensures Inserts(s, Move(s, t, OrderAnnounced(s.txs[t], id, 0), {id}), t)
  {
    MoveIsOneInsertLess(s, t, OrderAnnounced(s.txs[t], id, 0), {id});
  }

  lemma {:induction false} RecordIsEnabled(s: Store, t: int, id: int) returns (next: Step, b: Store)
    requires CanAuditCreation(s, t) || CanAnnounceOrder(s, t, id)
    ensures b == Do(s, next) && Inserts(s, b, t) && Moves(next, t)
  {
    RecordSteps(s, t, id);
    if CanAuditCreation(s, t) {
      CreationIsAudited(s, t);
      next, b := AuditCreation(t), Move(s, t, CreationAudited(s.txs[t]), {});
    } else {
      OrderIsAnnounced(s, t, id);
      next, b := AnnounceOrder(t, id, 0), Move(s, t, OrderAnnounced(s.txs[t], id, 0), {id});
    }
  }

  lemma {:induction false} InsertionIsEnabled(s: SoundStore, t: int, id: int) returns (next: Step, b: Store)
    requires HasPrices(s, t) && id !in s.used && id > 0 && (s.txs[t].pc.Checked? || ItemsPending(s.txs[t]))
    ensures b == Do(s, next) && Inserts(s, b, t) && Moves(next, t)
  {
    InsertSteps(s, t, id);
    if s.txs[t].pc.Checked? {
      OrderGoesIn(s, t, id);
      next, b := InsertOrder(t, id), DoInsertOrder(s, t, id);
    } else {
      ItemGoesIn(s, t, id);
      next, b := InsertItem(t, id), DoInsertItem(s, t, id);
    }
  }

  lemma {:induction false} PlacedCanCommit(s: SoundStore, t: int) returns (next: Step, b: Store)
    requires HasPrices(s, t) && Finishable(s.txs[t])
    ensures b == Do(s, next) && Inserts(s, b, t) && Moves(next, t)
  {
    EndSteps(s, t);
    PlaceCommits(s, t);
    next, b := Commit(t, true), DoCommit(s, t, true);
  }

  /* Some statement of an order creation that has its prices is never blocked. */
  lemma {:induction false} InsertIsEnabled(s: SoundStore, t: int, id: int) returns (next: Step, b: Store)
    requires HasPrices(s, t) && id !in s.used && id > 0
    ensures b == Do(s, next) && Inserts(s, b, t) && Moves(next, t)
  {
    PlacingKnows(s, t);
    if Finishable(s.txs[t]) {
      next, b := PlacedCanCommit(s, t);
    } else if s.txs[t].pc.Checked? || ItemsPending(s.txs[t]) {
      next, b := InsertionIsEnabled(s, t, id);
    } else {
      next, b := RecordIsEnabled(s, t, id);
    }
  }

  lemma {:induction false} OneInsertMore(s: SoundStore, before: seq<Step>, t: int) returns (next: Step)
    requires HasPrices(Run(s, before), t)
    ensures Moves(next, t) && Inserts(Run(s, before), Run(s, before + [next]), t)
  {
    RunKeeps(s, before);
    var now: SoundStore := Run(s, before);
    var id := UnusedId(now.used);
    var b;
    next, b := InsertIsEnabled(now, t, id);
    RunOneMore(s, before, next);
  }

  /*
   Once its prices are checked under lock, an order creation can be run to its end without any other
   transaction moving: the order is placed, unless its total or a line cannot be stored.
   */
  lemma {:induction false} PlacingCanFinish(s: SoundStore, before: seq<Step>, t: int) returns (steps: seq<Step>)
    requires HasPrices(Run(s, before), t)
    ensures Alone(before, steps, t)
    ensures t !in Run(s, steps).txs && PlacedOrRefused(Run(s, before).db, Run(s, before).txs[t].prog, Run(s, steps).db)
    decreases InsertsLeft(Run(s, before).txs[t])
  {
    var next := OneInsertMore(s, before, t);
    steps := before + [next];
    if t in Run(s, steps).txs {
      steps := PlacingCanFinish(s, steps, t);
      AloneOneMore(before, next, steps, t);
    }
  }
}
