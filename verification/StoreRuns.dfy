/**
 Runs of the concurrent store: every interleaving of any number of transactions is a serial run of
 atomic operations with the same tables and the same answers, and keeps the invariant of the tables.
 */
module StoreRuns {
  import opened Common
  import opened Statuses
  import opened Menu
  import opened Pricing
  import opened Tables
  import opened Store
  import opened Isolation

  // Every id that occurs anywhere has been handed out.
  ghost predicate IdsUsed(s: Store) {
    && (forall i :: i in s.db.menu.rows || i in s.db.orders ==> i in s.used)
    && (forall i :: i !in s.used ==> FreshRow(s.db.outbox, i))
    && (forall t, i :: t in s.txs && Owns(s.txs[t], NewId(i)) ==> i in s.used)
  }

  // What an answer of CancelOrder promises about the order, from then on.
  ghost predicate AnswerHolds(db: Db, a: CancelAnswer) {
    match a.answer
    case Done => a.order in db.orders && db.orders[a.order].status == Cancelled
    case Failed(OrderAlreadyCancelled) => a.order in db.orders && db.orders[a.order].status == Cancelled
    case Failed(InvalidStatusTransition) => a.order in db.orders && PastCancelling(db.orders[a.order].status)
    case _ => true
  }

  ghost predicate AnswersHold(db: Db, answers: seq<CancelAnswer>) {
    forall i :: 0 <= i < |answers| ==> AnswerHolds(db, answers[i])
  }

  ghost predicate TxsOk(s: Store) {
    && (forall t :: t in s.txs ==> TxOk(s.db, s.txs[t]))
    && (forall t, u :: t in s.txs && u in s.txs && t != u ==> Compatible(s.txs[t], s.txs[u]))
  }

  ghost predicate StoreOk(s: Store) {
    match s
    case Store(db, _, _, _, answers) => DbOk(db) && TxsOk(s) && IdsUsed(s) && AnswersHold(db, answers)
  }

  // One step changes the committed tables by at most one atomic operation, which it logs.
  ghost predicate SerialStep(a: Store, b: Store) {
    || (b.db == a.db && b.log == a.log)
    || (&& |b.log| == |a.log| + 1
        && b.log == a.log + [b.log[|a.log|]]
        && Apply(a.db, b.log[|a.log|].op) == (b.db, b.log[|a.log|].answer))
  }

  ghost predicate GoodStep(a: Store, b: Store) {
    SerialStep(a, b) && Evolves(a.db, b.db) && a.answers <= b.answers
  }

  function EmptyStore(restaurants: map<int, bool>): Store {
    Store(Db(restaurants, MenuTable(map[], map[]), map[], [], [], []), map[], {}, [], [])
  }

  /* A store that meets the invariant. */
  type SoundStore = s: Store | StoreOk(s) ghost witness EmptyStore(map[])

  lemma {:induction false} EvolvesReflexive(db: Db)
    ensures Evolves(db, db)
  {}

  lemma {:induction false} NothingHappens(s: SoundStore) returns (b: SoundStore)
    ensures b == s && GoodStep(s, b)
  {
    EvolvesReflexive(s.db);
    b := s;
  }

  /******* Steps that leave the tables alone *******/

  // A transaction that has not started holds nothing.
  const IDLE := Tx(StatusProg(0, Created, Partner), Begun, NOTHING)

  function Before(s: Store, t: int): Tx {
    if t in s.txs then s.txs[t] else IDLE
  }

  // What transaction t is about to lock is free, and the ids among it are handed out with the step.
  ghost predicate Available(s: Store, t: int, own: set<Resource>, share: set<Resource>, ids: set<int>) {
    && (forall r :: r in own ==> FreeToOwn(s, t, r))
    && (forall r :: r in share ==> FreeToShare(s, t, r))
    && (forall i :: NewId(i) in own ==> i in s.used + ids)
  }

  lemma {:induction false} NothingToAcquire(s: Store, t: int)
    ensures Available(s, t, {}, {}, {})
  {}

  lemma {:induction false} OrderAvailable(s: Store, t: int, order: int)
    ensures FreeToOwn(s, t, OrderLock(order)) ==> Available(s, t, {OrderLock(order)}, {}, {})
  {}

  lemma {:induction false} KeyShareable(s: Store, t: int, k: MenuKey)
    ensures FreeToShare(s, t, MenuLock(k)) ==> Available(s, t, {}, {MenuLock(k)}, {})
  {}

  lemma {:induction false} NobodyOwnsFresh(s: SoundStore, u: int, i: int)
    requires i !in s.used && u in s.txs
    ensures !Owns(s.txs[u], NewId(i)) && !Owns(s.txs[u], OrderLock(i))
  {
    assert TxOk(s.db, s.txs[u]);
    if GotOrder(s.txs[u].pc) {
      assert Owns(s.txs[u], NewId(s.txs[u].pc.newOrder));
    }
  }

  // An id that was never handed out occurs nowhere.
  lemma {:induction false} FreshIsFree(s: SoundStore, t: int, i: int)
    ensures i !in s.used ==> FreeToOwn(s, t, NewId(i)) && FreeToOwn(s, t, OrderLock(i))
  {
    if i !in s.used {
      forall u | u in s.txs ensures !Owns(s.txs[u], NewId(i)) && !Owns(s.txs[u], OrderLock(i)) {
        NobodyOwnsFresh(s, u, i);
      }
    }
  }

  lemma {:induction false} FreshIsUnknown(s: SoundStore, i: int)
    ensures i !in s.used ==> i !in s.db.orders && i !in s.db.menu.rows && FreshRow(s.db.outbox, i)
  {}

  lemma {:induction false} IdAvailable(s: Store, t: int, i: int)
    ensures FreeToOwn(s, t, NewId(i)) ==> Available(s, t, {NewId(i)}, {}, {i})
    ensures FreeToOwn(s, t, NewId(i)) && FreeToOwn(s, t, OrderLock(i)) ==>
              Available(s, t, {NewId(i), OrderLock(i)}, {}, {i})
  {}

  lemma {:induction false} KeyAvailable(s: Store, t: int, k: MenuKey, i: int)
    ensures FreeToOwn(s, t, NewId(i)) && FreeToOwn(s, t, MenuLock(k)) ==>
              Available(s, t, {MenuLock(k), NewId(i)}, {}, {i})
  {}

  lemma {:induction false} MovedCompatible(
    s: Store, t: int, tx: Tx, own: set<Resource>, share: set<Resource>, ids: set<int>, u: int)
    requires Acquires(Before(s, t), tx, own, share) && Available(s, t, own, share, ids)
    requires u in s.txs && u != t && Compatible(Before(s, t), s.txs[u])
    ensures Compatible(tx, s.txs[u]) && Compatible(s.txs[u], tx)
  {}

  lemma {:induction false} IdleCompatible(tx: Tx)
    ensures Compatible(IDLE, tx)
  {}

  lemma {:induction false} MovedTxsOk(s: Store, t: int, tx: Tx, own: set<Resource>, share: set<Resource>, ids: set<int>)
    requires TxsOk(s) && TxOk(s.db, tx) && Acquires(Before(s, t), tx, own, share) && Available(s, t, own, share, ids)
    ensures TxsOk(Move(s, t, tx, ids))
  {
    forall u | u in s.txs && u != t ensures Compatible(tx, s.txs[u]) && Compatible(s.txs[u], tx) {
      IdleCompatible(s.txs[u]);
      MovedCompatible(s, t, tx, own, share, ids, u);
    }
  }

  lemma {:induction false} MovedIdsUsed(s: Store, t: int, tx: Tx, own: set<Resource>, share: set<Resource>, ids: set<int>)
    requires IdsUsed(s) && Acquires(Before(s, t), tx, own, share) && Available(s, t, own, share, ids)
    ensures IdsUsed(Move(s, t, tx, ids))
  {}

  // Transaction t (new or running) moves on to tx: it knows what it should and what it newly locks is free.
  lemma {:induction false} Advance(
    s: SoundStore, t: int, tx: Tx, own: set<Resource>, share: set<Resource>, ids: set<int>)
    ensures TxOk(s.db, tx) && Acquires(Before(s, t), tx, own, share) && Available(s, t, own, share, ids) ==>
              StoreOk(Move(s, t, tx, ids)) && GoodStep(s, Move(s, t, tx, ids))
  {
    if TxOk(s.db, tx) && Acquires(Before(s, t), tx, own, share) && Available(s, t, own, share, ids) {
      MovedTxsOk(s, t, tx, own, share, ids);
      MovedIdsUsed(s, t, tx, own, share, ids);
      EvolvesReflexive(s.db);
    }
  }

  lemma {:induction false} TxKnows(s: SoundStore, t: int)
    ensures t in s.txs ==> TxOk(s.db, s.txs[t])
  {}

  // A transaction ends without effect.
  lemma {:induction false} EndedStoreOk(s: Store, t: int, answer: Answer, log: seq<Entry>)
    requires StoreOk(s) && t in s.txs
    requires AnswersClient(s.txs[t]) ==> AnswerHolds(s.db, CancelAnswer(s.txs[t].prog.order, answer))
    ensures StoreOk(Finish(s.(log := log), t, answer))
  {
    var b := Finish(s.(log := log), t, answer);
    assert TxsOk(b);
    assert IdsUsed(b);
    assert AnswersHold(b.db, b.answers);
  }

  lemma {:induction false} EndsWithoutEffect(s: SoundStore, t: int, answer: Answer) returns (b: SoundStore)
    requires t in s.txs
    requires AnswersClient(s.txs[t]) ==> AnswerHolds(s.db, CancelAnswer(s.txs[t].prog.order, answer))
    ensures b == Finish(s, t, answer) && GoodStep(s, b)
  {
    EndedStoreOk(s, t, answer, s.log);
    EvolvesReflexive(s.db);
    b := Finish(s, t, answer);
  }

  // The same, having come to an answer: op is what the transaction amounted to.
  lemma {:induction false} EndsRefused(s: SoundStore, t: int, op: Op, answer: Answer) returns (b: SoundStore)
    requires t in s.txs && Apply(s.db, op) == (s.db, answer)
    requires AnswersClient(s.txs[t]) ==> AnswerHolds(s.db, CancelAnswer(s.txs[t].prog.order, answer))
    ensures b == Finish(Logged(s, op, answer), t, answer) && GoodStep(s, b)
  {
    EndedStoreOk(s, t, answer, s.log + [Entry(op, answer)]);
    EvolvesReflexive(s.db);
    b := Finish(Logged(s, op, answer), t, answer);
  }

  /*** Starting ***/

  lemma {:induction false} NewStatusOk(db: Db, order: int, target: Status, origin: Origin)
    requires origin == Client ==> target == Cancelled
    ensures TxOk(db, Tx(StatusProg(order, target, origin), Begun, NOTHING))
  {}

  lemma {:induction false} StatusRequestKeeps(s: SoundStore, t: int, order: int, target: Status, origin: Origin)
    returns (b: SoundStore)
    requires origin == Client ==> target == Cancelled
    ensures b == Move(s, t, Tx(StatusProg(order, target, origin), Begun, NOTHING), {}) && GoodStep(s, b)
  {
    var tx := Tx(StatusProg(order, target, origin), Begun, NOTHING);
    NewStatusOk(s.db, order, target, origin);
    NewcomerHoldsNothing(Before(s, t), tx);
    NothingToAcquire(s, t);
    Advance(s, t, tx, {}, {}, {});
    b := Move(s, t, tx, {});
  }

  // An answer of the check alone rests on the status that was read.
  lemma {:induction false} CheckAnswerHolds(db: Db, order: int, userId: string)
    requires CancelCheck(db, order, userId).Some? && (order in db.orders ==> Validate(db.orders[order].status))
    ensures AnswerHolds(db, CancelAnswer(order, Failed(CancelCheck(db, order, userId).value)))
  {}

  lemma {:induction false} AnsweredStoreOk(s: Store, a: CancelAnswer)
    requires StoreOk(s) && AnswerHolds(s.db, a)
    ensures StoreOk(s.(answers := s.answers + [a]))
  {
    var b := s.(answers := s.answers + [a]);
    assert TxsOk(b) && IdsUsed(b);
    assert AnswersHold(b.db, b.answers);
  }

  lemma {:induction false} CancelRequestKeeps(s: SoundStore, t: int, order: int, userId: string) returns (b: SoundStore)
    ensures b == DoCancelRequest(s, t, order, userId) && GoodStep(s, b)
  {
    if t in s.txs {
      b := NothingHappens(s);
    } else {
      match CancelCheck(s.db, order, userId)
      case None => b := StatusRequestKeeps(s, t, order, Cancelled, Client);
      case Some(e) =>
        StatusKnown(s.db, order);
        CheckAnswerHolds(s.db, order, userId);
        AnsweredStoreOk(s, CancelAnswer(order, Failed(e)));
        EvolvesReflexive(s.db);
        b := s.(answers := s.answers + [CancelAnswer(order, Failed(e))]);
    }
  }

  lemma {:induction false} StatusKnown(db: Db, order: int)
    requires DbOk(db)
    ensures order in db.orders ==> Validate(db.orders[order].status)
  {
    if order in db.orders {
      assert OrderOk(db, order);
      var h := EventsOf(db.events, order);
      if |h| > 1 {
        TransitionClimbs(h[|h| - 2].newStatus, h[|h| - 1].newStatus);
      }
    }
  }

  function NewPlacing(db: Db, userId: string, rid: int, request: seq<OrderItemCreate>): Tx {
    Tx(PlaceProg(userId, rid, request, RestaurantMenu(db.menu, rid)), Reading(map[]), NOTHING)
  }

  lemma {:induction false} NewPlacingOk(db: Db, userId: string, rid: int, request: seq<OrderItemCreate>)
    ensures PlaceCheck(db, userId, rid, request) == None ==> TxOk(db, NewPlacing(db, userId, rid, request))
  {
    if PlaceCheck(db, userId, rid, request) == None {
      assert PlacePrepared(db, NewPlacing(db, userId, rid, request).prog);
    }
  }

  lemma {:induction false} PlaceRequestKeeps(
    s: SoundStore, t: int, userId: string, rid: int, request: seq<OrderItemCreate>) returns (b: SoundStore)
    ensures b == DoPlaceRequest(s, t, userId, rid, request) && GoodStep(s, b)
  {
    if t in s.txs || PlaceCheck(s.db, userId, rid, request).Some? {
      b := NothingHappens(s);
    } else {
      var tx := NewPlacing(s.db, userId, rid, request);
      NewPlacingOk(s.db, userId, rid, request);
      NewcomerHoldsNothing(Before(s, t), tx);
      NothingToAcquire(s, t);
      Advance(s, t, tx, {}, {}, {});
      b := Move(s, t, tx, {});
    }
  }

  lemma {:induction false} NewUpsertOk(db: Db, rid: int, items: seq<MenuInput>)
    ensures items != [] && ValidBatch(items) ==> TxOk(db, Tx(UpsertProg(rid, items), Upserting([]), NOTHING))
  {
    assert items[..0] == [];
  }

  lemma {:induction false} UpsertRequestKeeps(s: SoundStore, t: int, rid: int, items: seq<MenuInput>) returns (b: SoundStore)
    ensures b == DoUpsertRequest(s, t, rid, items) && GoodStep(s, b)
  {
    if t in s.txs || items == [] || !ValidBatch(items) {
      b := NothingHappens(s);
    } else {
      var tx := Tx(UpsertProg(rid, items), Upserting([]), NOTHING);
      NewUpsertOk(s.db, rid, items);
      NewcomerHoldsNothing(Before(s, t), tx);
      NothingToAcquire(s, t);
      Advance(s, t, tx, {}, {}, {});
      b := Move(s, t, tx, {});
    }
  }

  /*** Repo.UpdateOrderStatus ***/

  lemma {:induction false} OrderLockedKeeps(s: SoundStore, t: int) returns (b: SoundStore)
    requires StatusAt(s, t) && s.txs[t].pc.Begun? && s.txs[t].prog.order in s.db.orders
    requires FreeToOwn(s, t, OrderLock(s.txs[t].prog.order))
    ensures b == Move(s, t, s.txs[t].(pc := Locked(s.db.orders[s.txs[t].prog.order].status)), {}) && GoodStep(s, b)
  {
    var tx, order := s.txs[t], s.txs[t].prog.order;
    var tx' := tx.(pc := Locked(s.db.orders[order].status));
    TxKnows(s, t);
    StatusLockedOk(s.db, tx);
    StatusAcquires(tx, tx');
    OrderAvailable(s, t, order);
    assert {} + {OrderLock(order)} == {OrderLock(order)};
    Advance(s, t, tx', {OrderLock(order)}, {}, {});
    b := Move(s, t, tx', {});
  }

  lemma {:induction false} LockOrderKeeps(s: SoundStore, t: int) returns (b: SoundStore)
    ensures b == DoLockOrder(s, t) && GoodStep(s, b)
  {
    if !StatusAt(s, t) || !s.txs[t].pc.Begun? {
      b := NothingHappens(s);
    } else {
      var order := s.txs[t].prog.order;
      if order !in s.db.orders {
        b := EndsRefused(s, t, StatusOp(order, s.txs[t].prog.target, 0, 0), Failed(OrderNotFound));
      } else if FreeToOwn(s, t, OrderLock(order)) {
        b := OrderLockedKeeps(s, t);
      } else {
        b := NothingHappens(s);
      }
    }
  }

  lemma {:induction false} RefusalIsAtomic(db: Db, tx: Tx)
    requires Refusable(tx) && StatusOk(db, tx) && Validate(tx.pc.old_)
    ensures Apply(db, StatusOp(tx.prog.order, tx.prog.target, 0, 0)) == (db, Refusal(tx.pc.old_))
    ensures AnswersClient(tx) ==> AnswerHolds(db, CancelAnswer(tx.prog.order, Refusal(tx.pc.old_)))
  {
    CancellableFrom(tx.pc.old_);
  }

  lemma {:induction false} RefuseKeeps(s: SoundStore, t: int) returns (b: SoundStore)
    ensures b == DoRefuse(s, t) && GoodStep(s, b)
  {
    if t !in s.txs || !Refusable(s.txs[t]) {
      b := NothingHappens(s);
    } else {
      var tx := s.txs[t];
      TxKnows(s, t);
      StatusKnown(s.db, tx.prog.order);
      RefusalIsAtomic(s.db, tx);
      b := EndsRefused(s, t, StatusOp(tx.prog.order, tx.prog.target, 0, 0), Refusal(tx.pc.old_));
    }
  }

  lemma {:induction false} WriteStatusKeeps(s: SoundStore, t: int) returns (b: SoundStore)
    requires CanWriteStatus(s, t)
    ensures b == Move(s, t, StatusWritten(s.db, s.txs[t]), {}) && GoodStep(s, b)
  {
    var tx' := StatusWritten(s.db, s.txs[t]);
    TxKnows(s, t);
    StatusWrittenOk(s.db, s.txs[t]);
    StatusAcquires(s.txs[t], tx');
    NothingToAcquire(s, t);
    Advance(s, t, tx', {}, {}, {});
    b := Move(s, t, tx', {});
  }

  lemma {:induction false} RecordStatusKeeps(s: SoundStore, t: int) returns (b: SoundStore)
    requires CanRecordStatus(s, t)
    ensures b == Move(s, t, StatusRecorded(s.txs[t]), {}) && GoodStep(s, b)
  {
    var tx' := StatusRecorded(s.txs[t]);
    TxKnows(s, t);
    StatusRecordedOk(s.db, s.txs[t]);
    StatusAcquires(s.txs[t], tx');
    NothingToAcquire(s, t);
    Advance(s, t, tx', {}, {}, {});
    b := Move(s, t, tx', {});
  }

  lemma {:induction false} QueueCancelKeeps(s: SoundStore, t: int, rowId: int, stamp: int) returns (b: SoundStore)
    requires CanQueueCancel(s, t, rowId)
    ensures b == Move(s, t, CancelQueued(s.txs[t], rowId, stamp), {rowId}) && GoodStep(s, b)
  {
    var tx' := CancelQueued(s.txs[t], rowId, stamp);
    TxKnows(s, t);
    FreshIsFree(s, t, rowId);
    FreshIsUnknown(s, rowId);
    CancelQueuedOk(s.db, s.txs[t], rowId, stamp);
    StatusAcquires(s.txs[t], tx');
    IdAvailable(s, t, rowId);
    Advance(s, t, tx', {NewId(rowId)}, {}, {rowId});
    b := Move(s, t, tx', {rowId});
  }

  /*** Repo.CreateOrder ***/

  lemma {:induction false} LockMenuRowKeeps(s: SoundStore, t: int, id: int) returns (b: SoundStore)
    requires CanLockMenuRow(s, t, id)
    ensures b == Move(s, t, MenuRowRead(s.txs[t], id, s.db.menu.rows[id]), {}) && GoodStep(s, b)
  {
    var row := s.db.menu.rows[id];
    var tx' := MenuRowRead(s.txs[t], id, row);
    TxKnows(s, t);
    MenuRowReadOk(s.db, s.txs[t], id);
    ReadingAcquires(s.txs[t], id, row);
    KeyShareable(s, t, KeyOf(row));
    Advance(s, t, tx', {}, {MenuLock(KeyOf(row))}, {});
    b := Move(s, t, tx', {});
  }

  lemma {:induction false} MenuCheckedKeeps(s: SoundStore, t: int) returns (b: SoundStore)
    requires PlaceAt(s, t) && s.txs[t].pc.Reading?
    requires Revalidate(s.txs[t].pc.rows, QuoteOf(s.txs[t].prog).lines) == None
    ensures b == Move(s, t, s.txs[t].(pc := Checked(s.txs[t].pc.rows)), {}) && GoodStep(s, b)
  {
    var tx := s.txs[t];
    var tx' := tx.(pc := Checked(tx.pc.rows));
    TxKnows(s, t);
    MenuCheckedOk(s.db, tx);
    ReadingAcquires(tx, 0, MenuItem(0, 0, "", "", 0, false));
    NothingToAcquire(s, t);
    Advance(s, t, tx', {}, {}, {});
    b := Move(s, t, tx', {});
  }

  lemma {:induction false} CheckMenuKeeps(s: SoundStore, t: int) returns (b: SoundStore)
    ensures b == DoCheckMenu(s, t) && GoodStep(s, b)
  {
    if !PlaceAt(s, t) || !s.txs[t].pc.Reading? || !AllRead(s.db, s.txs[t].prog, s.txs[t].pc.rows) {
      b := NothingHappens(s);
    } else {
      match Revalidate(s.txs[t].pc.rows, QuoteOf(s.txs[t].prog).lines)
      case Some(e) => b := EndsWithoutEffect(s, t, Failed(e));
      case None => b := MenuCheckedKeeps(s, t);
    }
  }

  lemma {:induction false} OrderInsertedKeeps(s: SoundStore, t: int, newOrder: int) returns (b: SoundStore)
    requires PlaceAt(s, t) && s.txs[t].pc.Checked? && QuoteOf(s.txs[t].prog).totalCents >= 0 && newOrder !in s.used
    ensures b == Move(s, t, OrderInserted(s.txs[t], newOrder), {newOrder}) && GoodStep(s, b)
  {
    var tx' := OrderInserted(s.txs[t], newOrder);
    TxKnows(s, t);
    FreshIsFree(s, t, newOrder);
    FreshIsUnknown(s, newOrder);
    OrderInsertedOk(s.db, s.txs[t], newOrder);
    InsertingAcquires(s.txs[t], newOrder);
    IdAvailable(s, t, newOrder);
    Advance(s, t, tx', {NewId(newOrder), OrderLock(newOrder)}, {}, {newOrder});
    b := Move(s, t, tx', {newOrder});
  }

  lemma {:induction false} InsertOrderKeeps(s: SoundStore, t: int, newOrder: int) returns (b: SoundStore)
    ensures b == DoInsertOrder(s, t, newOrder) && GoodStep(s, b)
  {
    if !PlaceAt(s, t) || !s.txs[t].pc.Checked? || newOrder in s.used || newOrder <= 0 {
      b := NothingHappens(s);
    } else if QuoteOf(s.txs[t].prog).totalCents < 0 {
      b := EndsWithoutEffect(s, t, Failed(DatabaseFailure));
    } else {
      b := OrderInsertedKeeps(s, t, newOrder);
    }
  }

  lemma {:induction false} ItemInsertedKeeps(s: SoundStore, t: int, itemId: int) returns (b: SoundStore)
    requires t in s.txs && ItemsPending(s.txs[t])
    requires StorableLine(QuoteOf(s.txs[t].prog).lines[|s.txs[t].pc.itemIds|])
    ensures b == Move(s, t, ItemInserted(s.txs[t], itemId), {}) && GoodStep(s, b)
  {
    var tx' := ItemInserted(s.txs[t], itemId);
    TxKnows(s, t);
    ItemInsertedOk(s.db, s.txs[t], itemId);
    PlacingAcquires(s.txs[t], tx');
    NothingToAcquire(s, t);
    Advance(s, t, tx', {}, {}, {});
    b := Move(s, t, tx', {});
  }

  lemma {:induction false} InsertItemKeeps(s: SoundStore, t: int, itemId: int) returns (b: SoundStore)
    ensures b == DoInsertItem(s, t, itemId) && GoodStep(s, b)
  {
    if t !in s.txs || !ItemsPending(s.txs[t]) {
      b := NothingHappens(s);
    } else if !StorableLine(QuoteOf(s.txs[t].prog).lines[|s.txs[t].pc.itemIds|]) {
      b := EndsWithoutEffect(s, t, Failed(DatabaseFailure));
    } else {
      b := ItemInsertedKeeps(s, t, itemId);
    }
  }

  lemma {:induction false} AuditCreationKeeps(s: SoundStore, t: int) returns (b: SoundStore)
    requires CanAuditCreation(s, t)
    ensures b == Move(s, t, CreationAudited(s.txs[t]), {}) && GoodStep(s, b)
  {
    var tx' := CreationAudited(s.txs[t]);
    TxKnows(s, t);
    CreationAuditedOk(s.db, s.txs[t]);
    PlacingAcquires(s.txs[t], tx');
    NothingToAcquire(s, t);
    Advance(s, t, tx', {}, {}, {});
    b := Move(s, t, tx', {});
  }

  lemma {:induction false} AnnounceOrderKeeps(s: SoundStore, t: int, rowId: int, stamp: int) returns (b: SoundStore)
    requires CanAnnounceOrder(s, t, rowId)
    ensures b == Move(s, t, OrderAnnounced(s.txs[t], rowId, stamp), {rowId}) && GoodStep(s, b)
  {
    var tx' := OrderAnnounced(s.txs[t], rowId, stamp);
    TxKnows(s, t);
    FreshIsFree(s, t, rowId);
    FreshIsUnknown(s, rowId);
    OrderAnnouncedOk(s.db, s.txs[t], rowId, stamp);
    PlacingAcquires(s.txs[t], tx');
    IdAvailable(s, t, rowId);
    Advance(s, t, tx', {NewId(rowId)}, {}, {rowId});
    b := Move(s, t, tx', {rowId});
  }

  /*** Repo.UpsertMenuItems ***/

  lemma {:induction false} WriteMenuRowKeeps(s: SoundStore, t: int, id: int) returns (b: SoundStore)
    requires CanWriteMenuRow(s, t, id)
    ensures b == Move(s, t, MenuRowWritten(s.db, s.txs[t], id), {id}) && GoodStep(s, b)
  {
    var tx' := MenuRowWritten(s.db, s.txs[t], id);
    TxKnows(s, t);
    NobodyOwnsFresh(s, t, id);
    FreshIsFree(s, t, id);
    FreshIsUnknown(s, id);
    MenuRowWrittenOk(s.db, s.txs[t], id);
    MenuWriteAcquires(s.db, s.txs[t], id);
    KeyAvailable(s, t, NextKey(s.txs[t]), id);
    Advance(s, t, tx', {MenuLock(NextKey(s.txs[t])), NewId(id)}, {}, {id});
    b := Move(s, t, tx', {id});
  }

  /******* Steps that change the tables *******/

  lemma {:induction false} AnswersOutlive(a: Db, b: Db, answers: seq<CancelAnswer>)
    requires AnswersHold(a, answers) && Evolves(a, b)
    ensures AnswersHold(b, answers)
  {
    forall i | 0 <= i < |answers| ensures AnswerHolds(b, answers[i]) {
      var answer := answers[i];
      assert AnswerHolds(a, answer);
      if answer.order in a.orders {
        assert OrderEvolves(a, b, answer.order);
      }
    }
  }

  lemma {:induction false} OthersUnharmed(s: SoundStore, t: int)
    requires t in s.txs && ValidMenu(Install(s.db, s.txs[t].writes).menu)
    ensures forall u :: u in s.txs && u != t ==> TxOk(Install(s.db, s.txs[t].writes), s.txs[u])
  {
    var b := Install(s.db, s.txs[t].writes);
    forall u | u in s.txs && u != t ensures TxOk(b, s.txs[u]) {
      CommitUndisturbing(s.db, s.txs[t], s.txs[u]);
      TxOkStays(s.db, b, s.txs[u]);
    }
  }

  lemma {:induction false} CommittedIdsUsed(s: SoundStore, t: int, i: int)
    requires t in s.txs
    ensures var b := Install(s.db, s.txs[t].writes); i in b.menu.rows || i in b.orders ==> i in s.used
  {
    var tx := s.txs[t];
    TxKnows(s, t);
    if i in tx.writes.menuRows {
      RowWritesOwned(s.db, tx, i);
    }
    if i in tx.writes.orders && i !in s.db.orders {
      StatusWritesOwned(s.db, tx, i);
      assert Owns(tx, NewId(i));
    }
  }

  lemma {:induction false} CommittedRowsUsed(s: SoundStore, t: int, i: int)
    requires t in s.txs && i !in s.used
    ensures FreshRow(Install(s.db, s.txs[t].writes).outbox, i)
  {
    var tx := s.txs[t];
    TxKnows(s, t);
    forall j | 0 <= j < |tx.writes.outbox| ensures tx.writes.outbox[j].id != i {
      OutboxWritesOwned(s.db, tx, j);
    }
  }

  // A committed cancel of a client has cancelled the order.
  lemma {:induction false} CommitCancels(db: Db, tx: Tx)
    requires TxOk(db, tx) && Finishable(tx) && AnswersClient(tx)
    ensures var b := Install(db, tx.writes);
      tx.prog.order in b.orders && b.orders[tx.prog.order].status == Cancelled
  {}

  lemma {:induction false} CommittedTxsOk(s: SoundStore, after: Store, t: int, acked: bool)
    requires t in s.txs && Finishable(s.txs[t]) && after == DoCommit(s, t, acked) && ValidMenu(after.db.menu)
    ensures TxsOk(after)
  {
    OthersUnharmed(s, t);
  }

  lemma {:induction false} CommittedStoreOk(s: SoundStore, after: Store, t: int, acked: bool)
    requires t in s.txs && Finishable(s.txs[t]) && after == DoCommit(s, t, acked)
    requires DbOk(after.db) && Evolves(s.db, after.db)
    ensures StoreOk(after)
  {
    CommittedTxsOk(s, after, t, acked);
    CommittedUsed(s, after, t, acked);
    CommittedAnswers(s, after, t, acked);
  }

  lemma {:induction false} CommittedUsed(s: SoundStore, after: Store, t: int, acked: bool)
    requires t in s.txs && Finishable(s.txs[t]) && after == DoCommit(s, t, acked)
    ensures IdsUsed(after)
  {
    forall i ensures i in after.db.menu.rows || i in after.db.orders ==> i in s.used {
      CommittedIdsUsed(s, t, i);
    }
    forall i | i !in s.used ensures FreshRow(after.db.outbox, i) {
      CommittedRowsUsed(s, t, i);
    }
  }

  lemma {:induction false} CommittedAnswers(s: SoundStore, after: Store, t: int, acked: bool)
    requires t in s.txs && Finishable(s.txs[t]) && after == DoCommit(s, t, acked) && Evolves(s.db, after.db)
    ensures AnswersHold(after.db, after.answers)
  {
    AnswersOutlive(s.db, after.db, s.answers);
    TxKnows(s, t);
    if AnswersClient(s.txs[t]) {
      CommitCancels(s.db, s.txs[t]);
    }
  }

  lemma {:induction false} CommitKeeps(s: SoundStore, t: int, acked: bool) returns (b: SoundStore)
    ensures b == DoCommit(s, t, acked) && GoodStep(s, b)
  {
    if t in s.txs && Finishable(s.txs[t]) {
      assert TxOk(s.db, s.txs[t]);
      CommitIsAtomic(s.db, s.txs[t]);
      CommitKeepsDb(s.db, s.txs[t]);
      CommittedStoreOk(s, DoCommit(s, t, acked), t, acked);
      b := DoCommit(s, t, acked);
    } else {
      b := NothingHappens(s);
    }
  }

  lemma {:induction false} MarkedTxsOk(s: SoundStore, rowId: int)
    requires DbOk(MarkProcessed(s.db, rowId))
    ensures TxsOk(DoMark(s, rowId)) && IdsUsed(DoMark(s, rowId))
  {
    var db := MarkProcessed(s.db, rowId);
    forall t | t in s.txs ensures TxOk(db, s.txs[t]) {
      MarkUndisturbing(s.db, rowId, s.txs[t]);
      TxOkStays(s.db, db, s.txs[t]);
    }
  }

  lemma {:induction false} MarkKeeps(s: SoundStore, rowId: int) returns (b: SoundStore)
    ensures b == DoMark(s, rowId) && GoodStep(s, b)
  {
    MarkProcessedKeeps(s.db, rowId);
    MarkedTxsOk(s, rowId);
    AnswersOutlive(s.db, MarkProcessed(s.db, rowId), s.answers);
    b := DoMark(s, rowId);
  }

  lemma {:induction false} AbortKeeps(s: SoundStore, t: int) returns (b: SoundStore)
    ensures b == DoAbort(s, t) && GoodStep(s, b)
  {
    if t in s.txs {
      b := EndsWithoutEffect(s, t, Failed(DatabaseFailure));
    } else {
      b := NothingHappens(s);
    }
  }

  /******* All steps, all runs *******/

  predicate IsRequest(step: Step) {
    step.CancelRequest? || step.PartnerRequest? || step.ConsumerRequest? || step.PlaceRequest? || step.UpsertRequest?
  }

  predicate IsStatusStatement(step: Step) {
    step.LockOrder? || step.Refuse? || step.WriteStatus? || step.RecordStatus? || step.QueueCancel?
  }

  predicate IsEnding(step: Step) {
    step.Commit? || step.Abort? || step.Mark?
  }

  lemma {:induction false} RequestKeeps(s: SoundStore, step: Step) returns (b: SoundStore)
    requires IsRequest(step)
    ensures b == Do(s, step) && GoodStep(s, b)
  {
    if step.CancelRequest? {
      b := CancelRequestKeeps(s, step.t, step.order, step.userId);
    } else if step.PlaceRequest? {
      b := PlaceRequestKeeps(s, step.t, step.userId, step.rid, step.request);
    } else if step.UpsertRequest? {
      b := UpsertRequestKeeps(s, step.t, step.rid, step.items);
    } else if step.ConsumerRequest? && step.t !in s.txs {
      b := StatusRequestKeeps(s, step.t, step.order, step.target, Consumer);
    } else if step.PartnerRequest? && step.t !in s.txs && PartnerCheck(s.db, step.rid, step.order, step.target).None? {
      b := StatusRequestKeeps(s, step.t, step.order, step.target, Partner);
    } else {
      b := NothingHappens(s);
    }
  }

  lemma {:induction false} StatusStatementKeeps(s: SoundStore, step: Step) returns (b: SoundStore)
    requires IsStatusStatement(step)
    ensures b == Do(s, step) && GoodStep(s, b)
  {
    if step.LockOrder? {
      b := LockOrderKeeps(s, step.t);
    } else if step.Refuse? {
      b := RefuseKeeps(s, step.t);
    } else if step.WriteStatus? && CanWriteStatus(s, step.t) {
      b := WriteStatusKeeps(s, step.t);
    } else if step.RecordStatus? && CanRecordStatus(s, step.t) {
      b := RecordStatusKeeps(s, step.t);
    } else if step.QueueCancel? && CanQueueCancel(s, step.t, step.rowId) {
      b := QueueCancelKeeps(s, step.t, step.rowId, step.stamp);
    } else {
      b := NothingHappens(s);
    }
  }

  lemma {:induction false} MenuStatementKeeps(s: SoundStore, step: Step) returns (b: SoundStore)
    requires !IsRequest(step) && !IsStatusStatement(step) && !IsEnding(step)
    ensures b == Do(s, step) && GoodStep(s, b)
  {
    if step.LockMenuRow? && CanLockMenuRow(s, step.t, step.id) {
      b := LockMenuRowKeeps(s, step.t, step.id);
    } else if step.CheckMenu? {
      b := CheckMenuKeeps(s, step.t);
    } else if step.InsertOrder? {
      b := InsertOrderKeeps(s, step.t, step.newOrder);
    } else if step.InsertItem? {
      b := InsertItemKeeps(s, step.t, step.itemId);
    } else if step.AuditCreation? && CanAuditCreation(s, step.t) {
      b := AuditCreationKeeps(s, step.t);
    } else if step.AnnounceOrder? && CanAnnounceOrder(s, step.t, step.rowId) {
      b := AnnounceOrderKeeps(s, step.t, step.rowId, step.stamp);
    } else if step.WriteMenuRow? && CanWriteMenuRow(s, step.t, step.id) {
      b := WriteMenuRowKeeps(s, step.t, step.id);
    } else {
      b := NothingHappens(s);
    }
  }

  lemma {:induction false} EndingKeeps(s: SoundStore, step: Step) returns (b: SoundStore)
    requires IsEnding(step)
    ensures b == Do(s, step) && GoodStep(s, b)
  {
    if step.Commit? {
      b := CommitKeeps(s, step.t, step.acked);
    } else if step.Mark? {
      b := MarkKeeps(s, step.rowId);
    } else {
      b := AbortKeeps(s, step.t);
    }
  }

  lemma {:induction false} StepKeeps(s: SoundStore, step: Step) returns (b: SoundStore)
    ensures b == Do(s, step) && GoodStep(s, b)
  {
    if IsRequest(step) {
      b := RequestKeeps(s, step);
    } else if IsStatusStatement(step) {
      b := StatusStatementKeeps(s, step);
    } else if IsEnding(step) {
      b := EndingKeeps(s, step);
    } else {
      b := MenuStatementKeeps(s, step);
    }
  }

  lemma {:induction false} RunKeeps(s: SoundStore, steps: seq<Step>)
    ensures StoreOk(Run(s, steps))
  {
    if steps != [] {
      var n := |steps| - 1;
      RunKeeps(s, steps[..n]);
      var _ := StepKeeps(Run(s, steps[..n]), steps[n]);
    }
  }

  /*
   Serializability: whatever the interleaving, running the logged operations one at a time gives the
   committed tables, and every logged answer is the answer of that serial run.
   */
  lemma {:induction false} EveryRunIsSerial(s: SoundStore, steps: seq<Step>)
    requires s.log == []
    ensures var after := Run(s, steps);
      Replay(s.db, after.log) == after.db && AnswersReplay(s.db, after.log)
  {
    if steps != [] {
      var n := |steps| - 1;
      var before := Run(s, steps[..n]);
      EveryRunIsSerial(s, steps[..n]);
      RunKeeps(s, steps[..n]);
      var _ := StepKeeps(before, steps[n]);
      var after := Run(s, steps);
      if after.log != before.log {
        ReplayOneMore(s.db, before.log, after.log[|before.log|]);
      }
    }
  }

  /* Price, lines, owner and restaurant of a stored order never change again; its status only moves along the table. */
  lemma {:induction false} StoredOrdersAreStable(s: SoundStore, steps: seq<Step>, order: int)
    requires order in s.db.orders
    ensures var after := Run(s, steps);
      && order in after.db.orders
      && after.db.orders[order] == s.db.orders[order].(status := after.db.orders[order].status)
      && ItemsOf(after.db.items, order) == ItemsOf(s.db.items, order)
  {
    if steps != [] {
      var n := |steps| - 1;
      StoredOrdersAreStable(s, steps[..n], order);
      RunKeeps(s, steps[..n]);
      var _ := StepKeeps(Run(s, steps[..n]), steps[n]);
      assert OrderEvolves(Run(s, steps[..n]).db, Run(s, steps).db, order);
    }
  }

  lemma {:induction false} AnswersAccumulate(s: SoundStore, steps: seq<Step>)
    ensures s.answers <= Run(s, steps).answers
  {
    if steps != [] {
      var n := |steps| - 1;
      AnswersAccumulate(s, steps[..n]);
      RunKeeps(s, steps[..n]);
      var _ := StepKeeps(Run(s, steps[..n]), steps[n]);
    }
  }

  /*
   The answers of CancelOrder are final: in every state after the answer was given, nil and "already
   cancelled" mean the order is cancelled, "invalid transition" means it is not and never will be.
   */
  lemma {:induction false} CancelAnswersAreFinal(s: SoundStore, steps: seq<Step>, i: nat)
    requires i < |s.answers|
    ensures AnswerHolds(Run(s, steps).db, s.answers[i])
  {
    RunKeeps(s, steps);
    AnswersAccumulate(s, steps);
  }

  /* The empty service, with any restaurants, is where runs start. */
  lemma {:induction false} InitiallyOk(restaurants: map<int, bool>)
    ensures StoreOk(EmptyStore(restaurants))
  {}
}
