/**
 The order store under concurrency. Any number of transactions run statement by statement, each with
 a private set of uncommitted row versions and the row locks its statements took; a commit lays the
 row versions over the committed tables. Statuses are set, orders placed and menus upserted this way.
 A step that is not possible in a state leaves it as it is, so every sequence of steps is a run.
 */
module Store {
  import opened Common
  import opened Statuses
  import opened Int64
  import opened Menu
  import opened Pricing
  import opened Tables
  import opened Text

  datatype Origin = Client | Consumer | Partner

  // What a transaction was started for. seen is the menu the service read before, without locks.
  datatype Prog =
    | StatusProg(order: int, target: Status, origin: Origin)
    | PlaceProg(userId: string, rid: int, request: seq<OrderItemCreate>, seen: map<int, MenuItem>)
    | UpsertProg(rid: int, items: seq<MenuInput>)

  // How far it got, with what it has read (under locks) and the ids it was given.
  datatype Pc =
    | Begun
    | Locked(old_: Status)
    | RowWritten(old_: Status)
    | Recorded(old_: Status)
    | Queued(old_: Status, rowId: int, stamp: int)
    | Reading(rows: map<int, MenuItem>)
    | Checked(rows: map<int, MenuItem>)
    | Inserting(rows: map<int, MenuItem>, newOrder: int, itemIds: seq<int>)
    | Audited(rows: map<int, MenuItem>, newOrder: int, itemIds: seq<int>)
    | Announced(rows: map<int, MenuItem>, newOrder: int, itemIds: seq<int>, rowId: int, stamp: int)
    | Upserting(ids: seq<int>)

  datatype Writes = Writes(
    orders: map<int, OrderRow>,
    items: seq<ItemRow>,
    events: seq<EventRow>,
    outbox: seq<OutboxRow>,
    menuRows: map<int, MenuItem>,
    menuIndex: map<MenuKey, int>)

  const NOTHING := Writes(map[], [], [], [], map[], map[])

  datatype Tx = Tx(prog: Prog, pc: Pc, writes: Writes)

  // An answer that OrderService.CancelOrder has given to a client.
  datatype CancelAnswer = CancelAnswer(order: int, answer: Answer)

  /* used holds every id handed out so far; log and answers are the history of the run. */
  datatype Store = Store(db: Db, txs: map<int, Tx>, used: set<int>, log: seq<Entry>, answers: seq<CancelAnswer>)

  function Install(db: Db, w: Writes): Db {
    Db(db.restaurants, Overlay(db.menu, w.menuRows, w.menuIndex), db.orders + w.orders,
       db.items + w.items, db.events + w.events, db.outbox + w.outbox)
  }

  /******* Locks *******/

  // A row of orders, a key of menu_items, or an id that only its receiver will ever use.
  datatype Resource = OrderLock(order: int) | MenuLock(key: MenuKey) | NewId(id: int)

  predicate GotOrder(pc: Pc) {
    pc.Inserting? || pc.Audited? || pc.Announced?
  }

  predicate HasRows(pc: Pc) {
    pc.Reading? || pc.Checked? || GotOrder(pc)
  }

  // Exclusive: FOR UPDATE, an updated or inserted row, an id.
  predicate Owns(tx: Tx, r: Resource) {
    match r
    case OrderLock(o) =>
      || (tx.prog.StatusProg? && !tx.pc.Begun? && tx.prog.order == o)
      || (GotOrder(tx.pc) && tx.pc.newOrder == o)
    case MenuLock(k) =>
      tx.prog.UpsertProg? && tx.pc.Upserting? &&
      exists j :: 0 <= j < |tx.pc.ids| && j < |tx.prog.items| && InputKey(tx.prog.rid, tx.prog.items[j]) == k
    case NewId(i) =>
      || (GotOrder(tx.pc) && tx.pc.newOrder == i)
      || ((tx.pc.Queued? || tx.pc.Announced?) && tx.pc.rowId == i)
      || (tx.pc.Upserting? && i in tx.pc.ids)
  }

  // Shared: FOR SHARE.
  predicate Shares(tx: Tx, r: Resource) {
    r.MenuLock? && HasRows(tx.pc) && exists id :: id in tx.pc.rows && KeyOf(tx.pc.rows[id]) == r.key
  }

  ghost predicate Compatible(a: Tx, b: Tx) {
    forall r :: !(Owns(a, r) && (Owns(b, r) || Shares(b, r))) && !(Owns(b, r) && Shares(a, r))
  }

  ghost predicate FreeToOwn(s: Store, t: int, r: Resource) {
    forall u :: u in s.txs && u != t ==> !Owns(s.txs[u], r) && !Shares(s.txs[u], r)
  }

  ghost predicate FreeToShare(s: Store, t: int, r: Resource) {
    forall u :: u in s.txs && u != t ==> !Owns(s.txs[u], r)
  }

  /******* Steps *******/

  datatype Step =
    // services: check first, then start the transaction
    | CancelRequest(t: int, order: int, userId: string)
    | PartnerRequest(t: int, rid: int, order: int, target: Status)
    | ConsumerRequest(t: int, order: int, target: Status)
    | PlaceRequest(t: int, userId: string, rid: int, request: seq<OrderItemCreate>)
    | UpsertRequest(t: int, rid: int, items: seq<MenuInput>)
    // Repo.UpdateOrderStatus
    | LockOrder(t: int)
    | Refuse(t: int)
    | WriteStatus(t: int)
    | RecordStatus(t: int)
    | QueueCancel(t: int, rowId: int, stamp: int)
    // Repo.CreateOrder
    | LockMenuRow(t: int, id: int)
    | CheckMenu(t: int)
    | InsertOrder(t: int, newOrder: int)
    | InsertItem(t: int, itemId: int)
    | AuditCreation(t: int)
    | AnnounceOrder(t: int, rowId: int, stamp: int)
    // Repo.UpsertMenuItems
    | WriteMenuRow(t: int, id: int)
    // every transaction; acked is false when the commit succeeds but its acknowledgement is lost
    | Commit(t: int, acked: bool)
    | Abort(t: int)
    // Repo.MarkOutboxEventProcessed
    | Mark(rowId: int)

  // Transaction t, new or running, is now tx and has been handed ids.
  function Move(s: Store, t: int, tx: Tx, ids: set<int>): Store {
    s.(txs := s.txs[t := tx], used := s.used + ids)
  }

  predicate AnswersClient(tx: Tx) {
    tx.prog.StatusProg? && tx.prog.origin == Client
  }

  // The transaction is over; a client that waits for it gets its answer.
  function Finish(s: Store, t: int, answer: Answer): Store
    requires t in s.txs
  {
    s.(txs := s.txs - {t},
       answers := s.answers +
         if AnswersClient(s.txs[t]) then [CancelAnswer(s.txs[t].prog.order, answer)] else [])
  }

  function Logged(s: Store, op: Op, answer: Answer): Store {
    s.(log := s.log + [Entry(op, answer)])
  }

  function DoCancelRequest(s: Store, t: int, order: int, userId: string): Store {
    if t in s.txs then s
    else
      match CancelCheck(s.db, order, userId)
      case Some(e) => s.(answers := s.answers + [CancelAnswer(order, Failed(e))])
      case None => Move(s, t, Tx(StatusProg(order, Cancelled, Client), Begun, NOTHING), {})
  }

  function DoPartnerRequest(s: Store, t: int, rid: int, order: int, target: Status): Store {
    if t in s.txs || PartnerCheck(s.db, rid, order, target).Some? then s
    else Move(s, t, Tx(StatusProg(order, target, Partner), Begun, NOTHING), {})
  }

  function DoConsumerRequest(s: Store, t: int, order: int, target: Status): Store {
    if t in s.txs then s else Move(s, t, Tx(StatusProg(order, target, Consumer), Begun, NOTHING), {})
  }

  function DoPlaceRequest(s: Store, t: int, userId: string, rid: int, request: seq<OrderItemCreate>): Store {
    if t in s.txs || PlaceCheck(s.db, userId, rid, request).Some? then s
    else Move(s, t, Tx(PlaceProg(userId, rid, request, RestaurantMenu(s.db.menu, rid)), Reading(map[]), NOTHING), {})
  }

  ghost function DoUpsertRequest(s: Store, t: int, rid: int, items: seq<MenuInput>): Store {
    if t in s.txs || items == [] || !ValidBatch(items) then s
    else Move(s, t, Tx(UpsertProg(rid, items), Upserting([]), NOTHING), {})
  }

  /*** Repo.UpdateOrderStatus ***/

  predicate StatusAt(s: Store, t: int) {
    t in s.txs && s.txs[t].prog.StatusProg?
  }

  // SELECT status ... FOR UPDATE waits for the row; a missing row is answered at once.
  ghost function DoLockOrder(s: Store, t: int): Store {
    if !StatusAt(s, t) || !s.txs[t].pc.Begun? then s
    else
      var tx := s.txs[t];
      var order := tx.prog.order;
      if order !in s.db.orders then
        Finish(Logged(s, StatusOp(order, tx.prog.target, 0, 0), Failed(OrderNotFound)), t, Failed(OrderNotFound))
      else if !FreeToOwn(s, t, OrderLock(order)) then s
      else Move(s, t, tx.(pc := Locked(s.db.orders[order].status)), {})
  }

  predicate Refusable(tx: Tx) {
    tx.prog.StatusProg? && tx.pc.Locked? && tx.pc.old_ != tx.prog.target && !CanTransition(tx.pc.old_, tx.prog.target)
  }

  function Refusal(old_: Status): Answer {
    Failed(if old_ == Cancelled then OrderAlreadyCancelled else InvalidStatusTransition)
  }

  function DoRefuse(s: Store, t: int): Store {
    if t !in s.txs || !Refusable(s.txs[t]) then s
    else
      var tx := s.txs[t];
      Finish(Logged(s, StatusOp(tx.prog.order, tx.prog.target, 0, 0), Refusal(tx.pc.old_)), t, Refusal(tx.pc.old_))
  }

  // UPDATE orders SET status: a new version of the row as it stands under the lock.
  predicate CanWriteStatus(s: Store, t: int) {
    && StatusAt(s, t) && s.txs[t].pc.Locked? && s.txs[t].prog.order in s.db.orders
    && CanTransition(s.txs[t].pc.old_, s.txs[t].prog.target)
  }

  function StatusWritten(db: Db, tx: Tx): Tx
    requires tx.prog.StatusProg? && tx.pc.Locked? && tx.prog.order in db.orders
  {
    var order := tx.prog.order;
    Tx(tx.prog, RowWritten(tx.pc.old_),
       tx.writes.(orders := tx.writes.orders[order := db.orders[order].(status := tx.prog.target)]))
  }

  predicate CanRecordStatus(s: Store, t: int) {
    StatusAt(s, t) && s.txs[t].pc.RowWritten?
  }

  function StatusRecorded(tx: Tx): Tx
    requires tx.prog.StatusProg? && tx.pc.RowWritten?
  {
    Tx(tx.prog, Recorded(tx.pc.old_),
       tx.writes.(events := tx.writes.events + [EventRow(tx.prog.order, Some(tx.pc.old_), tx.prog.target)]))
  }

  predicate CanQueueCancel(s: Store, t: int, rowId: int) {
    && StatusAt(s, t) && s.txs[t].pc.Recorded? && s.txs[t].prog.target == Cancelled
    && s.txs[t].prog.order in s.txs[t].writes.orders && rowId !in s.used
  }

  // The restaurant id of the message is the one the UPDATE returned.
  function CancelQueued(tx: Tx, rowId: int, stamp: int): Tx
    requires tx.prog.StatusProg? && tx.pc.Recorded? && tx.prog.order in tx.writes.orders
  {
    var order := tx.prog.order;
    Tx(tx.prog, Queued(tx.pc.old_, rowId, stamp),
       tx.writes.(outbox := tx.writes.outbox + [CancelRow(rowId, order, tx.writes.orders[order].restaurantId, stamp)]))
  }

  /*** Repo.CreateOrder ***/

  predicate PlaceAt(s: Store, t: int) {
    t in s.txs && s.txs[t].prog.PlaceProg?
  }

  function QuoteOf(prog: Prog): Quote
    requires prog.PlaceProg?
  {
    match QuoteFor(prog.seen, prog.request)
    case Ok(quote) => quote
    case Err(_) => Quote([], 0)
  }

  // The SELECT ... FOR SHARE locks and reads its rows one by one, in any order.
  ghost predicate CanLockMenuRow(s: Store, t: int, id: int) {
    && PlaceAt(s, t) && s.txs[t].pc.Reading?
    && id in RestaurantMenu(s.db.menu, s.txs[t].prog.rid)
    && FreeToShare(s, t, MenuLock(KeyOf(s.db.menu.rows[id])))
  }

  function MenuRowRead(tx: Tx, id: int, row: MenuItem): Tx
    requires tx.pc.Reading?
  {
    tx.(pc := Reading(tx.pc.rows[id := row]))
  }

  // Every row of the order that exists has been read.
  predicate AllRead(db: Db, prog: Prog, rows: map<int, MenuItem>)
    requires prog.PlaceProg?
  {
    var lines := QuoteOf(prog).lines;
    forall i :: 0 <= i < |lines| ==> lines[i].menuItemId in rows || lines[i].menuItemId !in RestaurantMenu(db.menu, prog.rid)
  }

  function DoCheckMenu(s: Store, t: int): Store {
    if !PlaceAt(s, t) || !s.txs[t].pc.Reading? || !AllRead(s.db, s.txs[t].prog, s.txs[t].pc.rows) then s
    else
      var tx := s.txs[t];
      match Revalidate(tx.pc.rows, QuoteOf(tx.prog).lines)
      case Some(e) => Finish(s, t, Failed(e))
      case None => Move(s, t, tx.(pc := Checked(tx.pc.rows)), {})
  }

  function OrderInserted(tx: Tx, newOrder: int): Tx
    requires tx.prog.PlaceProg? && tx.pc.Checked?
  {
    var row := OrderRow(TrimSpace(tx.prog.userId), tx.prog.rid, Created, QuoteOf(tx.prog).totalCents);
    Tx(tx.prog, Inserting(tx.pc.rows, newOrder, []), tx.writes.(orders := tx.writes.orders[newOrder := row]))
  }

  // A violated CHECK ends the transaction.
  function DoInsertOrder(s: Store, t: int, newOrder: int): Store {
    if !PlaceAt(s, t) || !s.txs[t].pc.Checked? || newOrder in s.used || newOrder <= 0 then s
    else if QuoteOf(s.txs[t].prog).totalCents < 0 then Finish(s, t, Failed(DatabaseFailure))
    else Move(s, t, OrderInserted(s.txs[t], newOrder), {newOrder})
  }

  predicate ItemsPending(tx: Tx) {
    tx.prog.PlaceProg? && tx.pc.Inserting? && |tx.pc.itemIds| < |QuoteOf(tx.prog).lines|
  }

  function ItemInserted(tx: Tx, itemId: int): Tx
    requires ItemsPending(tx)
  {
    var line := QuoteOf(tx.prog).lines[|tx.pc.itemIds|];
    Tx(tx.prog, Inserting(tx.pc.rows, tx.pc.newOrder, tx.pc.itemIds + [itemId]),
       tx.writes.(items := tx.writes.items + [ItemRow(itemId, tx.pc.newOrder, line)]))
  }

  function DoInsertItem(s: Store, t: int, itemId: int): Store {
    if t !in s.txs || !ItemsPending(s.txs[t]) then s
    else if !StorableLine(QuoteOf(s.txs[t].prog).lines[|s.txs[t].pc.itemIds|]) then Finish(s, t, Failed(DatabaseFailure))
    else Move(s, t, ItemInserted(s.txs[t], itemId), {})
  }

  predicate CanAuditCreation(s: Store, t: int) {
    PlaceAt(s, t) && s.txs[t].pc.Inserting? && |s.txs[t].pc.itemIds| == |QuoteOf(s.txs[t].prog).lines|
  }

  function CreationAudited(tx: Tx): Tx
    requires tx.pc.Inserting?
  {
    Tx(tx.prog, Audited(tx.pc.rows, tx.pc.newOrder, tx.pc.itemIds),
       tx.writes.(events := tx.writes.events + [EventRow(tx.pc.newOrder, None, Created)]))
  }

  predicate CanAnnounceOrder(s: Store, t: int, rowId: int) {
    PlaceAt(s, t) && s.txs[t].pc.Audited? && rowId !in s.used
  }

  // The payload lists the items as they were inserted.
  function OrderAnnounced(tx: Tx, rowId: int, stamp: int): Tx
    requires tx.prog.PlaceProg? && tx.pc.Audited?
  {
    var pc, total := tx.pc, QuoteOf(tx.prog).totalCents;
    Tx(tx.prog, Announced(pc.rows, pc.newOrder, pc.itemIds, rowId, stamp),
       tx.writes.(outbox := tx.writes.outbox + [CreatedRow(rowId, pc.newOrder, tx.prog.rid, total, tx.writes.items, stamp)]))
  }

  /*** Repo.UpsertMenuItems ***/

  predicate RowsPending(tx: Tx) {
    tx.prog.UpsertProg? && tx.pc.Upserting? && |tx.pc.ids| < |tx.prog.items|
  }

  function NextKey(tx: Tx): MenuKey
    requires RowsPending(tx)
  {
    InputKey(tx.prog.rid, tx.prog.items[|tx.pc.ids|])
  }

  ghost predicate CanWriteMenuRow(s: Store, t: int, id: int) {
    && t in s.txs && RowsPending(s.txs[t]) && s.txs[t].prog.rid in s.db.restaurants
    && id !in s.used && FreeToOwn(s, t, MenuLock(NextKey(s.txs[t])))
  }

  // One INSERT ... ON CONFLICT DO UPDATE: sees the committed rows and this transaction's own.
  function MenuRowWritten(db: Db, tx: Tx, id: int): Tx
    requires RowsPending(tx)
  {
    var rid, item := tx.prog.rid, tx.prog.items[|tx.pc.ids|];
    var target := Target(Overlay(db.menu, tx.writes.menuRows, tx.writes.menuIndex), rid, item, id);
    Tx(tx.prog, Upserting(tx.pc.ids + [id]),
       tx.writes.(menuRows := tx.writes.menuRows[target := NewRow(target, rid, item)],
                  menuIndex := tx.writes.menuIndex[NextKey(tx) := target]))
  }

  /*** Every transaction ***/

  // All statements are through.
  predicate Finishable(tx: Tx) {
    match tx.prog
    case StatusProg(_, target, _) =>
      || (tx.pc.Locked? && tx.pc.old_ == target)
      || (tx.pc.Recorded? && target != Cancelled)
      || tx.pc.Queued?
    case PlaceProg(_, _, _, _) => tx.pc.Announced?
    case UpsertProg(_, items) => tx.pc.Upserting? && |tx.pc.ids| == |items|
  }

  // The atomic operation a finished transaction amounts to.
  function OpOf(tx: Tx): Op
    requires Finishable(tx)
  {
    match tx.prog
    case StatusProg(order, target, _) =>
      if tx.pc.Queued? then StatusOp(order, target, tx.pc.rowId, tx.pc.stamp) else StatusOp(order, target, 0, 0)
    case PlaceProg(userId, rid, request, _) =>
      CreateOp(userId, rid, request, tx.pc.newOrder, tx.pc.itemIds, tx.pc.rowId, tx.pc.stamp)
    case UpsertProg(rid, items) => UpsertOp(rid, items, tx.pc.ids)
  }

  function DoCommit(s: Store, t: int, acked: bool): Store {
    if t !in s.txs || !Finishable(s.txs[t]) then s
    else
      var tx := s.txs[t];
      Finish(Logged(s, OpOf(tx), Done).(db := Install(s.db, tx.writes)), t,
             if acked then Done else Failed(DatabaseFailure))
  }

  function DoAbort(s: Store, t: int): Store {
    if t !in s.txs then s else Finish(s, t, Failed(DatabaseFailure))
  }

  function DoMark(s: Store, rowId: int): Store {
    Logged(s, MarkOp(rowId), Done).(db := MarkProcessed(s.db, rowId))
  }

  ghost function Do(s: Store, step: Step): Store {
    match step
    case CancelRequest(t, order, userId) => DoCancelRequest(s, t, order, userId)
    case PartnerRequest(t, rid, order, target) => DoPartnerRequest(s, t, rid, order, target)
    case ConsumerRequest(t, order, target) => DoConsumerRequest(s, t, order, target)
    case PlaceRequest(t, userId, rid, request) => DoPlaceRequest(s, t, userId, rid, request)
    case UpsertRequest(t, rid, items) => DoUpsertRequest(s, t, rid, items)
    case LockOrder(t) => DoLockOrder(s, t)
    case Refuse(t) => DoRefuse(s, t)
    case WriteStatus(t) => if CanWriteStatus(s, t) then Move(s, t, StatusWritten(s.db, s.txs[t]), {}) else s
    case RecordStatus(t) => if CanRecordStatus(s, t) then Move(s, t, StatusRecorded(s.txs[t]), {}) else s
    case QueueCancel(t, rowId, stamp) =>
      if CanQueueCancel(s, t, rowId) then Move(s, t, CancelQueued(s.txs[t], rowId, stamp), {rowId}) else s
    case LockMenuRow(t, id) =>
      if CanLockMenuRow(s, t, id) then Move(s, t, MenuRowRead(s.txs[t], id, s.db.menu.rows[id]), {}) else s
    case CheckMenu(t) => DoCheckMenu(s, t)
    case InsertOrder(t, newOrder) => DoInsertOrder(s, t, newOrder)
    case InsertItem(t, itemId) => DoInsertItem(s, t, itemId)
    case AuditCreation(t) => if CanAuditCreation(s, t) then Move(s, t, CreationAudited(s.txs[t]), {}) else s
    case AnnounceOrder(t, rowId, stamp) =>
      if CanAnnounceOrder(s, t, rowId) then Move(s, t, OrderAnnounced(s.txs[t], rowId, stamp), {rowId}) else s
    case WriteMenuRow(t, id) =>
      if CanWriteMenuRow(s, t, id) then Move(s, t, MenuRowWritten(s.db, s.txs[t], id), {id}) else s
    case Commit(t, acked) => DoCommit(s, t, acked)
    case Abort(t) => DoAbort(s, t)
    case Mark(rowId) => DoMark(s, rowId)
  }

  ghost function Run(s: Store, steps: seq<Step>): Store {
    if steps == [] then s else Do(Run(s, steps[..|steps| - 1]), steps[|steps| - 1])
  }

  lemma {:induction false} CommitStep(s: Store, step: Step)
    requires step.Commit?
    ensures Do(s, step) == DoCommit(s, step.t, step.acked)
  {}

  // What the steps of a status transaction are, one by one.
  lemma {:induction false} EndSteps(s: Store, t: int)
    ensures Do(s, Commit(t, true)) == DoCommit(s, t, true)
    ensures Do(s, Refuse(t)) == DoRefuse(s, t)
  {}

  lemma {:induction false} StatusSteps(s: Store, t: int)
    ensures CanWriteStatus(s, t) ==> Do(s, WriteStatus(t)) == Move(s, t, StatusWritten(s.db, s.txs[t]), {})
    ensures CanRecordStatus(s, t) ==> Do(s, RecordStatus(t)) == Move(s, t, StatusRecorded(s.txs[t]), {})
  {}

  lemma {:induction false} QueueStep(s: Store, t: int, rowId: int)
    ensures CanQueueCancel(s, t, rowId) ==>
              Do(s, QueueCancel(t, rowId, 0)) == Move(s, t, CancelQueued(s.txs[t], rowId, 0), {rowId})
  {}

  // And those of an order creation.
  lemma {:induction false} InsertSteps(s: Store, t: int, id: int)
    ensures Do(s, InsertOrder(t, id)) == DoInsertOrder(s, t, id)
    ensures Do(s, InsertItem(t, id)) == DoInsertItem(s, t, id)
  {}

  lemma {:induction false} RecordSteps(s: Store, t: int, id: int)
    ensures CanAuditCreation(s, t) ==> Do(s, AuditCreation(t)) == Move(s, t, CreationAudited(s.txs[t]), {})
    ensures CanAnnounceOrder(s, t, id) ==>
              Do(s, AnnounceOrder(t, id, 0)) == Move(s, t, OrderAnnounced(s.txs[t], id, 0), {id})
  {}

  lemma {:induction false} RunOneMore(s: Store, steps: seq<Step>, step: Step)
    ensures Run(s, steps + [step]) == Do(Run(s, steps), step)
  {
    var all := steps + [step];
    assert all[..|all| - 1] == steps && all[|all| - 1] == step;
  }
}
