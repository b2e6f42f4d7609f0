/**
 The tables of the service, the atomic effect of every transaction on them, and the invariant that
 ties orders, order items, the audit trail and the outbox together.
 */
module Tables {
  import opened Common
  import opened Statuses
  import opened Int64
  import opened Menu
  import opened Pricing
  import opened Text

  datatype OrderRow = OrderRow(userId: string, restaurantId: int, status: Status, totalCents: int)

  datatype ItemRow = ItemRow(id: int, orderId: int, line: OrderLine)

  datatype EventRow = EventRow(orderId: int, oldStatus: Option<Status>, newStatus: Status)

  datatype Topic = OrdersTopic | CancelTopic

  datatype Payload =
    | CreatedPayload(orderId: int, restaurantId: int, totalCents: int, items: seq<ItemRow>)
    | CancelledPayload(orderId: int, restaurantId: int, status: Status)

  datatype OutboxRow = OutboxRow(id: int, topic: Topic, key: int, payload: Payload, createdAt: int, processed: bool)

  // orders is keyed by its primary key; restaurants maps an id to its is_active flag.
  datatype Db = Db(
    restaurants: map<int, bool>,
    menu: MenuTable,
    orders: map<int, OrderRow>,
    items: seq<ItemRow>,
    events: seq<EventRow>,
    outbox: seq<OutboxRow>)

  /******* What the tables hold about one order *******/

  function EventsOf(events: seq<EventRow>, order: int): seq<EventRow> {
    if events == [] then []
    else
      var n := |events| - 1;
      EventsOf(events[..n], order) + if events[n].orderId == order then [events[n]] else []
  }

  function ItemsOf(items: seq<ItemRow>, order: int): seq<ItemRow> {
    if items == [] then []
    else
      var n := |items| - 1;
      ItemsOf(items[..n], order) + if items[n].orderId == order then [items[n]] else []
  }

  function PayloadsOf(outbox: seq<OutboxRow>, topic: Topic, order: int): seq<Payload> {
    if outbox == [] then []
    else
      var n := |outbox| - 1;
      PayloadsOf(outbox[..n], topic, order) +
      if outbox[n].topic == topic && outbox[n].key == order then [outbox[n].payload] else []
  }

  lemma {:induction false} EventsOfAppend(events: seq<EventRow>, e: EventRow, order: int)
    ensures EventsOf(events + [e], order) == EventsOf(events, order) + if e.orderId == order then [e] else []
  {
    assert (events + [e])[..|events|] == events;
  }

  lemma {:induction false} PayloadsOfAppend(outbox: seq<OutboxRow>, row: OutboxRow, topic: Topic, order: int)
    ensures PayloadsOf(outbox + [row], topic, order) ==
            PayloadsOf(outbox, topic, order) + if row.topic == topic && row.key == order then [row.payload] else []
  {
    assert (outbox + [row])[..|outbox|] == outbox;
  }

  lemma {:induction false} ItemsOfAppendOne(items: seq<ItemRow>, row: ItemRow, order: int)
    ensures ItemsOf(items + [row], order) == ItemsOf(items, order) + if row.orderId == order then [row] else []
  {
    assert (items + [row])[..|items|] == items;
  }

  lemma {:induction false} ItemsOfAppend(items: seq<ItemRow>, more: seq<ItemRow>, owner: int, order: int)
    requires forall i :: 0 <= i < |more| ==> more[i].orderId == owner
    ensures ItemsOf(items + more, order) == ItemsOf(items, order) + if owner == order then more else []
  {
    if more == [] {
      assert items + more == items;
    } else {
      var n := |more| - 1;
      ItemsOfAppend(items, more[..n], owner, order);
      ItemsOfAppendOne(items + more[..n], more[n], order);
      assert items + more == items + more[..n] + [more[n]];
      assert more == more[..n] + [more[n]];
    }
  }

  function LinesOf(items: seq<ItemRow>): seq<OrderLine> {
    seq(|items|, i requires 0 <= i < |items| => items[i].line)
  }

  /******* The atomic effect of each transaction *******/

  function CancelRow(rowId: int, order: int, rid: int, stamp: int): OutboxRow {
    OutboxRow(rowId, CancelTopic, order, CancelledPayload(order, rid, Cancelled), stamp, false)
  }

  // Repo.UpdateOrderStatus, as one step.
  function SetStatus(db: Db, order: int, target: Status, rowId: int, stamp: int): (Db, Answer) {
    if order !in db.orders then (db, Failed(OrderNotFound))
    else
      var row := db.orders[order];
      if row.status == target then (db, Done)
      else if !CanTransition(row.status, target) then
        (db, Failed(if row.status == Cancelled then OrderAlreadyCancelled else InvalidStatusTransition))
      else
        (db.(orders := db.orders[order := row.(status := target)],
             events := db.events + [EventRow(order, Some(row.status), target)],
             outbox := db.outbox +
               if target == Cancelled then [CancelRow(rowId, order, row.restaurantId, stamp)] else []),
         Done)
  }

  const MAX_QUANTITY: int := 0x7FFF_FFFF

  // The CHECK constraints and the width of the quantity column.
  predicate StorableLine(line: OrderLine) {
    1 <= line.quantity <= MAX_QUANTITY && 0 <= line.unitPriceCents
  }

  predicate Storable(quote: Quote) {
    quote.totalCents >= 0 && forall i :: 0 <= i < |quote.lines| ==> StorableLine(quote.lines[i])
  }

  function ItemRows(order: int, lines: seq<OrderLine>, ids: seq<int>): (rows: seq<ItemRow>)
    requires |ids| <= |lines|
    ensures |rows| == |ids|
  {
    seq(|ids|, i requires 0 <= i < |ids| => ItemRow(ids[i], order, lines[i]))
  }

  function CreatedRow(rowId: int, order: int, rid: int, total: int, items: seq<ItemRow>, stamp: int): OutboxRow {
    OutboxRow(rowId, OrdersTopic, order, CreatedPayload(order, rid, total, items), stamp, false)
  }

  // The inserts of Repo.CreateOrder.
  function PlaceOrder(
    db: Db, userId: string, rid: int, quote: Quote, order: int, itemIds: seq<int>, rowId: int, stamp: int): Db
    requires |itemIds| == |quote.lines|
  {
    var rows := ItemRows(order, quote.lines, itemIds);
    db.(orders := db.orders[order := OrderRow(userId, rid, Created, quote.totalCents)],
        items := db.items + rows,
        events := db.events + [EventRow(order, None, Created)],
        outbox := db.outbox + [CreatedRow(rowId, order, rid, quote.totalCents, rows, stamp)])
  }

  // What OrderService.CreateOrder checks before it calls the repository.
  function PlaceCheck(db: Db, userId: string, rid: int, request: seq<OrderItemCreate>): Option<Error> {
    if request == [] || TrimSpace(userId) == "" then Some(InvalidData)
    else if rid !in db.restaurants then Some(RestaurantNotFound)
    else if !db.restaurants[rid] then Some(RestaurantUnavailable)
    else
      match QuoteFor(RestaurantMenu(db.menu, rid), request)
      case Err(e) => Some(e)
      case Ok(_) => None
  }

  // OrderService.CreateOrder as one step: price the request against the menu of this very moment and store it.
  function CreateOrder(
    db: Db, userId: string, rid: int, request: seq<OrderItemCreate>,
    order: int, itemIds: seq<int>, rowId: int, stamp: int): (Db, Answer)
  {
    match PlaceCheck(db, userId, rid, request)
    case Some(e) => (db, Failed(e))
    case None =>
      var quote := QuoteFor(RestaurantMenu(db.menu, rid), request).value;
      if !Storable(quote) || |itemIds| != |quote.lines| then (db, Failed(DatabaseFailure))
      else (PlaceOrder(db, TrimSpace(userId), rid, quote, order, itemIds, rowId, stamp), Done)
  }

  // What OrderService.CancelOrder checks before it calls the repository.
  function CancelCheck(db: Db, order: int, userId: string): Option<Error> {
    if TrimSpace(userId) == "" || order <= 0 then Some(InvalidData)
    else if order !in db.orders then Some(OrderNotFound)
    else if db.orders[order].userId != TrimSpace(userId) then Some(AccessDenied)
    else if db.orders[order].status == Cancelled then Some(OrderAlreadyCancelled)
    else if !CanTransition(db.orders[order].status, Cancelled) then Some(InvalidStatusTransition)
    else None
  }

  // What PartnerService.UpdateOrderStatus checks; Some(Done) is its early success.
  function PartnerCheck(db: Db, rid: int, order: int, target: Status): Option<Answer> {
    if rid <= 0 || order <= 0 || !Validate(target) then Some(Failed(InvalidData))
    else if order !in db.orders then Some(Failed(OrderNotFound))
    else if db.orders[order].restaurantId != rid then Some(Failed(AccessDenied))
    else if db.orders[order].status == Cancelled then Some(Failed(OrderAlreadyCancelled))
    else if db.orders[order].status == target then Some(Done)
    else if !CanTransition(db.orders[order].status, target) then Some(Failed(InvalidStatusTransition))
    else None
  }

  // Repo.UpsertMenuItems as one step; the foreign key demands the restaurant, the CHECK the prices.
  function UpsertMenu(db: Db, rid: int, items: seq<MenuInput>, ids: seq<int>): (Db, Answer) {
    if |ids| != |items| || rid !in db.restaurants || !PricesOk(items) then (db, Failed(DatabaseFailure))
    else (db.(menu := UpsertAll(db.menu, rid, items, ids)), Done)
  }

  function MarkRows(outbox: seq<OutboxRow>, rowId: int): (marked: seq<OutboxRow>)
    ensures |marked| == |outbox|
    ensures forall i :: 0 <= i < |outbox| ==>
      marked[i] == if outbox[i].id == rowId then outbox[i].(processed := true) else outbox[i]
  {
    seq(|outbox|, i requires 0 <= i < |outbox| =>
      if outbox[i].id == rowId then outbox[i].(processed := true) else outbox[i])
  }

  // Repo.MarkOutboxEventProcessed.
  function MarkProcessed(db: Db, rowId: int): Db {
    db.(outbox := MarkRows(db.outbox, rowId))
  }

  /******* The invariant *******/

  // The audit trail of one order: starts at (NULL, created), every old status is the previous new
  // status, every step is legal, and it ends in the stored status.
  ghost predicate AuditOk(h: seq<EventRow>, status: Status) {
    && |h| > 0
    && h[0].oldStatus == None && h[0].newStatus == Created
    && (forall i :: 0 < i < |h| ==> h[i].oldStatus == Some(h[i - 1].newStatus) && CanTransition(h[i - 1].newStatus, h[i].newStatus))
    && h[|h| - 1].newStatus == status
  }

  ghost predicate OrderOk(db: Db, order: int)
    requires order in db.orders
  {
    var row := db.orders[order];
    var items := ItemsOf(db.items, order);
    && AuditOk(EventsOf(db.events, order), row.status)
    && row.totalCents == Wrap(LineTotal(LinesOf(items)))
    && row.totalCents >= 0
    && (forall i :: 0 <= i < |items| ==> StorableLine(items[i].line))
    && PayloadsOf(db.outbox, OrdersTopic, order) == [CreatedPayload(order, row.restaurantId, row.totalCents, items)]
    && PayloadsOf(db.outbox, CancelTopic, order) ==
       if row.status == Cancelled then [CancelledPayload(order, row.restaurantId, Cancelled)] else []
  }

  ghost predicate Untouched(db: Db, order: int) {
    && EventsOf(db.events, order) == []
    && ItemsOf(db.items, order) == []
    && PayloadsOf(db.outbox, OrdersTopic, order) == []
    && PayloadsOf(db.outbox, CancelTopic, order) == []
  }

  ghost predicate RowIdsDistinct(outbox: seq<OutboxRow>) {
    forall i, j :: 0 <= i < j < |outbox| ==> outbox[i].id != outbox[j].id
  }

  ghost predicate FreshRow(outbox: seq<OutboxRow>, rowId: int) {
    forall i :: 0 <= i < |outbox| ==> outbox[i].id != rowId
  }

  ghost predicate DbOk(db: Db) {
    && ValidMenu(db.menu)
    && (forall o :: o in db.orders ==> OrderOk(db, o))
    && (forall o :: o !in db.orders ==> Untouched(db, o))
    && RowIdsDistinct(db.outbox)
  }

  // What one transaction may do to what is already there.
  ghost predicate OutboxGrows(a: seq<OutboxRow>, b: seq<OutboxRow>) {
    && |a| <= |b|
    && (forall i :: 0 <= i < |a| ==> b[i] == a[i] || b[i] == a[i].(processed := true))
  }

  ghost predicate OrderEvolves(a: Db, b: Db, o: int)
    requires o in a.orders
  {
    && o in b.orders
    && b.orders[o] == a.orders[o].(status := b.orders[o].status)
    && (b.orders[o].status == a.orders[o].status || CanTransition(a.orders[o].status, b.orders[o].status))
    && ItemsOf(b.items, o) == ItemsOf(a.items, o)
  }

  ghost predicate Evolves(a: Db, b: Db) {
    && b.restaurants == a.restaurants
    && (forall o :: o in a.orders ==> OrderEvolves(a, b, o))
    && OutboxGrows(a.outbox, b.outbox)
  }

  // Nothing in the tables about order o differs.
  ghost predicate SameAbout(a: Db, b: Db, o: int) {
    && (o in b.orders <==> o in a.orders)
    && (o in a.orders ==> b.orders[o] == a.orders[o])
    && EventsOf(b.events, o) == EventsOf(a.events, o)
    && ItemsOf(b.items, o) == ItemsOf(a.items, o)
    && PayloadsOf(b.outbox, OrdersTopic, o) == PayloadsOf(a.outbox, OrdersTopic, o)
    && PayloadsOf(b.outbox, CancelTopic, o) == PayloadsOf(a.outbox, CancelTopic, o)
  }

  // A transaction concerns at most one order; the others carry over.
  lemma {:induction false} OthersCarryOver(a: Db, b: Db, order: int)
    requires DbOk(a) && ValidMenu(b.menu) && RowIdsDistinct(b.outbox)
    requires forall o :: o != order ==> SameAbout(a, b, o)
    requires if order in b.orders then OrderOk(b, order) else Untouched(b, order)
    ensures DbOk(b)
  {
    forall o | o in b.orders ensures OrderOk(b, o) {
      if o != order {
        assert SameAbout(a, b, o) && OrderOk(a, o);
      }
    }
    forall o | o !in b.orders ensures Untouched(b, o) {
      if o != order {
        assert SameAbout(a, b, o) && Untouched(a, o);
      }
    }
  }

  lemma {:induction false} SetStatusProjects(db: Db, order: int, target: Status, rowId: int, stamp: int, o: int)
    requires order in db.orders && CanTransition(db.orders[order].status, target)
    ensures var row := db.orders[order];
      var after := SetStatus(db, order, target, rowId, stamp).0;
      && EventsOf(after.events, o) ==
         EventsOf(db.events, o) + (if o == order then [EventRow(order, Some(row.status), target)] else [])
      && PayloadsOf(after.outbox, OrdersTopic, o) == PayloadsOf(db.outbox, OrdersTopic, o)
      && PayloadsOf(after.outbox, CancelTopic, o) == PayloadsOf(db.outbox, CancelTopic, o) +
         if o == order && target == Cancelled then [CancelledPayload(order, row.restaurantId, Cancelled)] else []
  {
    TransitionClimbs(db.orders[order].status, target);
    var row := db.orders[order];
    EventsOfAppend(db.events, EventRow(order, Some(row.status), target), o);
    if target == Cancelled {
      PayloadsOfAppend(db.outbox, CancelRow(rowId, order, row.restaurantId, stamp), OrdersTopic, o);
      PayloadsOfAppend(db.outbox, CancelRow(rowId, order, row.restaurantId, stamp), CancelTopic, o);
    } else {
      assert db.outbox + [] == db.outbox;
    }
  }

  lemma {:induction false} AuditExtends(h: seq<EventRow>, order: int, old_: Status, target: Status)
    requires AuditOk(h, old_) && CanTransition(old_, target)
    ensures AuditOk(h + [EventRow(order, Some(old_), target)], target)
  {}

  lemma {:induction false} SetStatusOrderOk(db: Db, order: int, target: Status, rowId: int, stamp: int)
    requires order in db.orders && OrderOk(db, order) && CanTransition(db.orders[order].status, target)
    ensures OrderOk(SetStatus(db, order, target, rowId, stamp).0, order)
  {
    TransitionClimbs(db.orders[order].status, target);
    SetStatusProjects(db, order, target, rowId, stamp, order);
    AuditExtends(EventsOf(db.events, order), order, db.orders[order].status, target);
  }

  lemma {:induction false} SetStatusEvolves(db: Db, order: int, target: Status, rowId: int, stamp: int)
    ensures Evolves(db, SetStatus(db, order, target, rowId, stamp).0)
  {}

  lemma {:induction false} SetStatusLeavesOthers(db: Db, order: int, target: Status, rowId: int, stamp: int, o: int)
    requires order in db.orders && CanTransition(db.orders[order].status, target) && o != order
    ensures SameAbout(db, SetStatus(db, order, target, rowId, stamp).0, o)
  {
    TransitionClimbs(db.orders[order].status, target);
    SetStatusProjects(db, order, target, rowId, stamp, o);
  }

  lemma {:induction false} SetStatusRowIds(db: Db, order: int, target: Status, rowId: int, stamp: int)
    requires RowIdsDistinct(db.outbox) && (target == Cancelled ==> FreshRow(db.outbox, rowId))
    ensures RowIdsDistinct(SetStatus(db, order, target, rowId, stamp).0.outbox)
  {}

  lemma {:induction false} SetStatusChanges(db: Db, after: Db, order: int, target: Status, rowId: int, stamp: int)
    requires DbOk(db) && order in db.orders && CanTransition(db.orders[order].status, target)
    requires after == SetStatus(db, order, target, rowId, stamp).0 && RowIdsDistinct(after.outbox)
    ensures DbOk(after)
  {
    forall o | o != order ensures SameAbout(db, after, o) {
      SetStatusLeavesOthers(db, order, target, rowId, stamp, o);
    }
    assert OrderOk(db, order);
    SetStatusOrderOk(db, order, target, rowId, stamp);
    OthersCarryOver(db, after, order);
  }

  lemma {:induction false} SetStatusKeeps(db: Db, order: int, target: Status, rowId: int, stamp: int)
    requires DbOk(db) && (target == Cancelled ==> FreshRow(db.outbox, rowId))
    ensures DbOk(SetStatus(db, order, target, rowId, stamp).0)
  {
    var after := SetStatus(db, order, target, rowId, stamp).0;
    if order in db.orders && CanTransition(db.orders[order].status, target) {
      SetStatusRowIds(db, order, target, rowId, stamp);
      SetStatusChanges(db, after, order, target, rowId, stamp);
    } else {
      assert after == db;
    }
  }

  lemma {:induction false} PlaceOrderProjects(
    db: Db, userId: string, rid: int, quote: Quote, order: int, itemIds: seq<int>, rowId: int, stamp: int, o: int)
    requires |itemIds| == |quote.lines|
    ensures var rows := ItemRows(order, quote.lines, itemIds);
      var after := PlaceOrder(db, userId, rid, quote, order, itemIds, rowId, stamp);
      && EventsOf(after.events, o) == EventsOf(db.events, o) + (if o == order then [EventRow(order, None, Created)] else [])
      && ItemsOf(after.items, o) == ItemsOf(db.items, o) + (if o == order then rows else [])
      && PayloadsOf(after.outbox, CancelTopic, o) == PayloadsOf(db.outbox, CancelTopic, o)
      && PayloadsOf(after.outbox, OrdersTopic, o) == PayloadsOf(db.outbox, OrdersTopic, o) +
         if o == order then [CreatedPayload(order, rid, quote.totalCents, rows)] else []
  {
    var rows := ItemRows(order, quote.lines, itemIds);
    EventsOfAppend(db.events, EventRow(order, None, Created), o);
    ItemsOfAppend(db.items, rows, order, o);
    PayloadsOfAppend(db.outbox, CreatedRow(rowId, order, rid, quote.totalCents, rows, stamp), OrdersTopic, o);
    PayloadsOfAppend(db.outbox, CreatedRow(rowId, order, rid, quote.totalCents, rows, stamp), CancelTopic, o);
  }

  // A freshly stored order in terms of its projections alone.
  lemma {:induction false} NewOrderOk(db: Db, order: int, row: OrderRow, rows: seq<ItemRow>, lines: seq<OrderLine>)
    requires order in db.orders && db.orders[order] == row
    requires row.status == Created && row.totalCents >= 0 && row.totalCents == Wrap(LineTotal(lines))
    requires LinesOf(rows) == lines && forall i :: 0 <= i < |lines| ==> StorableLine(lines[i])
    requires EventsOf(db.events, order) == [EventRow(order, None, Created)]
    requires ItemsOf(db.items, order) == rows
    requires PayloadsOf(db.outbox, OrdersTopic, order) == [CreatedPayload(order, row.restaurantId, row.totalCents, rows)]
    requires PayloadsOf(db.outbox, CancelTopic, order) == []
    ensures OrderOk(db, order)
  {
    forall i | 0 <= i < |rows| ensures StorableLine(rows[i].line) {
      assert rows[i].line == lines[i];
    }
  }

  lemma {:induction false} PlaceOrderOrderOk(
    db: Db, userId: string, rid: int, quote: Quote, order: int, itemIds: seq<int>, rowId: int, stamp: int)
    requires Untouched(db, order)
    requires |itemIds| == |quote.lines| && Storable(quote) && quote.totalCents == Wrap(LineTotal(quote.lines))
    ensures OrderOk(PlaceOrder(db, userId, rid, quote, order, itemIds, rowId, stamp), order)
  {
    var rows := ItemRows(order, quote.lines, itemIds);
    var after := PlaceOrder(db, userId, rid, quote, order, itemIds, rowId, stamp);
    PlaceOrderProjects(db, userId, rid, quote, order, itemIds, rowId, stamp, order);
    assert LinesOf(rows) == quote.lines;
    assert [] + rows == rows;
    NewOrderOk(after, order, OrderRow(userId, rid, Created, quote.totalCents), rows, quote.lines);
  }

  lemma {:induction false} PlaceOrderEvolves(
    db: Db, userId: string, rid: int, quote: Quote, order: int, itemIds: seq<int>, rowId: int, stamp: int)
    requires order !in db.orders && |itemIds| == |quote.lines|
    ensures Evolves(db, PlaceOrder(db, userId, rid, quote, order, itemIds, rowId, stamp))
  {
    var after := PlaceOrder(db, userId, rid, quote, order, itemIds, rowId, stamp);
    forall o | o in db.orders ensures OrderEvolves(db, after, o) {
      PlaceOrderProjects(db, userId, rid, quote, order, itemIds, rowId, stamp, o);
    }
  }

  lemma {:induction false} PlaceOrderLeavesOthers(
    db: Db, userId: string, rid: int, quote: Quote, order: int, itemIds: seq<int>, rowId: int, stamp: int, o: int)
    requires o != order && |itemIds| == |quote.lines|
    ensures SameAbout(db, PlaceOrder(db, userId, rid, quote, order, itemIds, rowId, stamp), o)
  {
    PlaceOrderProjects(db, userId, rid, quote, order, itemIds, rowId, stamp, o);
  }

  lemma {:induction false} PlaceOrderRowIds(
    db: Db, userId: string, rid: int, quote: Quote, order: int, itemIds: seq<int>, rowId: int, stamp: int)
    requires RowIdsDistinct(db.outbox) && FreshRow(db.outbox, rowId) && |itemIds| == |quote.lines|
    ensures RowIdsDistinct(PlaceOrder(db, userId, rid, quote, order, itemIds, rowId, stamp).outbox)
  {}

  lemma {:induction false} PlaceOrderKeeps(
    db: Db, userId: string, rid: int, quote: Quote, order: int, itemIds: seq<int>, rowId: int, stamp: int)
    requires DbOk(db) && order !in db.orders && FreshRow(db.outbox, rowId)
    requires |itemIds| == |quote.lines| && Storable(quote) && quote.totalCents == Wrap(LineTotal(quote.lines))
    ensures DbOk(PlaceOrder(db, userId, rid, quote, order, itemIds, rowId, stamp))
  {
    var after := PlaceOrder(db, userId, rid, quote, order, itemIds, rowId, stamp);
    forall o | o != order ensures SameAbout(db, after, o) {
      PlaceOrderLeavesOthers(db, userId, rid, quote, order, itemIds, rowId, stamp, o);
    }
    assert Untouched(db, order);
    PlaceOrderOrderOk(db, userId, rid, quote, order, itemIds, rowId, stamp);
    PlaceOrderRowIds(db, userId, rid, quote, order, itemIds, rowId, stamp);
    OthersCarryOver(db, after, order);
  }

  lemma {:induction false} UpsertMenuKeeps(db: Db, rid: int, items: seq<MenuInput>, ids: seq<int>)
    requires DbOk(db) && FreshIds(db.menu, ids)
    ensures DbOk(UpsertMenu(db, rid, items, ids).0)
    ensures Evolves(db, UpsertMenu(db, rid, items, ids).0)
  {
    var after := UpsertMenu(db, rid, items, ids).0;
    if |ids| == |items| && PricesOk(items) {
      UpsertAllStaysValid(db.menu, rid, items, ids);
    }
    forall o | o in after.orders ensures OrderOk(after, o) {
      assert OrderOk(db, o);
    }
    forall o | o !in after.orders ensures Untouched(after, o) {
      assert Untouched(db, o);
    }
  }

  lemma {:induction false} MarkKeepsPayloads(outbox: seq<OutboxRow>, rowId: int, topic: Topic, order: int)
    ensures PayloadsOf(MarkRows(outbox, rowId), topic, order) == PayloadsOf(outbox, topic, order)
  {
    if outbox != [] {
      var n := |outbox| - 1;
      MarkKeepsPayloads(outbox[..n], rowId, topic, order);
      assert MarkRows(outbox, rowId)[..n] == MarkRows(outbox[..n], rowId);
    }
  }

  lemma {:induction false} MarkProcessedKeeps(db: Db, rowId: int)
    requires DbOk(db)
    ensures DbOk(MarkProcessed(db, rowId))
    ensures Evolves(db, MarkProcessed(db, rowId))
  {
    var after := MarkProcessed(db, rowId);
    forall o
      ensures PayloadsOf(after.outbox, OrdersTopic, o) == PayloadsOf(db.outbox, OrdersTopic, o)
      ensures PayloadsOf(after.outbox, CancelTopic, o) == PayloadsOf(db.outbox, CancelTopic, o)
    {
      MarkKeepsPayloads(db.outbox, rowId, OrdersTopic, o);
      MarkKeepsPayloads(db.outbox, rowId, CancelTopic, o);
    }
    forall o | o in after.orders ensures OrderOk(after, o) {
      assert OrderOk(db, o);
    }
    forall o | o !in after.orders ensures Untouched(after, o) {
      assert Untouched(db, o);
    }
  }

  /******* What the invariant says *******/

  function HistoryOf(h: seq<EventRow>): seq<Status> {
    seq(|h|, i requires 0 <= i < |h| => h[i].newStatus)
  }

  lemma {:induction false} TrailIsLegal(trail: seq<EventRow>, status: Status)
    requires AuditOk(trail, status)
    ensures var h := HistoryOf(trail); LegalHistory(h) && |h| > 0 && h[0] == Created && h[|h| - 1] == status
  {}

  /*
   Replaying the audit trail of an order: a legal history from created to the stored status, hence at
   most four transitions, no status twice, never both cooking and cancelled.
   */
  lemma {:induction false} AuditTrailReplays(db: Db, order: int)
    requires DbOk(db) && order in db.orders
    ensures var h := HistoryOf(EventsOf(db.events, order));
      && LegalHistory(h) && 0 < |h| <= 5
      && h[0] == Created && h[|h| - 1] == db.orders[order].status
      && (forall i, j :: 0 <= i < j < |h| ==> h[i] != h[j])
      && !(Cooking in h && Cancelled in h)
  {
    assert OrderOk(db, order);
    TrailIsLegal(EventsOf(db.events, order), db.orders[order].status);
    var h := HistoryOf(EventsOf(db.events, order));
    HistoryIsShortAndSimple(h);
    CookingExcludesCancelled(h);
  }

  /* A cancelled order was cancelled while it was created or accepted, and the trail says so. */
  lemma {:induction false} CancelledWhileEarly(db: Db, order: int)
    requires DbOk(db) && order in db.orders && db.orders[order].status == Cancelled
    ensures var h := EventsOf(db.events, order);
      && |h| >= 2
      && h[|h| - 1].newStatus == Cancelled
      && (h[|h| - 1].oldStatus == Some(Created) || h[|h| - 1].oldStatus == Some(Accepted))
  {
    assert OrderOk(db, order);
    var h := EventsOf(db.events, order);
    CancellableFrom(h[|h| - 2].newStatus);
  }

  /* The stored total is the exact sum over the stored items if and only if that sum is below 2^63. */
  lemma {:induction false} StoredTotalExactWhenBelow(db: Db, order: int)
    requires DbOk(db) && order in db.orders
    ensures var exact := LineTotal(LinesOf(ItemsOf(db.items, order)));
      db.orders[order].totalCents == exact <==> exact < TWO_63
  {
    assert OrderOk(db, order);
    var items := ItemsOf(db.items, order);
    StorableTotalNonNegative(LinesOf(items));
    WrapExact(LineTotal(LinesOf(items)));
  }

  // Where one dish can be ordered, and by whom.
  ghost predicate OnOffer(db: Db, userId: string, rid: int, id: int) {
    && TrimSpace(userId) != "" && rid in db.restaurants && db.restaurants[rid]
    && id in RestaurantMenu(db.menu, rid) && RestaurantMenu(db.menu, rid)[id].isAvailable
  }

  lemma {:induction false} OneDishStored(
    db: Db, userId: string, rid: int, request: seq<OrderItemCreate>, id: int, order: int, itemId: int, rowId: int, stamp: int)
    requires OnOffer(db, userId, rid, id) && OnlyFor(request, id)
    requires var p, q := RestaurantMenu(db.menu, rid)[id].priceCents, Wrap(QuantityOf(request, id));
      1 <= q <= MAX_QUANTITY && 0 <= p && 0 <= Wrap(p * q)
    ensures var p, q := RestaurantMenu(db.menu, rid)[id].priceCents, Wrap(QuantityOf(request, id));
      var (after, answer) := CreateOrder(db, userId, rid, request, order, [itemId], rowId, stamp);
      && answer == Done
      && after.items == db.items + [ItemRow(itemId, order, OrderLine(id, q, p))]
      && order in after.orders && after.orders[order].totalCents == Wrap(p * q)
      && RawTotal(RestaurantMenu(db.menu, rid), request) == p * QuantityOf(request, id)
  {
    OneDishQuote(RestaurantMenu(db.menu, rid), request, id);
    var quote := QuoteFor(RestaurantMenu(db.menu, rid), request).value;
    assert StorableLine(quote.lines[0]);
    assert ItemRows(order, quote.lines, [itemId]) == [ItemRow(itemId, order, quote.lines[0])];
  }

  /*
   Wrapping is not academic: a summed quantity of 2^64 + 5 is stored as 5, and the order costs 5 times
   the price. Every check accepts it.
   */
  lemma {:induction false} QuantityCanWrap(
    db: Db, userId: string, rid: int, id: int, order: int, itemId: int, rowId: int, stamp: int)
    requires OnOffer(db, userId, rid, id) && 0 <= RestaurantMenu(db.menu, rid)[id].priceCents <= 1_000_000
    ensures var p := RestaurantMenu(db.menu, rid)[id].priceCents;
      var (after, answer) := CreateOrder(db, userId, rid, HugeRequest(id), order, [itemId], rowId, stamp);
      && answer == Done
      && after.items == db.items + [ItemRow(itemId, order, OrderLine(id, 5, p))]
      && order in after.orders && after.orders[order].totalCents == 5 * p
      && RawTotal(RestaurantMenu(db.menu, rid), HugeRequest(id)) == p * (TWO_64 + 5)
  {
    HugeQuantity(id);
    assert Wrap(TWO_64 + 5) == 5;
    assert Wrap(RestaurantMenu(db.menu, rid)[id].priceCents * 5) == 5 * RestaurantMenu(db.menu, rid)[id].priceCents;
    OneDishStored(db, userId, rid, HugeRequest(id), id, order, itemId, rowId, stamp);
  }

  /* Four of a dish at 2^62 cents: the order is accepted and stored with a total of 0, the sum is 2^64. */
  lemma {:induction false} TotalCanWrap(
    db: Db, userId: string, rid: int, id: int, order: int, itemId: int, rowId: int, stamp: int)
    requires OnOffer(db, userId, rid, id) && RestaurantMenu(db.menu, rid)[id].priceCents == TWO_63 / 2
    ensures var request := [OrderItemCreate(id, 4)];
      var (after, answer) := CreateOrder(db, userId, rid, request, order, [itemId], rowId, stamp);
      && answer == Done
      && order in after.orders && after.orders[order].totalCents == 0
      && after.items == db.items + [ItemRow(itemId, order, OrderLine(id, 4, TWO_63 / 2))]
      && LineTotal([OrderLine(id, 4, TWO_63 / 2)]) == TWO_64
      && RawTotal(RestaurantMenu(db.menu, rid), request) == TWO_64
  {
    var request := [OrderItemCreate(id, 4)];
    assert request[..0] == [] && QuantityOf(request, id) == 4;
    assert Wrap(4) == 4 && Wrap(TWO_63 / 2 * 4) == 0;
    OneDishStored(db, userId, rid, request, id, order, itemId, rowId, stamp);
    OneLineTotal(OrderLine(id, 4, TWO_63 / 2));
  }

  lemma {:induction false} StorableTotalNonNegative(lines: seq<OrderLine>)
    requires forall i :: 0 <= i < |lines| ==> StorableLine(lines[i])
    ensures LineTotal(lines) >= 0
  {
    if lines != [] {
      var n := |lines| - 1;
      StorableTotalNonNegative(lines[..n]);
      assert StorableLine(lines[n]);
      assert lines[n].unitPriceCents * lines[n].quantity >= 0;
    }
  }

  /******* Serial execution *******/

  datatype Op =
    | StatusOp(order: int, target: Status, rowId: int, stamp: int)
    | CreateOp(userId: string, restaurantId: int, request: seq<OrderItemCreate>,
               order: int, itemIds: seq<int>, rowId: int, stamp: int)
    | UpsertOp(restaurantId: int, items: seq<MenuInput>, ids: seq<int>)
    | MarkOp(rowId: int)

  function Apply(db: Db, op: Op): (Db, Answer) {
    match op
    case StatusOp(order, target, rowId, stamp) => SetStatus(db, order, target, rowId, stamp)
    case CreateOp(userId, rid, request, order, itemIds, rowId, stamp) =>
      CreateOrder(db, userId, rid, request, order, itemIds, rowId, stamp)
    case UpsertOp(rid, items, ids) => UpsertMenu(db, rid, items, ids)
    case MarkOp(rowId) => (MarkProcessed(db, rowId), Done)
  }

  datatype Entry = Entry(op: Op, answer: Answer)

  // The state after running the logged operations one after the other.
  function Replay(db: Db, log: seq<Entry>): Db {
    if log == [] then db
    else Apply(Replay(db, log[..|log| - 1]), log[|log| - 1].op).0
  }

  // Every logged answer is the answer of the serial run.
  ghost predicate AnswersReplay(db: Db, log: seq<Entry>) {
    forall i :: 0 <= i < |log| ==> log[i].answer == Apply(Replay(db, log[..i]), log[i].op).1
  }

  lemma {:induction false} ReplayOneMore(db: Db, log: seq<Entry>, e: Entry)
    requires AnswersReplay(db, log)
    requires e.answer == Apply(Replay(db, log), e.op).1
    ensures Replay(db, log + [e]) == Apply(Replay(db, log), e.op).0
    ensures AnswersReplay(db, log + [e])
  {
    var more := log + [e];
    assert more[..|log|] == log;
    forall i | 0 <= i < |more| ensures more[i].answer == Apply(Replay(db, more[..i]), more[i].op).1 {
      if i < |log| {
        assert more[..i] == log[..i];
      }
    }
  }
}
