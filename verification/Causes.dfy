/**
 The answers of the services by their causes, read off the rows themselves: which condition on the tables and on
 the request gives which error, and what the rows look like after a success.
 */
module Causes {
  import opened Common
  import opened Statuses
  import opened Int64
  import opened Menu
  import opened Pricing
  import opened Tables
  import opened Text

  /******* Rows of the menu *******/

  // The restaurant has a row with this id.
  predicate Has(db: Db, rid: int, id: int) {
    id in db.menu.rows && db.menu.rows[id].restaurantId == rid
  }

  predicate Sells(db: Db, rid: int, id: int) {
    Has(db, rid, id) && db.menu.rows[id].isAvailable
  }

  // It still sells the dish, at the price it had.
  predicate SellsAsBefore(was: Db, db: Db, rid: int, id: int) {
    Sells(db, rid, id) && id in was.menu.rows && db.menu.rows[id].priceCents == was.menu.rows[id].priceCents
  }

  // The menu of a restaurant: all its rows, available or not.
  lemma {:induction false} WholeMenu(db: Db, rid: int, id: int)
    ensures id in RestaurantMenu(db.menu, rid) <==> Has(db, rid, id)
    ensures Has(db, rid, id) ==> RestaurantMenu(db.menu, rid)[id] == db.menu.rows[id]
  {}

  /******* OrderService.CreateOrder *******/

  // Position i is the first whose dish the restaurant does not sell.
  ghost predicate FirstUnsold(db: Db, rid: int, request: seq<OrderItemCreate>, i: nat) {
    && i < |request| && !Sells(db, rid, request[i].menuItemId)
    && forall j :: 0 <= j < i ==> Sells(db, rid, request[j].menuItemId)
  }

  // Position i is the first whose dish is not sold any more as it was.
  ghost predicate FirstChanged(was: Db, db: Db, rid: int, request: seq<OrderItemCreate>, i: nat) {
    && i < |request| && !SellsAsBefore(was, db, rid, request[i].menuItemId)
    && forall j :: 0 <= j < i ==> SellsAsBefore(was, db, rid, request[j].menuItemId)
  }

  // Before the menu is priced; was are the tables then.
  ghost predicate Unplaceable(was: Db, userId: string, rid: int, request: seq<OrderItemCreate>, error: Error) {
    || ((request == [] || TrimSpace(userId) == "") && error == InvalidData)
    || (request != [] && TrimSpace(userId) != "" &&
        (|| (rid !in was.restaurants && error == RestaurantNotFound)
         || (rid in was.restaurants && !was.restaurants[rid] && error == RestaurantUnavailable)
         || (rid in was.restaurants && was.restaurants[rid] && Unpriceable(was, rid, request, error))))
  }

  ghost predicate Unpriceable(was: Db, rid: int, request: seq<OrderItemCreate>, error: Error) {
    if exists i :: 0 <= i < |request| && request[i].quantity <= 0 then error == InvalidQuantity
    else
      exists i: nat :: (FirstUnsold(was, rid, request, i) &&
        error == if Has(was, rid, request[i].menuItemId) then MenuItemUnavailable else MenuItemNotFound)
  }

  // Under the locks, when the tables have become db.
  ghost predicate Outdated(was: Db, db: Db, rid: int, request: seq<OrderItemCreate>, error: Error) {
    exists i: nat :: (FirstChanged(was, db, rid, request, i) &&
      error == if Has(db, rid, request[i].menuItemId) && !db.menu.rows[request[i].menuItemId].isAvailable
               then MenuItemUnavailable else InvalidData)
  }

  // Nothing stands in the way of the request.
  ghost predicate Placeable(was: Db, userId: string, rid: int, request: seq<OrderItemCreate>) {
    && request != [] && TrimSpace(userId) != "" && rid in was.restaurants && was.restaurants[rid]
    && (forall i :: 0 <= i < |request| ==> request[i].quantity > 0 && Sells(was, rid, request[i].menuItemId))
  }

  ghost predicate Unchanged(was: Db, db: Db, rid: int, request: seq<OrderItemCreate>) {
    forall i :: 0 <= i < |request| ==> SellsAsBefore(was, db, rid, request[i].menuItemId)
  }

  // The CHECKs on the words of the quantities and of the total; rows have no negative price.
  ghost predicate FitsColumns(was: Db, rid: int, request: seq<OrderItemCreate>) {
    && Wrap(RawTotal(RestaurantMenu(was.menu, rid), request)) >= 0
    && forall i :: 0 <= i < |request| ==> 1 <= Wrap(QuantityOf(request, request[i].menuItemId)) < 0x8000_0000
  }

  lemma {:induction false} EnterIds(request: seq<OrderItemCreate>, i: nat) returns (k: nat)
    requires i < |request| && request[i].menuItemId !in FirstOccurrences(request[..i])
    ensures k < |FirstOccurrences(request)| && FirstOccurrences(request)[k] == request[i].menuItemId
    ensures FirstOccurrences(request)[..k] == FirstOccurrences(request[..i])
  {
    var n := i + 1;
    k := |FirstOccurrences(request[..i])|;
    FirstOccurrencesKeepOrder(request, n);
    assert request[..n][..i] == request[..i];
    assert FirstOccurrences(request[..n]) == FirstOccurrences(request[..i]) + [request[i].menuItemId];
  }

  // The ids met before position i.
  lemma {:induction false} MetBefore(request: seq<OrderItemCreate>, i: nat, id: int)
    requires i <= |request| && id in FirstOccurrences(request[..i])
    ensures exists j :: 0 <= j < i && request[j].menuItemId == id
  {
    FirstOccurrencesAreDistinct(request[..i]);
    var j :| 0 <= j < |request[..i]| && request[..i][j].menuItemId == id;
    assert request[j].menuItemId == id;
  }

  lemma {:induction false} FirstUnsoldDecides(db: Db, rid: int, request: seq<OrderItemCreate>, i: nat)
    requires FirstUnsold(db, rid, request, i)
    ensures FirstProblem(RestaurantMenu(db.menu, rid), FirstOccurrences(request)) ==
            Some(if Has(db, rid, request[i].menuItemId) then MenuItemUnavailable else MenuItemNotFound)
  {
    var ids, menu := FirstOccurrences(request), RestaurantMenu(db.menu, rid);
    if request[i].menuItemId in FirstOccurrences(request[..i]) {
      MetBefore(request, i, request[i].menuItemId);
    }
    var k := EnterIds(request, i);
    forall l | 0 <= l < k ensures ids[..k][l] in menu && menu[ids[..k][l]].isAvailable {
      assert ids[..k][l] in FirstOccurrences(request[..i]);
      MetBefore(request, i, ids[..k][l]);
      WholeMenu(db, rid, ids[..k][l]);
    }
    WholeMenu(db, rid, ids[k]);
    FirstProblemIsFirst(menu, ids, k);
  }

  lemma {:induction false} SomeFirstUnsold(db: Db, rid: int, request: seq<OrderItemCreate>, n: nat) returns (i: nat)
    requires n < |request| && !Sells(db, rid, request[n].menuItemId)
    ensures FirstUnsold(db, rid, request, i)
  {
    i := 0;
    while Sells(db, rid, request[i].menuItemId)
      decreases n - i
      invariant i <= n && forall j :: 0 <= j < i ==> Sells(db, rid, request[j].menuItemId)
    {
      i := i + 1;
    }
  }

  lemma {:induction false} SomeFirstChanged(was: Db, db: Db, rid: int, request: seq<OrderItemCreate>, n: nat)
    returns (i: nat)
    requires n < |request| && !SellsAsBefore(was, db, rid, request[n].menuItemId)
    ensures FirstChanged(was, db, rid, request, i)
  {
    i := 0;
    while SellsAsBefore(was, db, rid, request[i].menuItemId)
      decreases n - i
      invariant i <= n && forall j :: 0 <= j < i ==> SellsAsBefore(was, db, rid, request[j].menuItemId)
    {
      i := i + 1;
    }
  }

  lemma {:induction false} AllSold(db: Db, rid: int, request: seq<OrderItemCreate>)
    ensures AllOrderable(RestaurantMenu(db.menu, rid), request) <==>
            forall i :: 0 <= i < |request| ==> Sells(db, rid, request[i].menuItemId)
  {
    forall i | 0 <= i < |request|
      ensures Sells(db, rid, request[i].menuItemId) <==>
              request[i].menuItemId in RestaurantMenu(db.menu, rid) &&
              RestaurantMenu(db.menu, rid)[request[i].menuItemId].isAvailable
    {
      WholeMenu(db, rid, request[i].menuItemId);
    }
  }

  /* Every refusal has its cause in the rows, and nothing is refused without one. */
  lemma {:induction false} PlaceCheckByCause(db: Db, userId: string, rid: int, request: seq<OrderItemCreate>)
    ensures match PlaceCheck(db, userId, rid, request)
      case Some(e) => Unplaceable(db, userId, rid, request, e)
      case None => Placeable(db, userId, rid, request)
  {
    QuoteMeaning(RestaurantMenu(db.menu, rid), request);
    AllSold(db, rid, request);
    if i :| 0 <= i < |request| && AllPositive(request) && !Sells(db, rid, request[i].menuItemId) {
      var k := SomeFirstUnsold(db, rid, request, i);
      FirstUnsoldDecides(db, rid, request, k);
    }
  }

  // The line of a position in the quote.
  lemma {:induction false} LineOf(was: Db, rid: int, request: seq<OrderItemCreate>, id: int, k: nat)
    requires QuoteFor(RestaurantMenu(was.menu, rid), request).Ok?
    requires k < |FirstOccurrences(request)| && FirstOccurrences(request)[k] == id
    ensures var lines := QuoteFor(RestaurantMenu(was.menu, rid), request).value.lines;
      && k < |lines| && lines[k].menuItemId == id
      && Has(was, rid, id) && lines[k].unitPriceCents == was.menu.rows[id].priceCents
  {
    QuoteMeaning(RestaurantMenu(was.menu, rid), request);
    WholeMenu(was, rid, id);
  }

  lemma {:induction false} FirstChangedDecides(was: Db, db: Db, rid: int, request: seq<OrderItemCreate>, i: nat)
    requires QuoteFor(RestaurantMenu(was.menu, rid), request).Ok? && FirstChanged(was, db, rid, request, i)
    ensures Revalidate(RestaurantMenu(db.menu, rid), QuoteFor(RestaurantMenu(was.menu, rid), request).value.lines) ==
            Some(if Has(db, rid, request[i].menuItemId) && !db.menu.rows[request[i].menuItemId].isAvailable
                 then MenuItemUnavailable else InvalidData)
  {
    var ids, rows := FirstOccurrences(request), RestaurantMenu(db.menu, rid);
    var lines := QuoteFor(RestaurantMenu(was.menu, rid), request).value.lines;
    if request[i].menuItemId in FirstOccurrences(request[..i]) {
      MetBefore(request, i, request[i].menuItemId);
    }
    var k := EnterIds(request, i);
    LineOf(was, rid, request, ids[k], k);
    forall l | 0 <= l < k
      ensures lines[..k][l].menuItemId in rows && rows[lines[..k][l].menuItemId].isAvailable
      ensures rows[lines[..k][l].menuItemId].priceCents == lines[..k][l].unitPriceCents
    {
      assert ids[l] == ids[..k][l] && ids[..k][l] in FirstOccurrences(request[..i]);
      LineOf(was, rid, request, ids[l], l);
      MetBefore(request, i, ids[l]);
      WholeMenu(db, rid, ids[l]);
    }
    RevalidateAt(rows, lines, k);
    WholeMenu(db, rid, ids[k]);
  }

  /* The same for the second check. */
  lemma {:induction false} RecheckByCause(was: Db, db: Db, rid: int, request: seq<OrderItemCreate>)
    requires QuoteFor(RestaurantMenu(was.menu, rid), request).Ok?
    ensures match Revalidate(RestaurantMenu(db.menu, rid), QuoteFor(RestaurantMenu(was.menu, rid), request).value.lines)
      case Some(e) => Outdated(was, db, rid, request, e)
      case None => Unchanged(was, db, rid, request)
  {
    var rows, lines := RestaurantMenu(db.menu, rid), QuoteFor(RestaurantMenu(was.menu, rid), request).value.lines;
    if i :| 0 <= i < |request| && !SellsAsBefore(was, db, rid, request[i].menuItemId) {
      var k := SomeFirstChanged(was, db, rid, request, i);
      FirstChangedDecides(was, db, rid, request, k);
    } else {
      UnchangedPasses(was, db, rid, request);
    }
  }

  lemma {:induction false} UnchangedPasses(was: Db, db: Db, rid: int, request: seq<OrderItemCreate>)
    requires QuoteFor(RestaurantMenu(was.menu, rid), request).Ok? && Unchanged(was, db, rid, request)
    ensures Revalidate(RestaurantMenu(db.menu, rid), QuoteFor(RestaurantMenu(was.menu, rid), request).value.lines) == None
  {
    var rows, lines := RestaurantMenu(db.menu, rid), QuoteFor(RestaurantMenu(was.menu, rid), request).value.lines;
    QuoteMeaning(RestaurantMenu(was.menu, rid), request);
    FirstOccurrencesAreDistinct(request);
    forall l | 0 <= l < |lines|
      ensures lines[l].menuItemId in rows && rows[lines[l].menuItemId].isAvailable
      ensures rows[lines[l].menuItemId].priceCents == lines[l].unitPriceCents
    {
      var id := FirstOccurrences(request)[l];
      LineOf(was, rid, request, id, l);
      assert id in FirstOccurrences(request);
      var i :| 0 <= i < |request| && request[i].menuItemId == id;
      WholeMenu(db, rid, id);
    }
    RevalidateMeaning(rows, lines);
  }

  lemma {:induction false} FitsMeansStorable(was: Db, rid: int, request: seq<OrderItemCreate>)
    requires QuoteFor(RestaurantMenu(was.menu, rid), request).Ok? && ValidMenu(was.menu)
    ensures Storable(QuoteFor(RestaurantMenu(was.menu, rid), request).value) <==> FitsColumns(was, rid, request)
  {
    var quote, ids := QuoteFor(RestaurantMenu(was.menu, rid), request).value, FirstOccurrences(request);
    QuoteMeaning(RestaurantMenu(was.menu, rid), request);
    FirstOccurrencesAreDistinct(request);
    if Storable(quote) {
      forall i | 0 <= i < |request| ensures 1 <= Wrap(QuantityOf(request, request[i].menuItemId)) < 0x8000_0000 {
        assert request[i].menuItemId in ids;
        var k :| 0 <= k < |ids| && ids[k] == request[i].menuItemId;
        assert StorableLine(quote.lines[k]);
      }
    }
    if FitsColumns(was, rid, request) {
      forall k | 0 <= k < |quote.lines| ensures StorableLine(quote.lines[k]) {
        assert ids[k] in ids;
        var i :| 0 <= i < |request| && request[i].menuItemId == ids[k];
        LineOf(was, rid, request, ids[k], k);
      }
    }
  }

  // The rows are for what was requested, at the prices of db.
  ghost predicate LinesOfRequest(db: Db, request: seq<OrderItemCreate>, order: int, rows: seq<ItemRow>) {
    var ids := FirstOccurrences(request);
    && |rows| == |ids|
    && forall k :: 0 <= k < |ids| ==>
         && rows[k].orderId == order && rows[k].line.menuItemId == ids[k]
         && rows[k].line.quantity == Wrap(QuantityOf(request, ids[k]))
         && ids[k] in db.menu.rows && rows[k].line.unitPriceCents == db.menu.rows[ids[k]].priceCents
  }

  ghost predicate LinesPlaced(db: Db, request: seq<OrderItemCreate>, order: int, after: Db) {
    db.items <= after.items && LinesOfRequest(db, request, order, after.items[|db.items|..])
  }

  // And so is the message about it.
  ghost predicate OrderTold(db: Db, rid: int, total: int, order: int, stamp: int, after: Db)
    requires |db.items| <= |after.items|
  {
    && |after.outbox| == |db.outbox| + 1 && db.outbox <= after.outbox
    && var row := after.outbox[|db.outbox|];
       && row.topic == OrdersTopic && row.key == order && row.createdAt == stamp && !row.processed
       && row.payload == CreatedPayload(order, rid, total, after.items[|db.items|..])
  }

  // What a placed order looks like: the row, its items, the trail and the message.
  ghost predicate PlacedAs(
    was: Db, db: Db, userId: string, rid: int, request: seq<OrderItemCreate>, order: int, stamp: int, after: Db)
  {
    var total := Wrap(RawTotal(RestaurantMenu(was.menu, rid), request));
    && after.restaurants == db.restaurants && after.menu == db.menu
    && after.orders == db.orders[order := OrderRow(TrimSpace(userId), rid, Created, total)]
    && LinesPlaced(db, request, order, after)
    && after.events == db.events + [EventRow(order, None, Created)]
    && OrderTold(db, rid, total, order, stamp, after)
  }

  // The row of the k-th line.
  lemma {:induction false} PlacedLine(
    was: Db, db: Db, rid: int, request: seq<OrderItemCreate>, quote: Quote, order: int, itemIds: seq<int>, k: nat)
    requires QuoteFor(RestaurantMenu(was.menu, rid), request) == Ok(quote) && |itemIds| == |quote.lines|
    requires Unchanged(was, db, rid, request) && k < |FirstOccurrences(request)|
    ensures k < |quote.lines|
    ensures var row, id := ItemRows(order, quote.lines, itemIds)[k], FirstOccurrences(request)[k];
      && row.orderId == order && row.line.menuItemId == id
      && row.line.quantity == Wrap(QuantityOf(request, id))
      && id in db.menu.rows && row.line.unitPriceCents == db.menu.rows[id].priceCents
  {
    var ids := FirstOccurrences(request);
    QuoteMeaning(RestaurantMenu(was.menu, rid), request);
    FirstOccurrencesAreDistinct(request);
    LineOf(was, rid, request, ids[k], k);
    assert ids[k] in ids;
    var i :| 0 <= i < |request| && request[i].menuItemId == ids[k];
    assert SellsAsBefore(was, db, rid, request[i].menuItemId);
  }

  // The rows behind those that were there.
  lemma {:induction false} Appended(before: seq<ItemRow>, rows: seq<ItemRow>, after: seq<ItemRow>)
    requires after == before + rows
    ensures before <= after && after[|before|..] == rows
  {}

  lemma {:induction false} LinesByColumns(
    was: Db, db: Db, rid: int, request: seq<OrderItemCreate>, quote: Quote, order: int, itemIds: seq<int>)
    requires QuoteFor(RestaurantMenu(was.menu, rid), request) == Ok(quote) && |itemIds| == |quote.lines|
    requires Unchanged(was, db, rid, request)
    ensures LinesOfRequest(db, request, order, ItemRows(order, quote.lines, itemIds))
  {
    var ids, rows := FirstOccurrences(request), ItemRows(order, quote.lines, itemIds);
    QuoteMeaning(RestaurantMenu(was.menu, rid), request);
    forall k | 0 <= k < |ids|
      ensures rows[k].orderId == order && rows[k].line.menuItemId == ids[k]
      ensures rows[k].line.quantity == Wrap(QuantityOf(request, ids[k]))
      ensures ids[k] in db.menu.rows && rows[k].line.unitPriceCents == db.menu.rows[ids[k]].priceCents
    {
      PlacedLine(was, db, rid, request, quote, order, itemIds, k);
    }
  }

  lemma {:induction false} MessageByColumns(
    db: Db, rid: int, total: int, order: int, rows: seq<ItemRow>, rowId: int, stamp: int, after: Db)
    requires after.items == db.items + rows
    requires after.outbox == db.outbox + [CreatedRow(rowId, order, rid, total, rows, stamp)]
    ensures OrderTold(db, rid, total, order, stamp, after)
  {
    Appended(db.items, rows, after.items);
  }

  lemma {:induction false} PlacedByColumns(
    was: Db, db: Db, userId: string, rid: int, request: seq<OrderItemCreate>, quote: Quote,
    order: int, itemIds: seq<int>, rowId: int, stamp: int)
    requires QuoteFor(RestaurantMenu(was.menu, rid), request) == Ok(quote) && |itemIds| == |quote.lines|
    requires Unchanged(was, db, rid, request)
    ensures PlacedAs(was, db, userId, rid, request, order, stamp,
                     PlaceOrder(db, TrimSpace(userId), rid, quote, order, itemIds, rowId, stamp))
  {
    var after := PlaceOrder(db, TrimSpace(userId), rid, quote, order, itemIds, rowId, stamp);
    QuoteMeaning(RestaurantMenu(was.menu, rid), request);
    LinesByColumns(was, db, rid, request, quote, order, itemIds);
    Appended(db.items, ItemRows(order, quote.lines, itemIds), after.items);
    MessageByColumns(db, rid, quote.totalCents, order, ItemRows(order, quote.lines, itemIds), rowId, stamp, after);
  }

  /******* Repo.UpdateOrderStatus *******/

  // The transitions there are.
  predicate Leads(from: Status, to: Status) {
    || (from == Created && (to == Accepted || to == Rejected || to == Cancelled))
    || (from == Accepted && (to == Cooking || to == Cancelled))
    || (from == Cooking && to == Ready)
    || (from == Ready && to == Completed)
  }

  // Order o has moved from one status to another, and nothing else has.
  ghost predicate MovedTo(was: Db, order: int, target: Status, stamp: int, after: Db)
    requires order in was.orders
  {
    var row := was.orders[order];
    && after.restaurants == was.restaurants && after.menu == was.menu && after.items == was.items
    && after.orders == was.orders[order := OrderRow(row.userId, row.restaurantId, target, row.totalCents)]
    && after.events == was.events + [EventRow(order, Some(row.status), target)]
    && (target != Cancelled ==> after.outbox == was.outbox)
    && (target == Cancelled ==>
          && |after.outbox| == |was.outbox| + 1 && was.outbox <= after.outbox
          && var message := after.outbox[|was.outbox|];
             && message.topic == CancelTopic && message.key == order && message.createdAt == stamp && !message.processed
             && message.payload == CancelledPayload(order, row.restaurantId, Cancelled))
  }

  ghost predicate StatusSet(was: Db, order: int, target: Status, stamp: int, after: Db, answer: Answer) {
    if order !in was.orders then after == was && answer == Failed(OrderNotFound)
    else if was.orders[order].status == target then after == was && answer == Done
    else if Leads(was.orders[order].status, target) then MovedTo(was, order, target, stamp, after) && answer == Done
    else if was.orders[order].status == Cancelled then after == was && answer == Failed(OrderAlreadyCancelled)
    else after == was && answer == Failed(InvalidStatusTransition)
  }

  lemma {:induction false} SetStatusByCause(db: Db, order: int, target: Status, rowId: int, stamp: int)
    ensures var (after, answer) := SetStatus(db, order, target, rowId, stamp);
      StatusSet(db, order, target, stamp, after, answer)
  {
    if order in db.orders {
      TransitionsAre(db.orders[order].status, target);
      assert db.outbox + [] == db.outbox;
    }
  }

  /******* OrderService.CancelOrder *******/

  // What the client of a cancel is told at once.
  ghost predicate Uncancellable(db: Db, order: int, userId: string, error: Error) {
    if TrimSpace(userId) == "" || order <= 0 then error == InvalidData
    else if order !in db.orders then error == OrderNotFound
    else if db.orders[order].userId != TrimSpace(userId) then error == AccessDenied
    else if db.orders[order].status == Cancelled then error == OrderAlreadyCancelled
    else db.orders[order].status != Created && db.orders[order].status != Accepted && error == InvalidStatusTransition
  }

  ghost predicate Cancellable(db: Db, order: int, userId: string) {
    && TrimSpace(userId) != "" && order > 0 && order in db.orders && db.orders[order].userId == TrimSpace(userId)
    && (db.orders[order].status == Created || db.orders[order].status == Accepted)
  }

  lemma {:induction false} CancelCheckByCause(db: Db, order: int, userId: string)
    ensures match CancelCheck(db, order, userId)
      case Some(e) => Uncancellable(db, order, userId, e)
      case None => Cancellable(db, order, userId)
  {
    if order in db.orders {
      TransitionsAre(db.orders[order].status, Cancelled);
    }
  }

  /******* PartnerService.UpdateOrderStatus *******/

  predicate IsNamed(s: Status) {
    s == Created || s == Accepted || s == Rejected || s == Cooking || s == Ready || s == Completed || s == Cancelled
  }

  // What a partner is told at once.
  ghost predicate ToldAtOnce(db: Db, rid: int, order: int, target: Status, answer: Answer) {
    if rid <= 0 || order <= 0 || !IsNamed(target) then answer == Failed(InvalidData)
    else if order !in db.orders then answer == Failed(OrderNotFound)
    else if db.orders[order].restaurantId != rid then answer == Failed(AccessDenied)
    else if db.orders[order].status == Cancelled then answer == Failed(OrderAlreadyCancelled)
    else if db.orders[order].status == target then answer == Done
    else !Leads(db.orders[order].status, target) && answer == Failed(InvalidStatusTransition)
  }

  ghost predicate PartnerMay(db: Db, rid: int, order: int, target: Status) {
    && rid > 0 && order > 0 && order in db.orders && db.orders[order].restaurantId == rid
    && Leads(db.orders[order].status, target)
  }

  lemma {:induction false} PartnerCheckByCause(db: Db, rid: int, order: int, target: Status)
    ensures match PartnerCheck(db, rid, order, target)
      case Some(a) => ToldAtOnce(db, rid, order, target, a)
      case None => PartnerMay(db, rid, order, target)
  {
    if order in db.orders {
      TransitionsAre(db.orders[order].status, target);
    }
  }
}
