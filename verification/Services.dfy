/**
 The domain services as the program they are: the loops that price an order and validate a menu batch,
 and the check-then-act services over the repository.
 */
module Services {
  import opened Common
  import opened Statuses
  import opened Int64
  import opened Menu
  import opened Pricing
  import opened Tables
  import opened Causes
  import opened Text
  import opened Repository

  method BuildMenuMap(menu: seq<MenuItem>) returns (menuMap: map<int, MenuItem>)
    ensures menuMap == MapOf(menu)
  {
    menuMap := map[];
    assert menu[..0] == [];
    for i := 0 to |menu|
      invariant menuMap == MapOf(menu[..i])
    {
      menuMap := menuMap[menu[i].id := menu[i]];
      assert menu[..i + 1][..i] == menu[..i];
    }
    assert menu[..|menu|] == menu;
  }

  /******* The dedup loop *******/

  lemma {:induction false} OneMorePosition(items: seq<OrderItemCreate>, n: nat, id: int)
    requires n < |items|
    ensures QuantityOf(items[..n + 1], id) ==
            QuantityOf(items[..n], id) + if items[n].menuItemId == id then items[n].quantity else 0
    ensures FirstOccurrences(items[..n + 1]) ==
            var ids := FirstOccurrences(items[..n]);
            if items[n].menuItemId in ids then ids else ids + [items[n].menuItemId]
  {
    assert items[..n + 1][..n] == items[..n];
  }

  // dedupMap after the positions in items.
  ghost predicate Deduped(items: seq<OrderItemCreate>, dedupMap: map<int, int>) {
    && (forall id :: id in dedupMap <==> id in FirstOccurrences(items))
    && (forall id :: id in dedupMap ==> dedupMap[id] == Wrap(QuantityOf(items, id)))
  }

  lemma {:induction false} DedupedOneMore(items: seq<OrderItemCreate>, n: nat, before: map<int, int>, after: map<int, int>)
    requires n < |items| && Deduped(items[..n], before)
    requires var x := items[n];
      after == before[x.menuItemId := Wrap((if x.menuItemId in before then before[x.menuItemId] else 0) + x.quantity)]
    ensures Deduped(items[..n + 1], after)
  {
    var x := items[n];
    forall id
      ensures id in after <==> id in FirstOccurrences(items[..n + 1])
      ensures id in after ==> after[id] == Wrap(QuantityOf(items[..n + 1], id))
    {
      OneMorePosition(items, n, id);
      WrapSum(QuantityOf(items[..n], id), x.quantity);
      if id !in FirstOccurrences(items[..n]) {
        AbsentQuantity(items[..n], id);
      }
    }
  }

  /* Merges repeated positions; a quantity that is not positive ends it. */
  method Dedup(items: seq<OrderItemCreate>) returns (ok: bool, dedupMap: map<int, int>, uniqueIDs: seq<int>)
    ensures ok <==> AllPositive(items)
    ensures ok ==> uniqueIDs == FirstOccurrences(items) && Deduped(items, dedupMap)
  {
    dedupMap, uniqueIDs := map[], [];
    assert items[..0] == [];
    for i := 0 to |items|
      invariant AllPositive(items[..i])
      invariant uniqueIDs == FirstOccurrences(items[..i])
      invariant Deduped(items[..i], dedupMap)
    {
      var item := items[i];
      if item.quantity <= 0 { return false, dedupMap, uniqueIDs; }
      OneMorePosition(items, i, item.menuItemId);
      if item.menuItemId !in dedupMap {
        uniqueIDs := uniqueIDs + [item.menuItemId];
      }
      var sum := (if item.menuItemId in dedupMap then dedupMap[item.menuItemId] else 0) + item.quantity;
      DedupedOneMore(items, i, dedupMap, dedupMap[item.menuItemId := Wrap(sum)]);
      dedupMap := dedupMap[item.menuItemId := Wrap(sum)];
    }
    assert items[..|items|] == items;
    ok := true;
  }

  /******* The pricing loop *******/

  lemma {:induction false} OneMoreLine(lines: seq<OrderLine>, line: OrderLine)
    ensures Wrap(LineTotal(lines + [line])) == Wrap(Wrap(LineTotal(lines)) + Wrap(line.unitPriceCents * line.quantity))
  {
    assert (lines + [line])[..|lines|] == lines;
    var a, b := LineTotal(lines), line.unitPriceCents * line.quantity;
    WrapSum(a, b);
    WrapSum(b, Wrap(a));
  }

  /* The two loops of CreateOrder compute the quote, in 64-bit arithmetic all the way. */
  method Price(menu: seq<MenuItem>, items: seq<OrderItemCreate>) returns (r: Result<Quote>)
    ensures r == QuoteFor(MapOf(menu), items)
  {
    var menuMap := BuildMenuMap(menu);
    var ok, dedupMap, uniqueIDs := Dedup(items);
    if !ok { return Err(InvalidQuantity); }
    var totalPrice := 0;
    var orderItems: seq<OrderLine> := [];
    for k := 0 to |uniqueIDs|
      invariant AllOffered(menuMap, uniqueIDs[..k])
      invariant orderItems == LinesFor(menuMap, items, uniqueIDs[..k])
      invariant totalPrice == Wrap(LineTotal(orderItems))
    {
      var id := uniqueIDs[k];
      assert id in uniqueIDs;
      var qty := dedupMap[id];
      if id !in menuMap {
        FirstProblemIsFirst(menuMap, uniqueIDs, k);
        return Err(MenuItemNotFound);
      }
      var menuItem := menuMap[id];
      if !menuItem.isAvailable {
        FirstProblemIsFirst(menuMap, uniqueIDs, k);
        return Err(MenuItemUnavailable);
      }
      var line := OrderLine(id, qty, menuItem.priceCents);
      OneMoreLine(orderItems, line);
      totalPrice := Wrap(totalPrice + Wrap(menuItem.priceCents * qty));
      orderItems := orderItems + [line];
      assert uniqueIDs[..k + 1] == uniqueIDs[..k] + [id];
    }
    assert uniqueIDs[..|uniqueIDs|] == uniqueIDs;
    NoProblemMeansOffered(menuMap, uniqueIDs);
    r := Ok(Quote(orderItems, totalPrice));
  }

  /******* Validation of a menu batch *******/

  // What makes position i acceptable after the ones before it.
  ghost predicate Acceptable(items: seq<MenuItem>, i: nat)
    requires i < |items|
  {
    && TrimSpace(items[i].externalId) != "" && TrimSpace(items[i].name) != "" && items[i].priceCents >= 0
    && forall j :: 0 <= j < i ==> TrimSpace(items[j].externalId) != TrimSpace(items[i].externalId)
  }

  function Tidied(item: MenuItem, rid: int): MenuItem {
    item.(externalId := TrimSpace(item.externalId), name := TrimSpace(item.name), restaurantId := rid)
  }

  // The batch after the loop has rewritten its first n positions in place.
  function TidiedUpTo(items: seq<MenuItem>, rid: int, n: nat): (tidied: seq<MenuItem>)
    requires n <= |items|
    ensures |tidied| == |items|
  {
    seq(|items|, i requires 0 <= i < |items| => if i < n then Tidied(items[i], rid) else items[i])
  }

  function InputsOf(items: seq<MenuItem>): (inputs: seq<MenuInput>)
    ensures |inputs| == |items|
  {
    seq(|items|, i requires 0 <= i < |items| =>
      MenuInput(items[i].externalId, items[i].name, items[i].priceCents, items[i].isAvailable))
  }

  // seen: the trimmed external ids of the first n positions.
  function KeysBefore(items: seq<MenuItem>, n: nat): set<string>
    requires n <= |items|
  {
    if n == 0 then {} else KeysBefore(items, n - 1) + {TrimSpace(items[n - 1].externalId)}
  }

  lemma {:induction false} KeysBeforeMeans(items: seq<MenuItem>, n: nat, key: string)
    requires n <= |items|
    ensures key in KeysBefore(items, n) <==> exists j :: 0 <= j < n && TrimSpace(items[j].externalId) == key
  {
    if n > 0 {
      KeysBeforeMeans(items, n - 1, key);
    }
  }

  lemma {:induction false} AcceptableMeans(items: seq<MenuItem>, i: nat)
    requires i < |items|
    ensures Acceptable(items, i) <==>
      && TrimSpace(items[i].externalId) != "" && TrimSpace(items[i].name) != "" && items[i].priceCents >= 0
      && TrimSpace(items[i].externalId) !in KeysBefore(items, i)
  {
    KeysBeforeMeans(items, i, TrimSpace(items[i].externalId));
  }

  // The first n positions are acceptable, and rewritten; the others are as they were.
  ghost predicate TidyUpTo(given: seq<MenuItem>, rid: int, n: nat, after: seq<MenuItem>) {
    n <= |given| && after == TidiedUpTo(given, rid, n) && forall i :: 0 <= i < n ==> Acceptable(given, i)
  }

  lemma {:induction false} TidyUpToOneMore(given: seq<MenuItem>, rid: int, n: nat, after: seq<MenuItem>)
    requires TidyUpTo(given, rid, n, after) && n < |given| && Acceptable(given, n)
    ensures TidyUpTo(given, rid, n + 1, after[n := Tidied(given[n], rid)])
  {}

  /*
   The loop of UpsertMenu. bad is the first position that is refused; everything before it has been
   rewritten in the caller's slice by then, everything from it on has not.
   */
  method Tidy(items: array<MenuItem>, rid: int) returns (bad: Option<nat>)
    modifies items
    ensures bad == None ==> TidyUpTo(old(items[..]), rid, items.Length, items[..])
    ensures bad.Some? ==>
      && TidyUpTo(old(items[..]), rid, bad.value, items[..])
      && bad.value < items.Length && !Acceptable(old(items[..]), bad.value)
  {
    ghost var given, now := items[..], items[..];
    var seen: set<string> := {};
    for i := 0 to items.Length
      invariant items[..] == now && TidyUpTo(given, rid, i, now)
      invariant seen == KeysBefore(given, i)
    {
      assert items[i] == now[i] == given[i];
      AcceptableMeans(given, i);
      var extID := TrimSpace(items[i].externalId);
      var name := TrimSpace(items[i].name);
      if extID == "" || name == "" || items[i].priceCents < 0 { return Some(i); }
      if extID in seen { return Some(i); }
      seen := seen + {extID};
      TidyUpToOneMore(given, rid, i, now);
      items[i] := items[i].(externalId := extID, name := name, restaurantId := rid);
      now := now[i := Tidied(given[i], rid)];
    }
    bad := None;
  }

  lemma {:induction false} TidiedIsValid(items: seq<MenuItem>, rid: int)
    requires forall i :: 0 <= i < |items| ==> Acceptable(items, i)
    ensures ValidBatch(InputsOf(TidiedUpTo(items, rid, |items|)))
  {
    var inputs := InputsOf(TidiedUpTo(items, rid, |items|));
    forall i | 0 <= i < |inputs| ensures inputs[i].priceCents >= 0 {
      assert Acceptable(items, i);
    }
    forall i, j | 0 <= i < j < |inputs| ensures inputs[i].externalId != inputs[j].externalId {
      assert Acceptable(items, j);
    }
  }

  // What is wrong with a batch: nothing in it, a blank name or id, a negative price, or an id twice.
  ghost predicate Unsendable(items: seq<MenuItem>) {
    || items == []
    || (exists i :: 0 <= i < |items| &&
          (TrimSpace(items[i].externalId) == "" || TrimSpace(items[i].name) == "" || items[i].priceCents < 0))
    || (exists i, j :: 0 <= i < j < |items| && TrimSpace(items[i].externalId) == TrimSpace(items[j].externalId))
  }

  lemma {:induction false} SendableMeans(items: seq<MenuItem>)
    ensures items != [] && (forall i :: 0 <= i < |items| ==> Acceptable(items, i)) <==> !Unsendable(items)
  {
    if !Unsendable(items) {
      forall i | 0 <= i < |items| ensures Acceptable(items, i) {}
    }
    if Unsendable(items) && items != [] {
      if i :| 0 <= i < |items| &&
              (TrimSpace(items[i].externalId) == "" || TrimSpace(items[i].name) == "" || items[i].priceCents < 0)
      {
        assert !Acceptable(items, i);
      } else {
        var i, j :| 0 <= i < j < |items| && TrimSpace(items[i].externalId) == TrimSpace(items[j].externalId);
        assert !Acceptable(items, j);
      }
    }
  }

  // Some row of the restaurant holds what was sent at one position.
  ghost predicate OnMenu(db: Db, rid: int, sent: MenuItem) {
    exists id :: id in db.menu.rows && Shows(db.menu.rows[id], rid, sent)
  }

  ghost predicate Shows(row: MenuItem, rid: int, sent: MenuItem) {
    && row.restaurantId == rid
    && row.externalId == TrimSpace(sent.externalId) && row.name == TrimSpace(sent.name)
    && row.priceCents == sent.priceCents && row.isAvailable == sent.isAvailable
  }

  // The batch has something for the row.
  ghost predicate Mentions(sent: seq<MenuItem>, rid: int, row: MenuItem) {
    row.restaurantId == rid && exists i :: 0 <= i < |sent| && TrimSpace(sent[i].externalId) == row.externalId
  }

  lemma {:induction false} SentIsStored(was: Db, given: seq<MenuItem>, rid: int, after: Db)
    requires forall i :: 0 <= i < |given| ==> Acceptable(given, i)
    requires BatchStored(was, rid, InputsOf(TidiedUpTo(given, rid, |given|)), after)
    ensures forall i :: 0 <= i < |given| ==> OnMenu(after, rid, given[i])
    ensures forall id :: id in was.menu.rows && !Mentions(given, rid, was.menu.rows[id]) ==>
      id in after.menu.rows && after.menu.rows[id] == was.menu.rows[id]
  {
    var items := InputsOf(TidiedUpTo(given, rid, |given|));
    TidiedIsValid(given, rid);
    forall i | 0 <= i < |given| ensures OnMenu(after, rid, given[i]) {
      assert IsLast(items, i);
      var t :| t in after.menu.rows && Holds(after.menu.rows[t], rid, items[i]);
      assert Shows(after.menu.rows[t], rid, given[i]);
    }
    forall id | id in was.menu.rows && !Mentions(given, rid, was.menu.rows[id])
      ensures id in after.menu.rows && after.menu.rows[id] == was.menu.rows[id]
    {
      forall i | 0 <= i < |items| ensures !Named(was.menu.rows[id], rid, items[i].externalId) {
        assert items[i].externalId == TrimSpace(given[i].externalId);
      }
    }
  }

  // The caller's slice after an accepted batch.
  ghost predicate Rewritten(sent: seq<MenuItem>, rid: int, now: seq<MenuItem>) {
    |now| == |sent| && forall i :: 0 <= i < |sent| ==>
      && now[i].externalId == TrimSpace(sent[i].externalId) && now[i].name == TrimSpace(sent[i].name)
      && now[i].restaurantId == rid
      && now[i].id == sent[i].id && now[i].priceCents == sent[i].priceCents && now[i].isAvailable == sent[i].isAvailable
  }

  /******* The services *******/

  // CancelOrder and the partner's UpdateOrderStatus as one step each, for comparison.
  function CancelOnce(db: Db, order: int, userId: string, rowId: int, stamp: int): (Db, Answer) {
    match CancelCheck(db, order, userId)
    case Some(e) => (db, Failed(e))
    case None => SetStatus(db, order, Cancelled, rowId, stamp)
  }

  function PartnerOnce(db: Db, rid: int, order: int, target: Status, rowId: int, stamp: int): (Db, Answer) {
    match PartnerCheck(db, rid, order, target)
    case Some(a) => (db, a)
    case None => SetStatus(db, order, target, rowId, stamp)
  }

  // When the second check passes, the order is the one that the atomic operation would place at that moment.
  lemma {:induction false} CreateOrderIs(
    before: Db, db: Db, userId: string, rid: int, request: seq<OrderItemCreate>, quote: Quote,
    order: int, ids: seq<int>, rowId: int, stamp: int)
    requires PlaceCheck(before, userId, rid, request) == None && db.restaurants == before.restaurants
    requires QuoteFor(RestaurantMenu(before.menu, rid), request) == Ok(quote)
    requires Revalidate(RestaurantMenu(db.menu, rid), quote.lines) == None
    requires Storable(quote) && |ids| == |quote.lines|
    ensures Tables.CreateOrder(db, userId, rid, request, order, ids, rowId, stamp) ==
            (PlaceOrder(db, TrimSpace(userId), rid, quote, order, ids, rowId, stamp), Done)
  {
    StaleQuoteIsCurrent(RestaurantMenu(before.menu, rid), RestaurantMenu(db.menu, rid), request);
  }

  // CancelOrder passed its check, then others acted, then the update was made.
  lemma {:induction false} CancelLater(before: Db, db: Db, order: int, userId: string, rowId: int, stamp: int)
    requires CancelCheck(before, order, userId) == None && Evolves(before, db)
    ensures var once := CancelOnce(db, order, userId, rowId, stamp);
      SetStatus(db, order, Cancelled, rowId, stamp) ==
      if once.1 == Failed(OrderAlreadyCancelled) then (once.0, Done) else once
  {
    assert OrderEvolves(before, db, order);
  }

  lemma {:induction false} PartnerLater(
    before: Db, db: Db, rid: int, order: int, target: Status, rowId: int, stamp: int)
    requires PartnerCheck(before, rid, order, target) == None && Evolves(before, db)
    ensures var once := PartnerOnce(db, rid, order, target, rowId, stamp);
      SetStatus(db, order, target, rowId, stamp) ==
      if target == Cancelled && once.1 == Failed(OrderAlreadyCancelled) then (once.0, Done) else once
  {
    assert OrderEvolves(before, db, order);
  }

  // What CreateOrder answers when it stores nothing and nothing goes wrong in the database. others are the
  // tables when the order is to be written.
  ghost predicate Explained(
    db: Db, others: Db, userId: string, rid: int, request: seq<OrderItemCreate>, error: Error)
  {
    match PlaceCheck(db, userId, rid, request)
    case Some(e) => error == e
    case None =>
      var quote := QuoteFor(RestaurantMenu(db.menu, rid), request).value;
      match Revalidate(RestaurantMenu(others.menu, rid), quote.lines)
      case Some(e) => error == e
      case None => error == DatabaseFailure && !Storable(quote)
  }

  // The same by its causes.
  ghost predicate NotPlaced(
    was: Db, others: Db, userId: string, rid: int, request: seq<OrderItemCreate>, error: Error)
  {
    || Unplaceable(was, userId, rid, request, error)
    || (Placeable(was, userId, rid, request) &&
        (|| Outdated(was, others, rid, request, error)
         || (Unchanged(was, others, rid, request) && !FitsColumns(was, rid, request) && error == DatabaseFailure)))
  }

  lemma {:induction false} ExplainedByCause(was: Db, others: Db, userId: string, rid: int, request: seq<OrderItemCreate>)
    requires ValidMenu(was.menu)
    ensures forall e :: Explained(was, others, userId, rid, request, e) ==> NotPlaced(was, others, userId, rid, request, e)
  {
    PlaceCheckByCause(was, userId, rid, request);
    if PlaceCheck(was, userId, rid, request) == None {
      RecheckByCause(was, others, rid, request);
      FitsMeansStorable(was, rid, request);
    }
  }

  lemma {:induction false} StoredByCause(
    was: Db, others: Db, userId: string, rid: int, request: seq<OrderItemCreate>, quote: Quote,
    order: int, itemIds: seq<int>, rowId: int, stamp: int)
    requires ValidMenu(was.menu) && PlaceCheck(was, userId, rid, request) == None
    requires QuoteFor(RestaurantMenu(was.menu, rid), request) == Ok(quote) && Storable(quote) && |itemIds| == |quote.lines|
    requires Revalidate(RestaurantMenu(others.menu, rid), quote.lines) == None
    ensures Placeable(was, userId, rid, request) && Unchanged(was, others, rid, request) && FitsColumns(was, rid, request)
    ensures PlacedAs(was, others, userId, rid, request, order, stamp,
                     PlaceOrder(others, TrimSpace(userId), rid, quote, order, itemIds, rowId, stamp))
  {
    PlaceCheckByCause(was, userId, rid, request);
    RecheckByCause(was, others, rid, request);
    FitsMeansStorable(was, rid, request);
    PlacedByColumns(was, others, userId, rid, request, quote, order, itemIds, rowId, stamp);
  }

  class OrderService {
    const repo: Repo

    constructor (repo: Repo)
      ensures this.repo == repo
    {
      this.repo := repo;
    }

    // The order as it is handed to the repository, and how that ended.
    method PlaceQuoted(userId: string, rid: int, quote: Quote, now: int, fault: Option<Call>)
      returns (order: Order, answer: Answer, eventId: int, ghost stored: bool)
      requires repo.Valid() && rid in repo.db.restaurants && quote.totalCents == Wrap(LineTotal(quote.lines))
      modifies repo
      ensures repo.Valid() && (old(repo.Sound()) ==> repo.Sound())
      ensures fresh(order) && fresh(order.items) && order.items.Length == |quote.lines|
      ensures answer == Done <==> stored && fault != Some(CommitUnacked)
      ensures stored && answer.Failed? ==> answer.error == DatabaseFailure
      ensures stored ==> Storable(quote) && order.items[..] == ItemRows(order.id, quote.lines, ItemIds(order.items[..]))
      ensures stored ==> Revalidate(RestaurantMenu(old(repo.db.menu), rid), quote.lines) == None
      ensures stored ==> repo.db == PlaceOrder(old(repo.db), userId, rid, quote, order.id,
                                               ItemIds(order.items[..]), eventId, now)
      ensures !stored ==> repo.db == old(repo.db)
      ensures !stored && (fault == None || fault == Some(CommitUnacked)) ==>
        match Revalidate(RestaurantMenu(old(repo.db.menu), rid), quote.lines)
        case Some(e) => answer == Failed(e)
        case None => answer == Failed(DatabaseFailure) && !Storable(quote)
    {
      var items := new ItemRow[|quote.lines|](i requires 0 <= i < |quote.lines| => ItemRow(0, 0, quote.lines[i]));
      order := new Order(userId, rid, quote.totalCents, items);
      assert order.Lines() == quote.lines;
      assert repo.ProblemIn(order) == Revalidate(RestaurantMenu(repo.db.menu, rid), quote.lines);
      answer, eventId, stored := repo.CreateOrder(order, now, fault);
      assert repo.QuoteIn(order) == quote;
    }

    // Everything up to the quote.
    method QuoteRequest(userId: string, rid: int, request: seq<OrderItemCreate>, fault: Option<Call>)
      returns (priced: Result<Quote>)
      requires repo.Valid()
      ensures priced.Ok? ==>
        PlaceCheck(repo.db, userId, rid, request) == None && priced == QuoteFor(RestaurantMenu(repo.db.menu, rid), request)
      ensures priced.Err? ==>
        || (priced.error == DatabaseFailure && (fault == Some(ReadRestaurant) || fault == Some(ReadMenu)))
        || PlaceCheck(repo.db, userId, rid, request) == Some(priced.error)
    {
      var user := TrimSpace(userId);
      if |request| == 0 || |user| == 0 { return Err(InvalidData); }
      if fault == Some(ReadRestaurant) { return Err(DatabaseFailure); }
      if rid !in repo.db.restaurants { return Err(RestaurantNotFound); }
      if !repo.db.restaurants[rid] { return Err(RestaurantUnavailable); }
      if fault == Some(ReadMenu) { return Err(DatabaseFailure); }
      var menu := repo.GetMenuByRestaurantID(rid);
      priced := Price(menu, request);
    }

    /*
     others are the tables once the menu was read and priced: anybody may have changed menus and orders by
     then. The order is placed as the atomic operation places it on those tables, or not at all.
     */
    method CreateOrder(
      userId: string, rid: int, request: seq<OrderItemCreate>, now: int, fault: Option<Call>, others: Db, next: int)
      returns (r: Result<Order>, eventId: int, ghost stored: bool)
      requires repo.Valid() && repo.MayBecome(others, next)
      modifies repo
      ensures repo.Valid() && (old(repo.Sound()) && DbOk(others) ==> repo.Sound())
      ensures r.Ok? <==> stored && fault != Some(CommitUnacked)
      ensures !stored ==> repo.db == old(repo.db) || repo.db == others
      ensures PlaceCheck(old(repo.db), userId, rid, request).Some? ==> r.Err? && repo.db == old(repo.db)
      ensures stored ==> exists order, ids ::
        (repo.db, Done) == Tables.CreateOrder(others, userId, rid, request, order, ids, eventId, now)
      ensures r.Ok? ==>
        (repo.db, Done) == Tables.CreateOrder(others, userId, rid, request, r.value.id,
                                              ItemIds(r.value.items[..]), eventId, now)
      ensures stored && r.Err? ==> r.error == DatabaseFailure
      ensures !stored && (fault == None || fault == Some(CommitUnacked)) ==>
        r.Err? && Explained(old(repo.db), others, userId, rid, request, r.error)
      // By the rows of the menu, of restaurants and of orders:
      ensures !stored && (fault == None || fault == Some(CommitUnacked)) ==>
        NotPlaced(old(repo.db), others, userId, rid, request, r.error)
      ensures stored ==>
        && Placeable(old(repo.db), userId, rid, request) && Unchanged(old(repo.db), others, rid, request)
        && FitsColumns(old(repo.db), rid, request)
        && exists order :: PlacedAs(old(repo.db), others, userId, rid, request, order, now, repo.db)
      ensures r.Ok? ==> PlacedAs(old(repo.db), others, userId, rid, request, r.value.id, now, repo.db)
    {
      ExplainedByCause(repo.db, others, userId, rid, request);
      eventId, stored := 0, false;
      ghost var before: Db := repo.db;
      var priced := QuoteRequest(userId, rid, request, fault);
      if priced.Err? { return Err(priced.error), eventId, false; }
      repo.Meanwhile(others, next);
      QuoteMeaning(RestaurantMenu(before.menu, rid), request);
      var order, answer;
      order, answer, eventId, stored := PlaceQuoted(TrimSpace(userId), rid, priced.value, now, fault);
      if stored {
        CreateOrderIs(before, others, userId, rid, request, priced.value, order.id, ItemIds(order.items[..]), eventId, now);
        StoredByCause(before, others, userId, rid, request, priced.value, order.id, ItemIds(order.items[..]), eventId, now);
      }
      r := match answer case Done => Ok(order) case Failed(e) => Err(e);
    }

    /*
     others are the tables once the check was passed. The cancel is then the atomic one on those tables, except
     that an order somebody else has cancelled in between is answered with success.
     */
    method CancelOrder(order: int, userId: string, now: int, fault: Option<Call>, others: Db, next: int)
      returns (answer: Answer)
      requires repo.Valid() && repo.MayBecome(others, next)
      modifies repo
      ensures repo.Valid() && (old(repo.Sound()) && DbOk(others) ==> repo.Sound())
      ensures CancelCheck(old(repo.db), order, userId).Some? ==>
        && repo.db == old(repo.db)
        && answer == Failed(if fault == Some(ReadOrder) && TrimSpace(userId) != "" && order > 0 then DatabaseFailure
                            else CancelCheck(old(repo.db), order, userId).value)
      ensures CancelCheck(old(repo.db), order, userId) == None ==>
        var once := CancelOnce(others, order, userId, next, now);
        || (repo.db == once.0 && answer == if once.1 == Failed(OrderAlreadyCancelled) then Done else once.1)
        || (answer == Failed(DatabaseFailure) && AllOrNothing(others, once.0, repo.db, fault))
        || (answer == Failed(DatabaseFailure) && repo.db == old(repo.db) && fault == Some(ReadOrder))
      // By the row of the order:
      ensures fault != Some(ReadOrder) && !Cancellable(old(repo.db), order, userId) ==>
        answer.Failed? && Uncancellable(old(repo.db), order, userId, answer.error) && repo.db == old(repo.db)
      ensures fault == None && Cancellable(old(repo.db), order, userId) ==>
        StatusSet(others, order, Cancelled, now, repo.db, answer)
    {
      CancelCheckByCause(repo.db, order, userId);
      var user := TrimSpace(userId);
      if |user| == 0 || order <= 0 { return Failed(InvalidData); }
      if fault == Some(ReadOrder) { return Failed(DatabaseFailure); }
      if order !in repo.db.orders { return Failed(OrderNotFound); }
      var row := repo.db.orders[order];
      if row.userId != user { return Failed(AccessDenied); }
      if row.status == Cancelled { return Failed(OrderAlreadyCancelled); }
      if !CanTransition(row.status, Cancelled) { return Failed(InvalidStatusTransition); }
      CancelLater(repo.db, others, order, userId, next, now);
      repo.Meanwhile(others, next);
      answer := repo.UpdateOrderStatus(order, Cancelled, now, fault);
    }
  }

  class PartnerService {
    const repo: Repo

    constructor (repo: Repo)
      ensures this.repo == repo
    {
      this.repo := repo;
    }

    /* As above: a target of cancelled that was reached in between is answered with success. */
    method UpdateOrderStatus(
      rid: int, order: int, target: Status, now: int, fault: Option<Call>, others: Db, next: int)
      returns (answer: Answer)
      requires repo.Valid() && repo.MayBecome(others, next)
      modifies repo
      ensures repo.Valid() && (old(repo.Sound()) && DbOk(others) ==> repo.Sound())
      ensures PartnerCheck(old(repo.db), rid, order, target).Some? ==>
        && repo.db == old(repo.db)
        && answer == if fault == Some(ReadOrder) && rid > 0 && order > 0 && Validate(target) then Failed(DatabaseFailure)
                     else PartnerCheck(old(repo.db), rid, order, target).value
      ensures PartnerCheck(old(repo.db), rid, order, target) == None ==>
        var once := PartnerOnce(others, rid, order, target, next, now);
        || (repo.db == once.0 &&
            answer == if target == Cancelled && once.1 == Failed(OrderAlreadyCancelled) then Done else once.1)
        || (answer == Failed(DatabaseFailure) && AllOrNothing(others, once.0, repo.db, fault))
        || (answer == Failed(DatabaseFailure) && repo.db == old(repo.db) && fault == Some(ReadOrder))
      // By the row of the order:
      ensures fault != Some(ReadOrder) && !PartnerMay(old(repo.db), rid, order, target) ==>
        ToldAtOnce(old(repo.db), rid, order, target, answer) && repo.db == old(repo.db)
      ensures fault == None && PartnerMay(old(repo.db), rid, order, target) ==>
        StatusSet(others, order, target, now, repo.db, answer)
    {
      PartnerCheckByCause(repo.db, rid, order, target);
      if rid <= 0 || order <= 0 || !Validate(target) { return Failed(InvalidData); }
      if fault == Some(ReadOrder) { return Failed(DatabaseFailure); }
      if order !in repo.db.orders { return Failed(OrderNotFound); }
      var row := repo.db.orders[order];
      if row.restaurantId != rid { return Failed(AccessDenied); }
      if row.status == Cancelled { return Failed(OrderAlreadyCancelled); }
      if row.status == target { return Done; }
      if !CanTransition(row.status, target) { return Failed(InvalidStatusTransition); }
      PartnerLater(repo.db, others, rid, order, target, next, now);
      repo.Meanwhile(others, next);
      answer := repo.UpdateOrderStatus(order, target, now, fault);
    }

    // The caller's slice after a batch with an unacceptable position: tidied up to the first of those.
    static ghost predicate TidiedToFirstBad(given: seq<MenuItem>, rid: int, after: seq<MenuItem>) {
      exists bad :: 0 <= bad < |given| && !Acceptable(given, bad) && TidyUpTo(given, rid, bad, after)
    }

    method UpsertMenu(rid: int, items: array<MenuItem>, now: int, fault: Option<Call>) returns (answer: Answer)
      requires repo.Valid()
      modifies repo, items
      ensures repo.Valid() && (old(repo.Sound()) ==> repo.Sound())
      ensures rid <= 0 || items.Length == 0 ==>
        answer == Failed(InvalidData) && repo.db == old(repo.db) && items[..] == old(items[..])
      ensures rid > 0 && (exists i :: 0 <= i < items.Length && !Acceptable(old(items[..]), i)) ==>
        && answer == Failed(InvalidData) && repo.db == old(repo.db)
        && TidiedToFirstBad(old(items[..]), rid, items[..])
      ensures (forall i :: 0 <= i < items.Length ==> Acceptable(old(items[..]), i)) && rid > 0 && items.Length > 0 ==>
        && items[..] == TidiedUpTo(old(items[..]), rid, items.Length)
        && var whole := Tables.UpsertMenu(old(repo.db), rid, InputsOf(items[..]), IdsFrom(old(repo.nextId), items.Length));
           || (repo.db, answer) == whole
           || (answer == Failed(DatabaseFailure) && AllOrNothing(old(repo.db), whole.0, repo.db, fault))
      // By the columns of the rows and of what was sent:
      ensures answer == Failed(InvalidData) <==> rid <= 0 || Unsendable(old(items[..]))
      ensures answer == Failed(InvalidData) ==> repo.db == old(repo.db)
      ensures fault == None && answer != Failed(InvalidData) ==>
        if rid in old(repo.db.restaurants) then answer == Done else answer == Failed(DatabaseFailure) && repo.db == old(repo.db)
      ensures answer == Done ==> forall i :: 0 <= i < items.Length ==>
        exists id :: id in repo.db.menu.rows && Shows(repo.db.menu.rows[id], rid, old(items[..])[i])
      ensures answer == Done ==> forall id ::
        id in old(repo.db.menu.rows) && !Mentions(old(items[..]), rid, old(repo.db.menu.rows)[id]) ==>
        id in repo.db.menu.rows && repo.db.menu.rows[id] == old(repo.db.menu.rows)[id]
      ensures answer != Failed(InvalidData) ==> Rewritten(old(items[..]), rid, items[..])
    {
      SendableMeans(items[..]);
      if rid <= 0 || items.Length == 0 { return Failed(InvalidData); }
      ghost var given := items[..];
      var bad := Tidy(items, rid);
      if bad.Some? { return Failed(InvalidData); }
      TidiedIsValid(given, rid);
      ghost var was := repo.db;
      answer := repo.UpsertMenuItems(rid, InputsOf(items[..]), fault);
      if answer == Done {
        SentIsStored(was, given, rid, repo.db);
        assert forall i :: 0 <= i < |given| ==> OnMenu(repo.db, rid, given[i]);
      }
    }
  }
}
