/**
 The repository as the program it is: a transaction works on private copies of the tables, statement by
 statement, and either publishes all of them or none. Any single database call may fail.
 */
module Repository {
  import opened Common
  import opened Int64
  import opened Statuses
  import opened Menu
  import opened Pricing
  import opened Tables
  import opened Causes

  // The database calls, as places where the driver may report an error. The unacknowledged ones take
  // effect all the same: the answer of the server is lost.
  datatype Call =
    | BeginTx
    | CommitTx
    | CommitUnacked
    | SelectStatus
    | UpdateStatus
    | SelectMenu
    | InsertOrder
    | InsertItem(i: nat)
    | InsertEvent
    | InsertOutbox
    | UpsertItem(i: nat)
    | MarkRow
    | MarkUnacked
    | ReadRestaurant
    | ReadMenu
    | ReadOrder

  /* The order a caller hands to CreateOrder: the generated ids are filled in while it is stored. */
  class Order {
    var id: int
    var userId: string
    var restaurantId: int
    var totalCents: int
    var items: array<ItemRow>

    constructor (userId: string, restaurantId: int, totalCents: int, items: array<ItemRow>)
      ensures this.userId == userId && this.restaurantId == restaurantId && this.totalCents == totalCents
      ensures this.items == items
    {
      this.id, this.userId, this.restaurantId, this.totalCents, this.items := 0, userId, restaurantId, totalCents, items;
    }

    ghost function Lines(): (lines: seq<OrderLine>)
      reads this, items
    {
      LinesOf(items[..])
    }
  }

  // What an operation that reports a failing call has done: nothing, or all of it if only the
  // acknowledgement of the commit was lost.
  ghost predicate AllOrNothing(before: Db, whole: Db, after: Db, fault: Option<Call>) {
    fault.Some? && (after == before || (fault == Some(CommitUnacked) && after == whole))
  }

  function IdsFrom(start: int, n: nat): (ids: seq<int>)
    ensures |ids| == n && forall i :: 0 <= i < n ==> ids[i] == start + i
  {
    seq(n, i => start + i)
  }

  function ItemIds(rows: seq<ItemRow>): (ids: seq<int>)
    ensures |ids| == |rows|
  {
    seq(|rows|, i requires 0 <= i < |rows| => rows[i].id)
  }

  // Every id in the tables was handed out by the counters, which stand at next.
  ghost predicate Below(db: Db, next: int) {
    && (forall i :: i in db.menu.rows ==> i < next)
    && (forall o :: o in db.orders ==> o < next)
    && (forall k :: 0 <= k < |db.outbox| ==> db.outbox[k].id < next)
  }

  lemma {:induction false} NextIsFresh(db: Db, next: int, i: int)
    requires Below(db, next) && next <= i
    ensures i !in db.orders && i !in db.menu.rows && FreshRow(db.outbox, i)
  {}

  lemma {:induction false} SetStatusBelow(db: Db, next: int, order: int, target: Status, stamp: int)
    requires Below(db, next)
    ensures Below(SetStatus(db, order, target, next, stamp).0, next + 1)
  {}

  lemma {:induction false} PlaceOrderBelow(
    db: Db, next: int, userId: string, rid: int, quote: Quote, ids: seq<int>, rowId: int, stamp: int)
    requires Below(db, next) && |ids| == |quote.lines| && next < rowId
    ensures Below(PlaceOrder(db, userId, rid, quote, next, ids, rowId, stamp), rowId + 1)
  {}

  // Only the rows that the lines name are looked up.
  lemma {:induction false} RevalidateNamed(all: map<int, MenuItem>, rows: map<int, MenuItem>, lines: seq<OrderLine>)
    requires forall i :: 0 <= i < |lines| ==>
      (lines[i].menuItemId in rows <==> lines[i].menuItemId in all) &&
      (lines[i].menuItemId in all ==> rows[lines[i].menuItemId] == all[lines[i].menuItemId])
    ensures Revalidate(rows, lines) == Revalidate(all, lines)
  {
    if lines != [] {
      assert forall i :: 0 <= i < |lines[1..]| ==> lines[1..][i] == lines[i + 1];
      RevalidateNamed(all, rows, lines[1..]);
    }
  }

  // What the constraints of the database guarantee by themselves: every id was handed out by the counters, which
  // stand at next, menu rows are found by their keys, and outbox rows by their ids.
  ghost predicate Constrained(db: Db, next: int) {
    0 < next && Below(db, next) && ValidMenu(db.menu) && RowIdsDistinct(db.outbox)
  }

  // The operation keeps the constraints, and the invariant of the tables if they had it and right holds.
  ghost predicate Keeps(before: Db, after: Db, next: int, right: bool) {
    Constrained(after, next) && (DbOk(before) && right ==> DbOk(after))
  }

  lemma {:induction false} SetStatusConstrained(db: Db, next: int, order: int, target: Status, stamp: int)
    requires Constrained(db, next)
    ensures Keeps(db, SetStatus(db, order, target, next, stamp).0, next + 1, true)
  {
    NextIsFresh(db, next, next);
    SetStatusBelow(db, next, order, target, stamp);
    if DbOk(db) {
      SetStatusKeeps(db, order, target, next, stamp);
    }
  }

  lemma {:induction false} PlaceOrderConstrained(
    db: Db, next: int, userId: string, rid: int, quote: Quote, ids: seq<int>, rowId: int, stamp: int)
    requires Constrained(db, next) && Storable(quote) && |ids| == |quote.lines| && next < rowId
    ensures Keeps(db, PlaceOrder(db, userId, rid, quote, next, ids, rowId, stamp), rowId + 1,
                  quote.totalCents == Wrap(LineTotal(quote.lines)))
  {
    NextIsFresh(db, next, next);
    NextIsFresh(db, next, rowId);
    PlaceOrderBelow(db, next, userId, rid, quote, ids, rowId, stamp);
    PlaceOrderRowIds(db, userId, rid, quote, next, ids, rowId, stamp);
    if DbOk(db) && quote.totalCents == Wrap(LineTotal(quote.lines)) {
      PlaceOrderKeeps(db, userId, rid, quote, next, ids, rowId, stamp);
    }
  }

  lemma {:induction false} UpsertMenuConstrained(db: Db, next: int, rid: int, items: seq<MenuInput>)
    requires Constrained(db, next)
    ensures Keeps(db, UpsertMenu(db, rid, items, IdsFrom(next, |items|)).0, next + |items|, true)
  {
    var ids := IdsFrom(next, |items|);
    assert FreshIds(db.menu, ids);
    if PricesOk(items) {
      UpsertAllStaysValid(db.menu, rid, items, ids);
    }
    if DbOk(db) {
      UpsertMenuKeeps(db, rid, items, ids);
    }
  }

  lemma {:induction false} MarkConstrained(db: Db, next: int, rowId: int)
    requires Constrained(db, next)
    ensures Keeps(db, MarkProcessed(db, rowId), next, true)
  {
    if DbOk(db) {
      MarkProcessedKeeps(db, rowId);
    }
  }

  // Every position is in the table column by column, unless a later one has the same name; rows of other names
  // are as they were, and so is every other table.
  ghost predicate BatchStored(was: Db, rid: int, items: seq<MenuInput>, after: Db) {
    && after == was.(menu := after.menu)
    && (forall i :: 0 <= i < |items| && IsLast(items, i) ==> InTable(was.menu, rid, items, i, after.menu))
    && (forall r :: r in was.menu.rows && (forall i :: 0 <= i < |items| ==> !Named(was.menu.rows[r], rid, items[i].externalId)) ==>
          r in after.menu.rows && after.menu.rows[r] == was.menu.rows[r])
    && (forall r :: r in after.menu.rows && r !in was.menu.rows ==>
          exists i :: 0 <= i < |items| && Named(after.menu.rows[r], rid, items[i].externalId))
  }

  lemma {:induction false} BatchByColumns(db: Db, next: int, rid: int, items: seq<MenuInput>)
    requires Constrained(db, next) && PricesOk(items) && rid in db.restaurants
    ensures BatchStored(db, rid, items, UpsertMenu(db, rid, items, IdsFrom(next, |items|)).0)
  {
    var ids, was := IdsFrom(next, |items|), db.menu;
    assert FreshIds(was, ids);
    forall i | 0 <= i < |items| && IsLast(items, i) ensures InTable(was, rid, items, i, UpsertAll(was, rid, items, ids)) {
      BatchIsStored(was, rid, items, ids, i);
    }
    forall r | r in was.rows && forall i :: 0 <= i < |items| ==> !Named(was.rows[r], rid, items[i].externalId)
      ensures r in UpsertAll(was, rid, items, ids).rows && UpsertAll(was, rid, items, ids).rows[r] == was.rows[r]
    {
      OthersStay(was, rid, items, ids, r);
    }
    forall r | r in UpsertAll(was, rid, items, ids).rows && r !in was.rows
      ensures exists i :: 0 <= i < |items| && Named(UpsertAll(was, rid, items, ids).rows[r], rid, items[i].externalId)
    {
      NothingElse(was, rid, items, ids, r);
    }
  }

  // menuMap: rows by id, later rows win.
  function MapOf(menu: seq<MenuItem>): map<int, MenuItem> {
    if menu == [] then map[] else MapOf(menu[..|menu| - 1])[menu[|menu| - 1].id := menu[|menu| - 1]]
  }

  lemma {:induction false} MapOfOneMore(menu: seq<MenuItem>, row: MenuItem)
    ensures MapOf(menu + [row]) == MapOf(menu)[row.id := row]
  {
    assert (menu + [row])[..|menu|] == menu;
  }

  // The rows of all that are not left, each once.
  ghost predicate Listed(menu: seq<MenuItem>, all: map<int, MenuItem>, left: set<int>) {
    && (forall id :: id in left ==> id in all)
    && (forall row :: row in menu <==> row.id in all && row.id !in left && all[row.id] == row)
    && (forall i, j :: 0 <= i < j < |menu| ==> menu[i].id != menu[j].id)
    && MapOf(menu) == map id | id in all && id !in left :: all[id]
  }

  lemma {:induction false} ListedOneMore(menu: seq<MenuItem>, all: map<int, MenuItem>, left: set<int>, id: int)
    requires Listed(menu, all, left) && id in left && all[id].id == id
    ensures Listed(menu + [all[id]], all, left - {id})
  {
    MapOfOneMore(menu, all[id]);
    forall i | 0 <= i < |menu| ensures menu[i].id != id {
      assert menu[i] in menu;
    }
  }

  class Repo {
    // The committed tables behind the connection pool.
    var db: Db
    // The identity columns and uuid generators, as one counter.
    var nextId: int

    ghost predicate Valid()
      reads this
    {
      Constrained(db, nextId)
    }

    // The invariant of the tables, which every transaction keeps.
    ghost predicate Sound()
      reads this
    {
      DbOk(db)
    }

    constructor (restaurants: map<int, bool>)
      ensures Valid() && Sound() && db == Db(restaurants, MenuTable(map[], map[]), map[], [], [], [])
    {
      db := Db(restaurants, MenuTable(map[], map[]), map[], [], [], []);
      nextId := 1;
    }

    method UpdateOrderStatus(order: int, target: Status, now: int, fault: Option<Call>) returns (answer: Answer)
      requires Valid()
      modifies this
      ensures Valid() && nextId >= old(nextId) && (old(Sound()) ==> Sound())
      ensures
        || (db, answer) == SetStatus(old(db), order, target, old(nextId), now)
        || (answer == Failed(DatabaseFailure) &&
            AllOrNothing(old(db), SetStatus(old(db), order, target, old(nextId), now).0, db, fault))
      ensures fault == Some(CommitUnacked) ==> db == SetStatus(old(db), order, target, old(nextId), now).0
      ensures fault == None ==> StatusSet(old(db), order, target, now, db, answer)
    {
      SetStatusByCause(db, order, target, nextId, now);
      if fault == Some(BeginTx) || fault == Some(SelectStatus) { return Failed(DatabaseFailure); }
      if order !in db.orders { return Failed(OrderNotFound); }
      var oldStatus := db.orders[order].status;
      if oldStatus == target {
        return if fault == Some(CommitTx) || fault == Some(CommitUnacked) then Failed(DatabaseFailure) else Done;
      }
      if !CanTransition(oldStatus, target) {
        return Failed(if oldStatus == Cancelled then OrderAlreadyCancelled else InvalidStatusTransition);
      }

      var tx: Db := db;
      if fault == Some(UpdateStatus) { return Failed(DatabaseFailure); }
      tx := tx.(orders := tx.orders[order := tx.orders[order].(status := target)]);
      var restID := tx.orders[order].restaurantId;

      if fault == Some(InsertEvent) { return Failed(DatabaseFailure); }
      tx := tx.(events := tx.events + [EventRow(order, Some(oldStatus), target)]);

      if target == Cancelled {
        if fault == Some(InsertOutbox) { return Failed(DatabaseFailure); }
        tx := tx.(outbox := tx.outbox + [CancelRow(nextId, order, restID, now)]);
      }

      if fault == Some(CommitTx) { return Failed(DatabaseFailure); }
      SetStatusConstrained(db, nextId, order, target, now);
      assert tx == SetStatus(db, order, target, nextId, now).0 by {
        assert db.outbox + [] == db.outbox;
      }
      db, nextId := tx, nextId + 1;
      answer := if fault == Some(CommitUnacked) then Failed(DatabaseFailure) else Done;
    }

    // The loop over the rows that were read again under FOR SHARE.
    method Recheck(order: Order, rows: map<int, MenuItem>) returns (problem: Option<Error>)
      ensures problem == Revalidate(rows, order.Lines())
    {
      ghost var lines := order.Lines();
      RevalidateMeaning(rows, lines);
      var k := 0;
      while k < order.items.Length
        invariant 0 <= k <= |lines| == order.items.Length
        invariant StillTrue(rows, lines[..k])
      {
        var item := order.items[k].line;
        assert lines[..k + 1] == lines[..k] + [lines[k]];
        if item.menuItemId !in rows {
          RevalidateAt(rows, lines, k);
          return Some(InvalidData);
        }
        var row := rows[item.menuItemId];
        if !row.isAvailable {
          RevalidateAt(rows, lines, k);
          return Some(MenuItemUnavailable);
        }
        if row.priceCents != item.unitPriceCents {
          RevalidateAt(rows, lines, k);
          return Some(InvalidData);
        }
        k := k + 1;
      }
      assert lines[..k] == lines;
      problem := None;
    }

    // INSERT INTO order_items, position by position; the ids land in the order itself.
    method InsertItems(order: Order, firstId: int, fault: Option<Call>) returns (rows: seq<ItemRow>, ok: bool)
      modifies order.items
      ensures order.Lines() == old(order.Lines())
      ensures ok ==> rows == order.items[..] == ItemRows(order.id, order.Lines(), ItemIds(order.items[..]))
      ensures ok ==> forall i :: 0 <= i < |rows| ==> rows[i].id == firstId + i
      ensures ok ==> forall i :: 0 <= i < order.items.Length ==> StorableLine(order.Lines()[i])
      ensures !ok ==> (fault.Some? && fault.value.InsertItem?) ||
                      exists i :: 0 <= i < order.items.Length && !StorableLine(order.Lines()[i])
    {
      ghost var lines := order.Lines();
      rows := [];
      var i := 0;
      while i < order.items.Length
        invariant 0 <= i <= order.items.Length == |lines|
        invariant order.Lines() == lines
        invariant order.items[..i] == rows
        invariant forall k :: 0 <= k < i ==> rows[k].orderId == order.id && rows[k].line == lines[k]
        invariant forall k :: 0 <= k < i ==> rows[k].id == firstId + k
        invariant forall k :: 0 <= k < i ==> StorableLine(lines[k])
      {
        var line := order.items[i].line;
        assert line == lines[i];
        order.items[i] := ItemRow(order.items[i].id, order.id, line);
        if fault == Some(InsertItem(i)) || !StorableLine(line) {
          assert LinesOf(order.items[..]) == lines;
          return rows, false;
        }
        order.items[i] := ItemRow(firstId + i, order.id, line);
        rows := rows + [ItemRow(firstId + i, order.id, line)];
        i := i + 1;
        assert LinesOf(order.items[..]) == lines;
      }
      assert order.items[..i] == order.items[..];
      assert rows == ItemRows(order.id, lines, ItemIds(rows));
      ok := true;
    }

    // SELECT ... FOR SHARE of the menu rows that the order names.
    method SelectMenuRows(order: Order) returns (rows: map<int, MenuItem>)
      ensures Revalidate(rows, order.Lines()) == Revalidate(RestaurantMenu(db.menu, order.restaurantId), order.Lines())
    {
      ghost var lines := order.Lines();
      var menuIDs: set<int> := {};
      var k := 0;
      while k < order.items.Length
        invariant 0 <= k <= order.items.Length
        invariant forall i :: 0 <= i < k ==> lines[i].menuItemId in menuIDs
      {
        menuIDs := menuIDs + {order.items[k].line.menuItemId};
        assert lines[k] == order.items[k].line;
        k := k + 1;
      }
      var all := RestaurantMenu(db.menu, order.restaurantId);
      rows := map id | id in all && id in menuIDs :: all[id];
      RevalidateNamed(all, rows, lines);
    }

    // The quote that an order carries.
    ghost function QuoteIn(order: Order): Quote
      reads order, order.items
    {
      Quote(order.Lines(), order.totalCents)
    }

    // What the second check finds.
    ghost function ProblemIn(order: Order): Option<Error>
      reads this, order, order.items
    {
      Revalidate(RestaurantMenu(db.menu, order.restaurantId), order.Lines())
    }

    // The foreign key to the restaurant and the CHECKs let the rows in.
    ghost predicate Insertable(db: Db, order: Order)
      reads order, order.items
    {
      order.restaurantId in db.restaurants && Storable(QuoteIn(order))
    }

    // The total of the order is the sum of its lines as a word.
    ghost predicate TotalRight(order: Order)
      reads order, order.items
    {
      order.totalCents == Wrap(LineTotal(order.Lines()))
    }

    // The order is stored as a whole, its ids filled in.
    ghost predicate Stored(before: Db, firstId: int, order: Order, eventId: int, now: int)
      reads this, order, order.items
    {
      && Insertable(before, order) && order.id == firstId
      && order.items[..] == ItemRows(order.id, order.Lines(), ItemIds(order.items[..]))
      && (forall i :: 0 <= i < order.items.Length ==> order.id < order.items[i].id == order.id + 1 + i < eventId)
      && db == PlaceOrder(before, order.userId, order.restaurantId, QuoteIn(order), order.id,
                          ItemIds(order.items[..]), eventId, now)
    }

    // The inserts, on a private copy of the tables; eventId is the uuid of the outbox row.
    method InsertAll(order: Order, eventId: int, now: int, fault: Option<Call>) returns (tx: Db, ok: bool)
      requires nextId + order.items.Length < eventId
      modifies order`id, order.items
      ensures QuoteIn(order) == old(QuoteIn(order))
      ensures ok ==>
        && Insertable(db, order) && order.id == nextId
        && order.items[..] == ItemRows(order.id, order.Lines(), ItemIds(order.items[..]))
        && (forall i :: 0 <= i < order.items.Length ==> order.id < order.items[i].id == order.id + 1 + i < eventId)
        && tx == PlaceOrder(db, order.userId, order.restaurantId, QuoteIn(order), order.id,
                            ItemIds(order.items[..]), eventId, now)
      ensures !ok ==> !Insertable(db, order) || (fault.Some? && fault != Some(CommitTx) && fault != Some(CommitUnacked))
    {
      ghost var quote := QuoteIn(order);
      tx := db;
      if fault == Some(InsertOrder) || order.totalCents < 0 || order.restaurantId !in db.restaurants { return tx, false; }
      order.id := nextId;
      tx := tx.(orders := tx.orders[order.id := OrderRow(order.userId, order.restaurantId, Created, order.totalCents)]);

      var newItems;
      newItems, ok := InsertItems(order, nextId + 1, fault);
      assert QuoteIn(order) == quote;
      if !ok { return; }
      tx := tx.(items := tx.items + newItems);

      if fault == Some(InsertEvent) { return tx, false; }
      tx := tx.(events := tx.events + [EventRow(order.id, None, Created)]);

      if fault == Some(InsertOutbox) { return tx, false; }
      tx := tx.(outbox := tx.outbox +
                          [CreatedRow(eventId, order.id, order.restaurantId, order.totalCents, newItems, now)]);
    }

    // The inserts and the commit; stored says that it took effect.
    method WriteOrder(order: Order, now: int, fault: Option<Call>) returns (ok: bool, eventId: int, ghost stored: bool)
      requires Valid()
      modifies this, order`id, order.items
      ensures Valid() && nextId >= old(nextId) && (old(Sound() && TotalRight(order)) ==> Sound())
      ensures QuoteIn(order) == old(QuoteIn(order))
      ensures ok <==> stored && fault != Some(CommitUnacked)
      ensures stored ==> Stored(old(db), old(nextId), order, eventId, now)
      ensures !stored ==> db == old(db) && (!Insertable(db, order) || (fault.Some? && fault != Some(CommitUnacked)))
    {
      eventId, stored := nextId + 1 + order.items.Length, false;
      var tx;
      tx, ok := InsertAll(order, eventId, now, fault);
      if !ok || fault == Some(CommitTx) { return false, eventId, false; }
      PlaceOrderConstrained(
        db, order.id, order.userId, order.restaurantId, QuoteIn(order), ItemIds(order.items[..]), eventId, now);
      db, nextId := tx, eventId + 1;
      ok, stored := fault != Some(CommitUnacked), true;
    }

    method CreateOrder(order: Order, now: int, fault: Option<Call>)
      returns (answer: Answer, eventId: int, ghost stored: bool)
      requires Valid()
      modifies this, order`id, order.items
      ensures Valid() && nextId >= old(nextId) && (old(Sound() && TotalRight(order)) ==> Sound())
      ensures QuoteIn(order) == old(QuoteIn(order))
      ensures answer == Done <==> stored && fault != Some(CommitUnacked)
      ensures stored ==> old(ProblemIn(order)) == None && Stored(old(db), old(nextId), order, eventId, now)
      ensures !stored ==> db == old(db)
      ensures stored && answer.Failed? ==> answer.error == DatabaseFailure
      ensures !stored && (fault == None || fault == Some(CommitUnacked)) ==>
        match old(ProblemIn(order))
        case Some(e) => answer == Failed(e)
        case None => answer == Failed(DatabaseFailure) && !Insertable(db, order)
    {
      eventId, stored := 0, false;
      if fault == Some(BeginTx) || fault == Some(SelectMenu) { return Failed(DatabaseFailure), eventId, false; }
      var rows := SelectMenuRows(order);
      var problem := Recheck(order, rows);
      if problem.Some? { return Failed(problem.value), eventId, false; }
      var ok;
      ok, eventId, stored := WriteOrder(order, now, fault);
      answer := if ok then Done else Failed(DatabaseFailure);
    }

    // The rows of one restaurant, available or not, in whatever order the database returns them.
    method GetMenuByRestaurantID(rid: int) returns (menu: seq<MenuItem>)
      requires Valid()
      ensures forall row :: row in menu <==> row.restaurantId == rid && row.id in db.menu.rows && db.menu.rows[row.id] == row
      ensures forall i, j :: 0 <= i < j < |menu| ==> menu[i].id != menu[j].id
      ensures MapOf(menu) == RestaurantMenu(db.menu, rid)
    {
      var all := RestaurantMenu(db.menu, rid);
      var left: set<int> := set id | id in all;
      menu := [];
      while left != {}
        invariant Listed(menu, all, left)
      {
        ghost var some := Member(left);
        var id :| id in left;
        ListedOneMore(menu, all, left, id);
        menu := menu + [all[id]];
        left := left - {id};
      }
    }

    // The statements of the batch, one after the other, on a private copy of the table.
    method SendBatch(rid: int, items: seq<MenuInput>, firstId: int, fault: Option<Call>)
      returns (table: MenuTable, ok: bool)
      ensures ok ==> table == UpsertAll(db.menu, rid, items, IdsFrom(firstId, |items|))
      ensures ok && items != [] ==> rid in db.restaurants && PricesOk(items)
      ensures !ok ==> items != [] && ((fault.Some? && fault.value.UpsertItem?) || rid !in db.restaurants || !PricesOk(items))
    {
      ghost var ids := IdsFrom(firstId, |items|);
      table := db.menu;
      var i := 0;
      assert items[..0] == [] && ids[..0] == [];
      while i < |items|
        invariant 0 <= i <= |items|
        invariant i > 0 ==> rid in db.restaurants && PricesOk(items[..i])
        invariant table == UpsertAll(db.menu, rid, items[..i], ids[..i])
      {
        if fault == Some(UpsertItem(i)) || rid !in db.restaurants || items[i].priceCents < 0 { return table, false; }
        table := UpsertRow(table, rid, items[i], firstId + i);
        assert items[..i + 1][..i] == items[..i] && ids[..i + 1][..i] == ids[..i];
        i := i + 1;
      }
      assert items[..i] == items && ids[..i] == ids;
      ok := true;
    }

    method UpsertMenuItems(rid: int, items: seq<MenuInput>, fault: Option<Call>) returns (answer: Answer)
      requires Valid()
      modifies this
      ensures Valid() && nextId >= old(nextId) && (old(Sound()) ==> Sound())
      ensures
        || (items == [] && db == old(db) && answer == Done)
        || (items != [] && (db, answer) == UpsertMenu(old(db), rid, items, IdsFrom(old(nextId), |items|)))
        || (answer == Failed(DatabaseFailure) &&
            AllOrNothing(old(db), UpsertMenu(old(db), rid, items, IdsFrom(old(nextId), |items|)).0, db, fault))
      ensures fault == Some(CommitUnacked) ==> db == UpsertMenu(old(db), rid, items, IdsFrom(old(nextId), |items|)).0
      ensures answer == Done ==> BatchStored(old(db), rid, items, db)
      ensures fault == None ==> (answer == Done <==> items == [] || (rid in old(db.restaurants) && PricesOk(items)))
    {
      if fault == Some(BeginTx) { return Failed(DatabaseFailure); }
      var table, ok := SendBatch(rid, items, nextId, fault);
      if !ok || fault == Some(CommitTx) { return Failed(DatabaseFailure); }
      if |items| > 0 {
        UpsertMenuConstrained(db, nextId, rid, items);
        BatchByColumns(db, nextId, rid, items);
        db := db.(menu := table);
        nextId := nextId + |items|;
      }
      answer := if fault == Some(CommitUnacked) then Failed(DatabaseFailure) else Done;
    }

    method MarkOutboxEventProcessed(rowId: int, fault: Option<Call>) returns (answer: Answer)
      requires Valid()
      modifies this`db
      ensures Valid() && (old(Sound()) ==> Sound())
      ensures db == if fault == Some(MarkRow) then old(db) else MarkProcessed(old(db), rowId)
      ensures answer == Done <==> fault != Some(MarkRow) && fault != Some(MarkUnacked)
      ensures answer.Failed? ==> answer.error == DatabaseFailure
    {
      if fault == Some(MarkRow) { return Failed(DatabaseFailure); }
      MarkConstrained(db, nextId, rowId);
      db := MarkProcessed(db, rowId);
      answer := if fault == Some(MarkUnacked) then Failed(DatabaseFailure) else Done;
    }

    // Between two calls of a service, the transactions of others may commit anything.
    ghost predicate MayBecome(others: Db, next: int)
      reads this
    {
      Evolves(db, others) && nextId <= next && Constrained(others, next)
    }

    method Meanwhile(others: Db, next: int)
      requires Valid() && MayBecome(others, next)
      modifies this
      ensures Valid() && db == others && nextId == next
    {
      db, nextId := others, next;
    }
  }
}
