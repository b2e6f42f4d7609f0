/** The read paths that join orders with their items: GetOrdersByUserID and GetOrdersByRestaurantAndStatus. */
module Queries {
  import opened Common
  import opened Int64
  import opened Statuses
  import opened Pricing
  import opened Tables
  import opened Repository

  // The WHERE clauses of the two queries; without a status every order of the restaurant is wanted.
  datatype Wanted = ByUser(userId: string) | ByRestaurant(rid: int, status: Option<Status>)

  predicate Matches(w: Wanted, row: OrderRow) {
    match w
    case ByUser(userId) => row.userId == userId
    case ByRestaurant(rid, status) => row.restaurantId == rid && (status == None || status == Some(row.status))
  }

  datatype OrderView = OrderView(id: int, row: OrderRow, items: seq<ItemRow>)

  // itemsMap after the rows in rows.
  ghost predicate Grouped(rows: seq<ItemRow>, itemsMap: map<int, seq<ItemRow>>) {
    forall o :: ItemsOf(rows, o) == if o in itemsMap then itemsMap[o] else []
  }

  /* The loop over the item rows, in whatever order the query returned them. */
  method GroupItems(rows: seq<ItemRow>) returns (itemsMap: map<int, seq<ItemRow>>)
    ensures Grouped(rows, itemsMap)
  {
    itemsMap := map[];
    assert rows[..0] == [];
    for k := 0 to |rows|
      invariant Grouped(rows[..k], itemsMap)
    {
      var item := rows[k];
      assert rows[..k + 1] == rows[..k] + [item];
      ghost var before := itemsMap;
      itemsMap := itemsMap[item.orderId := (if item.orderId in itemsMap then itemsMap[item.orderId] else []) + [item]];
      forall o ensures ItemsOf(rows[..k + 1], o) == if o in itemsMap then itemsMap[o] else [] {
        ItemsOfAppendOne(rows[..k], item, o);
        assert ItemsOf(rows[..k], o) == if o in before then before[o] else [];
      }
    }
    assert rows[..|rows|] == rows;
  }

  // SELECT * FROM order_items WHERE order_id = ANY(ids).
  method SelectItems(items: seq<ItemRow>, ids: set<int>) returns (rows: seq<ItemRow>)
    ensures forall o :: o in ids ==> ItemsOf(rows, o) == ItemsOf(items, o)
    ensures forall i :: 0 <= i < |rows| ==> rows[i].orderId in ids
  {
    rows := [];
    assert items[..0] == [];
    for k := 0 to |items|
      invariant forall o :: o in ids ==> ItemsOf(rows, o) == ItemsOf(items[..k], o)
      invariant forall i :: 0 <= i < |rows| ==> rows[i].orderId in ids
    {
      assert items[..k + 1] == items[..k] + [items[k]];
      ghost var before := rows;
      if items[k].orderId in ids {
        rows := rows + [items[k]];
      }
      forall o | o in ids ensures ItemsOf(rows, o) == ItemsOf(items[..k + 1], o) {
        ItemsOfAppendOne(items[..k], items[k], o);
        ItemsOfAppendOne(before, items[k], o);
      }
    }
    assert items[..|items|] == items;
  }

  lemma {:induction false} DistinctOneMore(ids: seq<int>, id: int)
    requires Distinct(ids) && id !in ids
    ensures Distinct(ids + [id])
  {}

  // ids come newest first; createdAt is the column created_at.
  ghost predicate NewestFirst(ids: seq<int>, createdAt: int -> int) {
    forall i, j :: 0 <= i < j < |ids| ==> createdAt(ids[i]) >= createdAt(ids[j])
  }

  lemma {:induction false} Newest(left: set<int>, createdAt: int -> int) returns (o: int)
    requires left != {}
    ensures o in left && forall p :: p in left ==> createdAt(p) <= createdAt(o)
    decreases |left|
  {
    o := Member(left);
    if left - {o} != {} {
      var best := Newest(left - {o}, createdAt);
      if createdAt(o) < createdAt(best) {
        o := best;
      }
    }
    assert forall p :: p in left ==> p in left - {o} || p == o;
  }

  // SELECT * FROM orders WHERE ... ORDER BY created_at DESC; the ids of the rows.
  method SelectOrders(orders: map<int, OrderRow>, wanted: Wanted, createdAt: int -> int) returns (ids: seq<int>)
    ensures Distinct(ids) && NewestFirst(ids, createdAt)
    ensures forall o :: o in ids <==> o in orders && Matches(wanted, orders[o])
  {
    var left: set<int> := set o | o in orders && Matches(wanted, orders[o]);
    ids := [];
    while left != {}
      invariant Distinct(ids) && NewestFirst(ids, createdAt)
      invariant forall o :: o in ids || o in left <==> o in orders && Matches(wanted, orders[o])
      invariant forall o :: o in left ==> o !in ids
      invariant forall i, o :: 0 <= i < |ids| && o in left ==> createdAt(ids[i]) >= createdAt(o)
    {
      ghost var newest := Newest(left, createdAt);
      var o :| o in left && forall p :: p in left ==> createdAt(p) <= createdAt(o);
      DistinctOneMore(ids, o);
      ids := ids + [o];
      left := left - {o};
    }
  }

  // An order as it is stored, its items beside it.
  ghost predicate IsView(db: Db, id: int, view: OrderView) {
    id in db.orders && view == OrderView(id, db.orders[id], ItemsOf(db.items, id))
  }

  function ItemsFor(itemsMap: map<int, seq<ItemRow>>, o: int): seq<ItemRow> {
    if o in itemsMap then itemsMap[o] else []
  }

  lemma {:induction false} GroupedGives(
    rows: seq<ItemRow>, itemsMap: map<int, seq<ItemRow>>, db: Db, later: Db, o: int)
    requires Grouped(rows, itemsMap) && Evolves(db, later) && o in db.orders
    requires ItemsOf(rows, o) == ItemsOf(later.items, o)
    ensures IsView(db, o, OrderView(o, db.orders[o], ItemsFor(itemsMap, o)))
  {
    assert OrderEvolves(db, later, o);
  }

  // The loop that puts the grouped items beside their orders. orders were selected from db, the items are now.
  method Join(ghost db: Db, orders: map<int, OrderRow>, now: Db, ids: seq<int>) returns (ans: seq<OrderView>)
    requires Evolves(db, now) && orders == db.orders
    requires forall o :: o in ids ==> o in orders
    ensures |ans| == |ids| && forall i :: 0 <= i < |ids| ==> IsView(db, ids[i], ans[i])
  {
    var rows := SelectItems(now.items, set o | o in ids);
    var itemsMap := GroupItems(rows);
    ans := [];
    for i := 0 to |ids|
      invariant |ans| == i
      invariant forall j :: 0 <= j < i ==> IsView(db, ids[j], ans[j])
    {
      var o := ids[i];
      assert o in ids;
      GroupedGives(rows, itemsMap, db, now, o);
      ans := ans + [OrderView(o, orders[o], ItemsFor(itemsMap, o))];
    }
  }

  /*
   Every matching order comes exactly once, newest first, as it was stored when the orders were selected, and with
   exactly its stored items, whatever others have committed before the items are selected.
   */
  method GetOrders(repo: Repo, wanted: Wanted, createdAt: int -> int, others: Db, next: int)
    returns (ids: seq<int>, ans: seq<OrderView>)
    requires repo.Valid() && repo.MayBecome(others, next)
    modifies repo
    ensures Distinct(ids) && NewestFirst(ids, createdAt) && |ans| == |ids|
    ensures forall o :: o in ids <==> o in old(repo.db.orders) && Matches(wanted, old(repo.db.orders)[o])
    // By the columns of the rows:
    ensures wanted.ByUser? ==>
      forall o :: o in ids <==> o in old(repo.db.orders) && old(repo.db.orders)[o].userId == wanted.userId
    ensures wanted.ByRestaurant? && wanted.status == None ==>
      forall o :: o in ids <==> o in old(repo.db.orders) && old(repo.db.orders)[o].restaurantId == wanted.rid
    ensures wanted.ByRestaurant? && wanted.status.Some? ==>
      forall o :: o in ids <==>
        (o in old(repo.db.orders) &&
         old(repo.db.orders)[o].restaurantId == wanted.rid && old(repo.db.orders)[o].status == wanted.status.value)
    ensures forall i :: 0 <= i < |ids| ==> IsView(old(repo.db), ids[i], ans[i])
  {
    var orders := repo.db.orders;
    ids := SelectOrders(orders, wanted, createdAt);
    if |ids| == 0 { return ids, []; }
    ghost var before: Db := repo.db;
    repo.Meanwhile(others, next);
    ans := Join(before, orders, repo.db, ids);
  }

  /* The total an answer shows is the 64-bit sum over the items it shows. */
  lemma {:induction false} ViewTotal(db: Db, id: int, view: OrderView)
    requires DbOk(db) && IsView(db, id, view)
    ensures view.row.totalCents == Wrap(LineTotal(LinesOf(view.items)))
  {
    assert OrderOk(db, id);
  }

  function AllItems(ans: seq<OrderView>): seq<ItemRow> {
    if ans == [] then [] else AllItems(ans[..|ans| - 1]) + ans[|ans| - 1].items
  }

  // How often a row occurs among the items of the listed orders.
  lemma {:induction false} OccursOnce(rows: seq<ItemRow>, ids: seq<int>, row: ItemRow)
    requires Distinct(ids)
    ensures OccurrencesIn(rows, ids, row) == if row.orderId in ids then multiset(rows)[row] else 0
  {
    if ids != [] {
      var n := |ids| - 1;
      OccursOnce(rows, ids[..n], row);
      ItemsOfCounts(rows, ids[n], row);
      assert row.orderId in ids <==> row.orderId in ids[..n] || row.orderId == ids[n];
    }
  }

  function OccurrencesIn(rows: seq<ItemRow>, ids: seq<int>, row: ItemRow): nat {
    if ids == [] then 0 else OccurrencesIn(rows, ids[..|ids| - 1], row) + multiset(ItemsOf(rows, ids[|ids| - 1]))[row]
  }

  lemma {:induction false} ItemsOfCounts(rows: seq<ItemRow>, o: int, row: ItemRow)
    ensures multiset(ItemsOf(rows, o))[row] == if row.orderId == o then multiset(rows)[row] else 0
  {
    if rows != [] {
      var n := |rows| - 1;
      ItemsOfCounts(rows[..n], o, row);
      assert rows == rows[..n] + [rows[n]];
    }
  }

  lemma {:induction false} CountAll(db: Db, ids: seq<int>, ans: seq<OrderView>, row: ItemRow)
    requires |ans| == |ids| && forall i :: 0 <= i < |ids| ==> IsView(db, ids[i], ans[i])
    ensures multiset(AllItems(ans))[row] == OccurrencesIn(db.items, ids, row)
  {
    if ans != [] {
      var n := |ans| - 1;
      assert IsView(db, ids[n], ans[n]);
      CountAll(db, ids[..n], ans[..n], row);
    }
  }

  /* The join loses and duplicates nothing: it shows every item row of a listed order as often as it is stored, and no other. */
  lemma {:induction false} JoinConserves(db: Db, ids: seq<int>, ans: seq<OrderView>, row: ItemRow)
    requires Distinct(ids) && |ans| == |ids| && forall i :: 0 <= i < |ids| ==> IsView(db, ids[i], ans[i])
    ensures multiset(AllItems(ans))[row] == if row.orderId in ids then multiset(db.items)[row] else 0
  {
    CountAll(db, ids, ans, row);
    OccursOnce(db.items, ids, row);
  }
}
