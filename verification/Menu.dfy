/**
 The menu_items table and the batch upsert. The table is its rows by primary key together with the
 unique index on (restaurant_id, external_id) that ON CONFLICT consults.
 */
module Menu {
  import opened Common

  datatype MenuItem = MenuItem(
    id: int, restaurantId: int, externalId: string, name: string, priceCents: int, isAvailable: bool)

  // What a partner sends for one position of the menu.
  datatype MenuInput = MenuInput(externalId: string, name: string, priceCents: int, isAvailable: bool)

  datatype MenuKey = MenuKey(restaurantId: int, externalId: string)

  datatype MenuTable = MenuTable(rows: map<int, MenuItem>, index: map<MenuKey, int>)

  function KeyOf(item: MenuItem): MenuKey {
    MenuKey(item.restaurantId, item.externalId)
  }

  // The index and the rows describe each other, and every row meets the CHECK on the price.
  ghost predicate ValidMenu(m: MenuTable) {
    && (forall k :: k in m.index ==> m.index[k] in m.rows && KeyOf(m.rows[m.index[k]]) == k)
    && (forall id :: id in m.rows ==>
          && m.rows[id].id == id
          && m.rows[id].priceCents >= 0
          && KeyOf(m.rows[id]) in m.index
          && m.index[KeyOf(m.rows[id])] == id)
  }

  /* (restaurant, external id) is unique. */
  lemma {:induction false} KeysAreUnique(m: MenuTable, a: int, b: int)
    requires ValidMenu(m) && a in m.rows && b in m.rows && KeyOf(m.rows[a]) == KeyOf(m.rows[b])
    ensures a == b
  {
    assert m.index[KeyOf(m.rows[a])] == a;
  }

  // The rows GetMenuByRestaurantID returns, by id.
  function RestaurantMenu(m: MenuTable, rid: int): map<int, MenuItem> {
    map id | id in m.rows && m.rows[id].restaurantId == rid :: m.rows[id]
  }

  function NewRow(id: int, rid: int, item: MenuInput): MenuItem {
    MenuItem(id, rid, item.externalId, item.name, item.priceCents, item.isAvailable)
  }

  function InputKey(rid: int, item: MenuInput): MenuKey {
    MenuKey(rid, item.externalId)
  }

  // INSERT ... ON CONFLICT (restaurant_id, external_id) DO UPDATE; id is the value the identity
  // column offers for a new row.
  function UpsertRow(m: MenuTable, rid: int, item: MenuInput, id: int): MenuTable {
    var key := InputKey(rid, item);
    if key in m.index then
      m.(rows := m.rows[m.index[key] := NewRow(m.index[key], rid, item)])
    else
      MenuTable(m.rows[id := NewRow(id, rid, item)], m.index[key := id])
  }

  // The statements of the batch, in order.
  function UpsertAll(m: MenuTable, rid: int, items: seq<MenuInput>, ids: seq<int>): MenuTable
    requires |ids| == |items|
  {
    if items == [] then m
    else
      var n := |items| - 1;
      UpsertRow(UpsertAll(m, rid, items[..n], ids[..n]), rid, items[n], ids[n])
  }

  // The CHECK on the price.
  predicate PricesOk(items: seq<MenuInput>) {
    forall i :: 0 <= i < |items| ==> items[i].priceCents >= 0
  }

  // What the validation of the service guarantees about a batch.
  ghost predicate ValidBatch(items: seq<MenuInput>) {
    && (forall i, j :: 0 <= i < j < |items| ==> items[i].externalId != items[j].externalId)
    && PricesOk(items)
  }

  ghost predicate FreshIds(m: MenuTable, ids: seq<int>) {
    && (forall i, j :: 0 <= i < j < |ids| ==> ids[i] != ids[j])
    && (forall i :: 0 <= i < |ids| ==> ids[i] !in m.rows)
  }

  // What a SELECT by the unique key finds.
  function Lookup(m: MenuTable, k: MenuKey): Option<MenuItem> {
    if k in m.index && m.index[k] in m.rows then Some(m.rows[m.index[k]]) else None
  }

  // The row id a position of the batch writes: the existing one, or the offered one.
  function Target(m: MenuTable, rid: int, item: MenuInput, id: int): int {
    if InputKey(rid, item) in m.index then m.index[InputKey(rid, item)] else id
  }

  lemma {:induction false} UpsertRowStaysValid(m: MenuTable, rid: int, item: MenuInput, id: int)
    requires ValidMenu(m) && item.priceCents >= 0 && id !in m.rows
    ensures ValidMenu(UpsertRow(m, rid, item, id))
  {
    var after := UpsertRow(m, rid, item, id);
    var key := InputKey(rid, item);
    if key in m.index {
      assert after.index == m.index;
      assert forall i :: i in after.rows && i != m.index[key] ==> after.rows[i] == m.rows[i];
    } else {
      assert forall i :: i in after.rows && i != id ==> after.rows[i] == m.rows[i];
    }
  }

  lemma {:induction false} UpsertRowLookup(m: MenuTable, rid: int, item: MenuInput, id: int, k: MenuKey)
    requires ValidMenu(m) && item.priceCents >= 0 && id !in m.rows
    requires ValidMenu(UpsertRow(m, rid, item, id))
    ensures Lookup(UpsertRow(m, rid, item, id), k) ==
            if k == InputKey(rid, item) then Some(NewRow(Target(m, rid, item, id), rid, item)) else Lookup(m, k)
    ensures forall i :: i in UpsertRow(m, rid, item, id).rows ==> i in m.rows || i == id
  {}

  lemma {:induction false} UpsertAllStaysValid(m: MenuTable, rid: int, items: seq<MenuInput>, ids: seq<int>)
    requires ValidMenu(m) && PricesOk(items) && |ids| == |items| && FreshIds(m, ids)
    ensures ValidMenu(UpsertAll(m, rid, items, ids))
    ensures forall i :: i in UpsertAll(m, rid, items, ids).rows ==> i in m.rows || i in ids
  {
    if items != [] {
      var n := |items| - 1;
      UpsertAllStaysValid(m, rid, items[..n], ids[..n]);
      var part := UpsertAll(m, rid, items[..n], ids[..n]);
      assert ids[n] !in part.rows;
      UpsertRowStaysValid(part, rid, items[n], ids[n]);
      UpsertRowLookup(part, rid, items[n], ids[n], InputKey(rid, items[n]));
    }
  }

  /*
   The batch is a simultaneous merge: a key of the batch is found with the content of its one
   position, every other key is found as before. No order of the batch is mentioned.
   */
  lemma {:induction false} UpsertAllMerges(m: MenuTable, rid: int, items: seq<MenuInput>, ids: seq<int>, k: MenuKey)
    requires ValidMenu(m) && ValidBatch(items) && |ids| == |items| && FreshIds(m, ids)
    requires ValidMenu(UpsertAll(m, rid, items, ids))
    ensures forall j :: 0 <= j < |items| && InputKey(rid, items[j]) == k ==>
              Lookup(UpsertAll(m, rid, items, ids), k) == Some(NewRow(Target(m, rid, items[j], ids[j]), rid, items[j]))
    ensures (forall j :: 0 <= j < |items| ==> InputKey(rid, items[j]) != k) ==>
              Lookup(UpsertAll(m, rid, items, ids), k) == Lookup(m, k)
  {
    if items != [] {
      var n := |items| - 1;
      var some, first := items[..n], ids[..n];
      UpsertAllStaysValid(m, rid, some, first);
      UpsertAllMerges(m, rid, some, first, k);
      var part := UpsertAll(m, rid, some, first);
      UpsertRowLookup(part, rid, items[n], ids[n], k);
      if k == InputKey(rid, items[n]) {
        forall j | 0 <= j < n ensures InputKey(rid, some[j]) != k {
          assert some[j] == items[j];
        }
        assert Lookup(part, k) == Lookup(m, k);
        assert Target(part, rid, items[n], ids[n]) == Target(m, rid, items[n], ids[n]);
      } else {
        forall j | 0 <= j < |items| && InputKey(rid, items[j]) == k
          ensures Lookup(part, k) == Some(NewRow(Target(m, rid, items[j], ids[j]), rid, items[j]))
        {
          assert some[j] == items[j] && first[j] == ids[j];
        }
      }
    }
  }

  /******* What the rows hold afterwards, column by column *******/

  // The row has this name in its restaurant.
  predicate Named(row: MenuItem, rid: int, externalId: string) {
    row.restaurantId == rid && row.externalId == externalId
  }

  predicate Holds(row: MenuItem, rid: int, item: MenuInput) {
    && Named(row, rid, item.externalId)
    && row.name == item.name && row.priceCents == item.priceCents && row.isAvailable == item.isAvailable
  }

  lemma {:induction false} UpsertRowHolds(m: MenuTable, rid: int, item: MenuInput, id: int) returns (t: int)
    requires ValidMenu(m) && item.priceCents >= 0 && id !in m.rows
    ensures var after := UpsertRow(m, rid, item, id);
      && ValidMenu(after) && t in after.rows && Holds(after.rows[t], rid, item)
      && (t in m.rows ==> Named(m.rows[t], rid, item.externalId))
      && (forall r :: r in m.rows && r != t ==> r in after.rows && after.rows[r] == m.rows[r])
      && (forall r :: r in after.rows ==> r in m.rows || r == t)
      && (forall r :: r in m.rows && Named(m.rows[r], rid, item.externalId) ==> r == t)
  {
    t := Target(m, rid, item, id);
    UpsertRowStaysValid(m, rid, item, id);
    forall r | r in m.rows && Named(m.rows[r], rid, item.externalId) ensures r == t {
      assert m.index[KeyOf(m.rows[r])] == r && KeyOf(m.rows[r]) == InputKey(rid, item);
    }
  }

  // A position that no later one repeats is stored as it was sent, in the row that had its name if there was one.
  ghost predicate InTable(m: MenuTable, rid: int, items: seq<MenuInput>, i: nat, after: MenuTable)
    requires i < |items|
  {
    exists t :: t in after.rows && Holds(after.rows[t], rid, items[i]) &&
      forall r :: r in m.rows && Named(m.rows[r], rid, items[i].externalId) ==> r == t
  }

  ghost predicate IsLast(items: seq<MenuInput>, i: nat)
    requires i < |items|
  {
    forall j :: i < j < |items| ==> items[j].externalId != items[i].externalId
  }

  lemma {:induction false} StoredStays(
    m: MenuTable, rid: int, some: seq<MenuInput>, item: MenuInput, id: int, i: nat, part: MenuTable)
    requires ValidMenu(part) && item.priceCents >= 0 && id !in part.rows
    requires i < |some| && InTable(m, rid, some, i, part) && some[i].externalId != item.externalId
    ensures InTable(m, rid, some + [item], i, UpsertRow(part, rid, item, id))
  {
    var t :| t in part.rows && Holds(part.rows[t], rid, some[i]) &&
      forall r :: r in m.rows && Named(m.rows[r], rid, some[i].externalId) ==> r == t;
    var u := UpsertRowHolds(part, rid, item, id);
    assert t != u;
    assert Holds(UpsertRow(part, rid, item, id).rows[t], rid, (some + [item])[i]);
  }

  lemma {:induction false} OthersStay(m: MenuTable, rid: int, items: seq<MenuInput>, ids: seq<int>, r: int)
    requires ValidMenu(m) && PricesOk(items) && |ids| == |items| && FreshIds(m, ids) && r in m.rows
    requires forall i :: 0 <= i < |items| ==> !Named(m.rows[r], rid, items[i].externalId)
    ensures r in UpsertAll(m, rid, items, ids).rows && UpsertAll(m, rid, items, ids).rows[r] == m.rows[r]
  {
    if items != [] {
      var n := |items| - 1;
      UpsertAllStaysValid(m, rid, items[..n], ids[..n]);
      OthersStay(m, rid, items[..n], ids[..n], r);
      var t := UpsertRowHolds(UpsertAll(m, rid, items[..n], ids[..n]), rid, items[n], ids[n]);
    }
  }

  // A row that was not there has a name of the batch.
  lemma {:induction false} NothingElse(m: MenuTable, rid: int, items: seq<MenuInput>, ids: seq<int>, r: int)
    requires ValidMenu(m) && PricesOk(items) && |ids| == |items| && FreshIds(m, ids)
    requires r in UpsertAll(m, rid, items, ids).rows && r !in m.rows
    ensures exists i :: 0 <= i < |items| && Named(UpsertAll(m, rid, items, ids).rows[r], rid, items[i].externalId)
  {
    if items != [] {
      var n := |items| - 1;
      var part := UpsertAll(m, rid, items[..n], ids[..n]);
      UpsertAllStaysValid(m, rid, items[..n], ids[..n]);
      var t := UpsertRowHolds(part, rid, items[n], ids[n]);
      if r == t {
        assert Named(UpsertAll(m, rid, items, ids).rows[r], rid, items[n].externalId);
      } else {
        NothingElse(m, rid, items[..n], ids[..n], r);
        var i :| 0 <= i < n && Named(part.rows[r], rid, items[..n][i].externalId);
        assert items[i] == items[..n][i];
      }
    }
  }

  // The row that had the name keeps it, whatever the batch does.
  lemma {:induction false} NamesStay(m: MenuTable, rid: int, items: seq<MenuInput>, ids: seq<int>, r: int)
    requires ValidMenu(m) && PricesOk(items) && |ids| == |items| && FreshIds(m, ids) && r in m.rows
    ensures var after := UpsertAll(m, rid, items, ids);
      r in after.rows && Named(after.rows[r], m.rows[r].restaurantId, m.rows[r].externalId)
  {
    if items != [] {
      var n := |items| - 1;
      UpsertAllStaysValid(m, rid, items[..n], ids[..n]);
      NamesStay(m, rid, items[..n], ids[..n], r);
      var t := UpsertRowHolds(UpsertAll(m, rid, items[..n], ids[..n]), rid, items[n], ids[n]);
    }
  }

  // The last position of a batch.
  lemma {:induction false} LastIsStored(m: MenuTable, rid: int, items: seq<MenuInput>, ids: seq<int>, n: nat)
    requires ValidMenu(m) && PricesOk(items) && |ids| == |items| && FreshIds(m, ids) && n + 1 == |items|
    ensures InTable(m, rid, items, n, UpsertAll(m, rid, items, ids))
  {
    var part := UpsertAll(m, rid, items[..n], ids[..n]);
    UpsertAllStaysValid(m, rid, items[..n], ids[..n]);
    var t := UpsertRowHolds(part, rid, items[n], ids[n]);
    forall r | r in m.rows && Named(m.rows[r], rid, items[n].externalId) ensures r == t {
      NamesStay(m, rid, items[..n], ids[..n], r);
    }
  }

  /* Every position of any batch that no later one repeats is in the table, column by column. */
  lemma {:induction false} BatchIsStored(m: MenuTable, rid: int, items: seq<MenuInput>, ids: seq<int>, i: nat)
    requires ValidMenu(m) && PricesOk(items) && |ids| == |items| && FreshIds(m, ids) && i < |items| && IsLast(items, i)
    ensures InTable(m, rid, items, i, UpsertAll(m, rid, items, ids))
  {
    var n := |items| - 1;
    if i == n {
      LastIsStored(m, rid, items, ids, n);
    } else {
      var some, first := items[..n], ids[..n];
      UpsertAllStaysValid(m, rid, some, first);
      BatchIsStored(m, rid, some, first, i);
      StoredStays(m, rid, some, items[n], ids[n], i, UpsertAll(m, rid, some, first));
      assert some + [items[n]] == items;
    }
  }

  // Two valid tables that answer every lookup alike are the same table.
  lemma {:induction false} LookupDetermines(a: MenuTable, b: MenuTable)
    requires ValidMenu(a) && ValidMenu(b)
    requires forall k :: Lookup(a, k) == Lookup(b, k)
    ensures a == b
  {
    forall k ensures k in a.index <==> k in b.index
      ensures k in a.index ==> a.index[k] == b.index[k]
    {
      assert Lookup(a, k) == Lookup(b, k);
    }
    assert a.index == b.index;
    forall id ensures id in a.rows <==> id in b.rows
      ensures id in a.rows ==> a.rows[id] == b.rows[id]
    {
      if id in a.rows {
        assert Lookup(a, KeyOf(a.rows[id])) == Lookup(b, KeyOf(a.rows[id]));
      }
      if id in b.rows {
        assert Lookup(a, KeyOf(b.rows[id])) == Lookup(b, KeyOf(b.rows[id]));
      }
    }
    assert a.rows == b.rows;
  }

  /* Positions of other restaurants stay, and every existing row keeps its id. */
  lemma {:induction false} UpsertKeepsIdsAndOthers(m: MenuTable, rid: int, items: seq<MenuInput>, ids: seq<int>, k: MenuKey)
    requires ValidMenu(m) && ValidBatch(items) && |ids| == |items| && FreshIds(m, ids)
    ensures ValidMenu(UpsertAll(m, rid, items, ids))
    ensures k in m.index ==> k in UpsertAll(m, rid, items, ids).index && UpsertAll(m, rid, items, ids).index[k] == m.index[k]
    ensures k.restaurantId != rid ==> Lookup(UpsertAll(m, rid, items, ids), k) == Lookup(m, k)
  {
    UpsertAllStaysValid(m, rid, items, ids);
    UpsertAllMerges(m, rid, items, ids, k);
    var after := UpsertAll(m, rid, items, ids);
    if k in m.index && exists j :: 0 <= j < |items| && InputKey(rid, items[j]) == k {
      var j :| 0 <= j < |items| && InputKey(rid, items[j]) == k;
      assert Lookup(after, k) == Some(NewRow(m.index[k], rid, items[j]));
      assert after.rows[after.index[k]].id == after.index[k];
    } else if k in m.index {
      assert Lookup(after, k) == Lookup(m, k);
      assert after.rows[after.index[k]].id == after.index[k];
    }
  }

  /* Sending the same batch again changes nothing, whatever ids the identity column offers. */
  lemma {:induction false} UpsertIdempotent(m: MenuTable, rid: int, items: seq<MenuInput>, ids: seq<int>, again: seq<int>)
    requires ValidMenu(m) && ValidBatch(items) && |ids| == |items| == |again|
    requires FreshIds(m, ids) && FreshIds(UpsertAll(m, rid, items, ids), again)
    ensures UpsertAll(UpsertAll(m, rid, items, ids), rid, items, again) == UpsertAll(m, rid, items, ids)
  {
    var once := UpsertAll(m, rid, items, ids);
    UpsertAllStaysValid(m, rid, items, ids);
    var twice := UpsertAll(once, rid, items, again);
    UpsertAllStaysValid(once, rid, items, again);
    forall k ensures Lookup(twice, k) == Lookup(once, k) {
      UpsertAllMerges(m, rid, items, ids, k);
      UpsertAllMerges(once, rid, items, again, k);
      if j :| 0 <= j < |items| && InputKey(rid, items[j]) == k {
        assert Lookup(once, k) == Some(NewRow(Target(m, rid, items[j], ids[j]), rid, items[j]));
        assert once.rows[once.index[k]].id == once.index[k];
        assert Lookup(twice, k) == Some(NewRow(Target(once, rid, items[j], again[j]), rid, items[j]));
      }
    }
    LookupDetermines(twice, once);
  }

  // What a lookup shows apart from the generated id.
  function Shown(row: Option<MenuItem>): Option<MenuInput> {
    match row
    case None => None
    case Some(r) => Some(MenuInput(r.externalId, r.name, r.priceCents, r.isAvailable))
  }

  /* The order of the batch does not matter: only which fresh id a new row gets depends on it. */
  lemma {:induction false} UpsertOrderIrrelevant(
    m: MenuTable, rid: int, items: seq<MenuInput>, ids: seq<int>, items': seq<MenuInput>, ids': seq<int>, k: MenuKey)
    requires ValidMenu(m) && ValidBatch(items) && |ids| == |items| && FreshIds(m, ids)
    requires ValidBatch(items') && |ids'| == |items'| && FreshIds(m, ids')
    requires multiset(items) == multiset(items')
    ensures ValidMenu(UpsertAll(m, rid, items, ids)) && ValidMenu(UpsertAll(m, rid, items', ids'))
    ensures Shown(Lookup(UpsertAll(m, rid, items, ids), k)) == Shown(Lookup(UpsertAll(m, rid, items', ids'), k))
  {
    UpsertAllStaysValid(m, rid, items, ids);
    UpsertAllStaysValid(m, rid, items', ids');
    UpsertAllMerges(m, rid, items, ids, k);
    UpsertAllMerges(m, rid, items', ids', k);
    assert forall x :: x in items <==> x in multiset(items);
    assert forall x :: x in items' <==> x in multiset(items');
    if j :| 0 <= j < |items| && InputKey(rid, items[j]) == k {
      assert items[j] in items';
      var i :| 0 <= i < |items'| && items'[i] == items[j];
      assert InputKey(rid, items'[i]) == k;
    } else {
      forall i | 0 <= i < |items'| ensures InputKey(rid, items'[i]) != k {
        assert items'[i] in items;
      }
    }
  }

  /******* The same batch as row versions laid over the table *******/

  function BatchIndex(m: MenuTable, rid: int, items: seq<MenuInput>, ids: seq<int>): map<MenuKey, int>
    requires |ids| == |items|
  {
    if items == [] then map[]
    else
      var n := |items| - 1;
      BatchIndex(m, rid, items[..n], ids[..n])[InputKey(rid, items[n]) := Target(m, rid, items[n], ids[n])]
  }

  function BatchRows(m: MenuTable, rid: int, items: seq<MenuInput>, ids: seq<int>): map<int, MenuItem>
    requires |ids| == |items|
  {
    if items == [] then map[]
    else
      var n := |items| - 1;
      var id := Target(m, rid, items[n], ids[n]);
      BatchRows(m, rid, items[..n], ids[..n])[id := NewRow(id, rid, items[n])]
  }

  function Overlay(m: MenuTable, rows: map<int, MenuItem>, index: map<MenuKey, int>): MenuTable {
    MenuTable(m.rows + rows, m.index + index)
  }

  lemma {:induction false} BatchIndexKeys(m: MenuTable, rid: int, items: seq<MenuInput>, ids: seq<int>, k: MenuKey)
    requires |ids| == |items|
    ensures k in BatchIndex(m, rid, items, ids) <==> exists j :: 0 <= j < |items| && InputKey(rid, items[j]) == k
  {
    if items != [] {
      var n := |items| - 1;
      BatchIndexKeys(m, rid, items[..n], ids[..n], k);
      assert forall j :: 0 <= j < n ==> items[..n][j] == items[j];
    }
  }

  lemma {:induction false} BatchRowsKeys(m: MenuTable, rid: int, items: seq<MenuInput>, ids: seq<int>, id: int)
    requires |ids| == |items|
    ensures id in BatchRows(m, rid, items, ids) <==> exists j :: 0 <= j < |items| && Target(m, rid, items[j], ids[j]) == id
  {
    if items != [] {
      var n := |items| - 1;
      BatchRowsKeys(m, rid, items[..n], ids[..n], id);
      assert forall j :: 0 <= j < n ==> items[..n][j] == items[j] && ids[..n][j] == ids[j];
    }
  }

  lemma {:induction false} OverlayIsUpsertAll(m: MenuTable, rid: int, items: seq<MenuInput>, ids: seq<int>)
    requires |ids| == |items| && ValidBatch(items)
    ensures Overlay(m, BatchRows(m, rid, items, ids), BatchIndex(m, rid, items, ids)) == UpsertAll(m, rid, items, ids)
  {
    if items == [] {
      assert m.rows + map[] == m.rows && m.index + map[] == m.index;
    } else {
      var n := |items| - 1;
      OverlayIsUpsertAll(m, rid, items[..n], ids[..n]);
      OverlayOneMore(m, rid, items, ids);
    }
  }

  lemma {:induction false} OverlayOneMore(m: MenuTable, rid: int, items: seq<MenuInput>, ids: seq<int>)
    requires |ids| == |items| > 0 && ValidBatch(items)
    ensures var n := |items| - 1;
      Overlay(m, BatchRows(m, rid, items, ids), BatchIndex(m, rid, items, ids)) ==
      UpsertRow(Overlay(m, BatchRows(m, rid, items[..n], ids[..n]), BatchIndex(m, rid, items[..n], ids[..n])), rid, items[n], ids[n])
  {
    var n := |items| - 1;
    var key := InputKey(rid, items[n]);
    BatchIndexKeys(m, rid, items[..n], ids[..n], key);
    var rows, index := BatchRows(m, rid, items[..n], ids[..n]), BatchIndex(m, rid, items[..n], ids[..n]);
    assert key !in index;
    var id := Target(m, rid, items[n], ids[n]);
    assert m.rows + rows[id := NewRow(id, rid, items[n])] == (m.rows + rows)[id := NewRow(id, rid, items[n])];
    if key in m.index {
      assert m.index + index[key := id] == m.index + index;
    } else {
      assert m.index + index[key := id] == (m.index + index)[key := id];
    }
  }

  // The row versions depend only on where the keys of the batch stand in the index.
  lemma {:induction false} BatchDependsOnTargets(a: MenuTable, b: MenuTable, rid: int, items: seq<MenuInput>, ids: seq<int>)
    requires |ids| == |items|
    requires forall j :: 0 <= j < |items| ==> Target(a, rid, items[j], ids[j]) == Target(b, rid, items[j], ids[j])
    ensures BatchIndex(a, rid, items, ids) == BatchIndex(b, rid, items, ids)
    ensures BatchRows(a, rid, items, ids) == BatchRows(b, rid, items, ids)
  {
    if items != [] {
      var n := |items| - 1;
      assert forall j :: 0 <= j < n ==> items[..n][j] == items[j] && ids[..n][j] == ids[j];
      BatchDependsOnTargets(a, b, rid, items[..n], ids[..n]);
    }
  }
}
