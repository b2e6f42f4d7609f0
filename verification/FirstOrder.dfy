/** A run of the store from nothing to its first order: a dish is offered, and one of it is ordered. */
module FirstOrder {
  import opened Common
  import opened Menu
  import opened Pricing
  import opened Statuses
  import opened Text
  import opened Tables
  import S = Store
  import StoreRuns
  import Progress

  /******* A menu of one dish *******/

  // The upsert of one position of a new key, statement by statement; s has no transaction t.
  function Upserting(s: S.Store, t: int, rid: int, item: MenuInput): S.Store {
    S.Move(s, t, S.Tx(S.UpsertProg(rid, [item]), S.Upserting([]), S.NOTHING), {})
  }

  function RowWritten(s: S.Store, t: int, rid: int, item: MenuInput, id: int): S.Store {
    S.Move(s, t, S.Tx(S.UpsertProg(rid, [item]), S.Upserting([id]),
                      S.NOTHING.(menuRows := map[id := NewRow(id, rid, item)], menuIndex := map[InputKey(rid, item) := id])),
           {id})
  }

  lemma {:induction false} UpsertStarts(s: S.Store, t: int, rid: int, item: MenuInput)
    requires t !in s.txs && item.priceCents >= 0
    ensures S.Do(s, S.UpsertRequest(t, rid, [item])) == Upserting(s, t, rid, item)
  {}

  lemma {:induction false} UpsertWrites(s: S.Store, t: int, rid: int, item: MenuInput, id: int)
    requires s.txs == map[] && rid in s.db.restaurants && id !in s.used && s.db.menu == MenuTable(map[], map[])
    ensures S.Do(Upserting(s, t, rid, item), S.WriteMenuRow(t, id)) == RowWritten(s, t, rid, item, id)
  {
    var a := Upserting(s, t, rid, item);
    var tx, key := a.txs[t], InputKey(rid, item);
    assert S.RowsPending(tx) && S.NextKey(tx) == key;
    assert Overlay(s.db.menu, tx.writes.menuRows, tx.writes.menuIndex) == s.db.menu;
    assert Target(s.db.menu, rid, item, id) == id;
    assert S.MenuRowWritten(s.db, tx, id) == RowWritten(s, t, rid, item, id).txs[t] by {
      assert [] + [id] == [id];
      assert S.NOTHING.menuRows[id := NewRow(id, rid, item)] == map[id := NewRow(id, rid, item)];
      assert S.NOTHING.menuIndex[key := id] == map[key := id];
    }
  }

  function Upserted(s: S.Store, rid: int, item: MenuInput, id: int): S.Store {
    s.(db := s.db.(menu := MenuTable(map[id := NewRow(id, rid, item)], map[InputKey(rid, item) := id])),
       used := s.used + {id}, log := s.log + [Entry(UpsertOp(rid, [item], [id]), Done)])
  }

  lemma {:induction false} UpsertCommits(s: S.Store, t: int, rid: int, item: MenuInput, id: int)
    requires s.txs == map[] && s.db.menu == MenuTable(map[], map[])
    ensures S.Do(RowWritten(s, t, rid, item, id), S.Commit(t, true)) == Upserted(s, rid, item, id)
  {
    var a := RowWritten(s, t, rid, item, id);
    var tx := a.txs[t];
    assert S.Finishable(tx) && S.OpOf(tx) == UpsertOp(rid, [item], [id]);
    assert S.Install(s.db, tx.writes) == Upserted(s, rid, item, id).db;
    assert a.txs - {t} == map[];
    assert s.answers + [] == s.answers;
  }

  function UpsertSteps(t: int, rid: int, item: MenuInput, id: int): seq<S.Step> {
    [S.UpsertRequest(t, rid, [item])] + [S.WriteMenuRow(t, id)] + [S.Commit(t, true)]
  }

  lemma {:induction false} UpsertRuns(s: S.Store, t: int, rid: int, item: MenuInput, id: int)
    requires s.txs == map[] && rid in s.db.restaurants && id !in s.used && s.db.menu == MenuTable(map[], map[])
    requires item.priceCents >= 0
    ensures S.Run(s, UpsertSteps(t, rid, item, id)) == Upserted(s, rid, item, id)
  {
    UpsertStarts(s, t, rid, item);
    UpsertWrites(s, t, rid, item, id);
    UpsertCommits(s, t, rid, item, id);
    S.RunOneMore(s, [], S.UpsertRequest(t, rid, [item]));
    assert [] + [S.UpsertRequest(t, rid, [item])] == [S.UpsertRequest(t, rid, [item])];
    S.RunOneMore(s, [S.UpsertRequest(t, rid, [item])], S.WriteMenuRow(t, id));
    S.RunOneMore(s, [S.UpsertRequest(t, rid, [item])] + [S.WriteMenuRow(t, id)], S.Commit(t, true));
  }

  /******* An order for one of it *******/

  // The request.
  function OneOf(id: int): (request: seq<OrderItemCreate>)
    ensures OnlyFor(request, id)
  {
    [OrderItemCreate(id, 1)]
  }

  function ProgFor(db: Db, userId: string, rid: int, id: int): S.Prog {
    S.PlaceProg(userId, rid, OneOf(id), RestaurantMenu(db.menu, rid))
  }

  lemma {:induction false} QuoteForOne(db: Db, userId: string, rid: int, id: int)
    requires OnOffer(db, userId, rid, id) && 0 <= RestaurantMenu(db.menu, rid)[id].priceCents <= 1000
    ensures PlaceCheck(db, userId, rid, OneOf(id)) == None
    ensures S.QuoteOf(ProgFor(db, userId, rid, id)).lines == [OrderLine(id, 1, RestaurantMenu(db.menu, rid)[id].priceCents)]
    ensures Storable(S.QuoteOf(ProgFor(db, userId, rid, id)))
  {
    assert OneOf(id)[..0] == [] && QuantityOf(OneOf(id), id) == 1;
    OneDishQuote(RestaurantMenu(db.menu, rid), OneOf(id), id);
  }

  function Reading(s: S.Store, t: int, userId: string, rid: int, id: int, rows: map<int, MenuItem>): S.Store {
    S.Move(s, t, S.Tx(ProgFor(s.db, userId, rid, id), S.Reading(rows), S.NOTHING), {})
  }

  function Checked(s: S.Store, t: int, userId: string, rid: int, id: int, rows: map<int, MenuItem>): S.Store {
    S.Move(s, t, S.Tx(ProgFor(s.db, userId, rid, id), S.Checked(rows), S.NOTHING), {})
  }

  lemma {:induction false} PlaceStarts(s: S.Store, t: int, userId: string, rid: int, id: int)
    requires t !in s.txs && PlaceCheck(s.db, userId, rid, OneOf(id)) == None
    ensures S.Do(s, S.PlaceRequest(t, userId, rid, OneOf(id))) == Reading(s, t, userId, rid, id, map[])
  {}

  lemma {:induction false} PlaceLocks(s: S.Store, t: int, userId: string, rid: int, id: int)
    requires s.txs == map[] && id in RestaurantMenu(s.db.menu, rid)
    ensures S.Do(Reading(s, t, userId, rid, id, map[]), S.LockMenuRow(t, id)) ==
            Reading(s, t, userId, rid, id, map[id := s.db.menu.rows[id]])
  {
    var a := Reading(s, t, userId, rid, id, map[]);
    assert S.CanLockMenuRow(a, t, id);
    assert s.used + {} + {} == s.used + {};
    assert a.txs[t := S.MenuRowRead(a.txs[t], id, s.db.menu.rows[id])] ==
           Reading(s, t, userId, rid, id, map[id := s.db.menu.rows[id]]).txs;
  }

  lemma {:induction false} OneStillTrue(row: MenuItem, line: OrderLine)
    requires row.isAvailable && row.priceCents == line.unitPriceCents
    ensures Revalidate(map[line.menuItemId := row], [line]) == None
  {
    RevalidateMeaning(map[line.menuItemId := row], [line]);
  }

  lemma {:induction false} PlaceChecks(s: S.Store, t: int, userId: string, rid: int, id: int)
    requires OnOffer(s.db, userId, rid, id) && 0 <= RestaurantMenu(s.db.menu, rid)[id].priceCents <= 1000
    ensures var rows := map[id := s.db.menu.rows[id]];
      S.Do(Reading(s, t, userId, rid, id, rows), S.CheckMenu(t)) == Checked(s, t, userId, rid, id, rows)
  {
    var row := s.db.menu.rows[id];
    QuoteForOne(s.db, userId, rid, id);
    OneStillTrue(row, OrderLine(id, 1, row.priceCents));
    var a := Reading(s, t, userId, rid, id, map[id := row]);
    assert S.AllRead(s.db, a.txs[t].prog, map[id := row]);
    assert s.used + {} + {} == s.used + {};
    assert a.txs[t := a.txs[t].(pc := S.Checked(map[id := row]))] == Checked(s, t, userId, rid, id, map[id := row]).txs;
  }

  function CheckSteps(t: int, userId: string, rid: int, id: int): seq<S.Step> {
    [S.PlaceRequest(t, userId, rid, OneOf(id))] + [S.LockMenuRow(t, id)] + [S.CheckMenu(t)]
  }

  lemma {:induction false} CheckRuns(s: S.Store, t: int, userId: string, rid: int, id: int)
    requires s.txs == map[] && OnOffer(s.db, userId, rid, id) && 0 <= RestaurantMenu(s.db.menu, rid)[id].priceCents <= 1000
    ensures S.Run(s, CheckSteps(t, userId, rid, id)) == Checked(s, t, userId, rid, id, map[id := s.db.menu.rows[id]])
  {
    QuoteForOne(s.db, userId, rid, id);
    PlaceStarts(s, t, userId, rid, id);
    PlaceLocks(s, t, userId, rid, id);
    PlaceChecks(s, t, userId, rid, id);
    S.RunOneMore(s, [], S.PlaceRequest(t, userId, rid, OneOf(id)));
    assert [] + [S.PlaceRequest(t, userId, rid, OneOf(id))] == [S.PlaceRequest(t, userId, rid, OneOf(id))];
    S.RunOneMore(s, [S.PlaceRequest(t, userId, rid, OneOf(id))], S.LockMenuRow(t, id));
    S.RunOneMore(s, [S.PlaceRequest(t, userId, rid, OneOf(id))] + [S.LockMenuRow(t, id)], S.CheckMenu(t));
  }

  // The store with the first order's created row as its only outbox row.
  ghost predicate HasOneOrder(db: Db) {
    && |db.outbox| == 1 && !db.outbox[0].processed && db.outbox[0].topic == OrdersTopic
    && db.orders.Keys == {db.outbox[0].key}
  }

  lemma {:induction false} PlacedIsOneOrder(a: Db, prog: S.Prog, b: Db)
    requires a.outbox == [] && a.orders == map[] && Progress.PlacedOrRefused(a, prog, b) && Storable(S.QuoteOf(prog))
    ensures HasOneOrder(b)
  {
    var o, ids, rowId, stamp :| (b, Done) == CreateOrder(a, prog.userId, prog.rid, prog.request, o, ids, rowId, stamp);
    assert b.orders.Keys == {o};
  }

  // No step of the relay or of the status consumer.
  ghost predicate ByClients(steps: seq<S.Step>) {
    forall i :: 0 <= i < |steps| ==> !steps[i].Mark? && !steps[i].ConsumerRequest?
  }

  lemma {:induction false} StoreRunsJoin(s: S.Store, a: seq<S.Step>, b: seq<S.Step>)
    ensures S.Run(s, a + b) == S.Run(S.Run(s, a), b)
  {
    if b == [] {
      assert a + b == a;
    } else {
      var before, last := b[..|b| - 1], b[|b| - 1];
      StoreRunsJoin(s, a, before);
      S.RunOneMore(s, a + before, last);
      assert a + b == a + before + [last];
    }
  }

  lemma {:induction false} OneDishOffered(s: S.Store, rid: int, item: MenuInput, id: int, userId: string)
    requires TrimSpace(userId) != "" && rid in s.db.restaurants && s.db.restaurants[rid] && item.isAvailable
    ensures OnOffer(Upserted(s, rid, item, id).db, userId, rid, id)
    ensures RestaurantMenu(Upserted(s, rid, item, id).db.menu, rid)[id] == NewRow(id, rid, item)
  {}

  lemma {:induction false} AloneIsByClients(t: int, userId: string, rid: int, id: int, steps: seq<S.Step>)
    requires Progress.Alone(CheckSteps(t, userId, rid, id), steps, t)
    ensures ByClients(steps)
  {
    var before := CheckSteps(t, userId, rid, id);
    forall i | 0 <= i < |steps| ensures !steps[i].Mark? && !steps[i].ConsumerRequest? {
      if i < |before| {
        assert steps[i] == before[i];
      } else {
        assert Progress.Moves(steps[i], t);
      }
    }
  }

  // From a store with one dish on offer and nothing ordered.
  lemma {:induction false} OrderOne(s: StoreRuns.SoundStore, t: int, userId: string, rid: int, id: int)
    returns (steps: seq<S.Step>)
    requires s.txs == map[] && s.db.outbox == [] && s.db.orders == map[]
    requires OnOffer(s.db, userId, rid, id) && 0 <= RestaurantMenu(s.db.menu, rid)[id].priceCents <= 1000
    ensures ByClients(steps) && HasOneOrder(S.Run(s, steps).db)
  {
    var before := CheckSteps(t, userId, rid, id);
    CheckRuns(s, t, userId, rid, id);
    QuoteForOne(s.db, userId, rid, id);
    steps := Progress.PlacingCanFinish(s, before, t);
    PlacedIsOneOrder(s.db, ProgFor(s.db, userId, rid, id), S.Run(s, steps).db);
    AloneIsByClients(t, userId, rid, id, steps);
  }

  lemma {:induction false} UpsertByClients(t: int, rid: int, item: MenuInput, id: int, more: seq<S.Step>)
    requires ByClients(more)
    ensures ByClients(UpsertSteps(t, rid, item, id) + more)
  {}

  lemma {:induction false} OfferOne(restaurants: map<int, bool>, rid: int, item: MenuInput) returns (s: StoreRuns.SoundStore)
    requires rid in restaurants && item.priceCents >= 0
    ensures s == Upserted(StoreRuns.EmptyStore(restaurants), rid, item, 1)
    ensures s == S.Run(StoreRuns.EmptyStore(restaurants), UpsertSteps(0, rid, item, 1))
  {
    var empty := StoreRuns.EmptyStore(restaurants);
    StoreRuns.InitiallyOk(restaurants);
    StoreRuns.RunKeeps(empty, UpsertSteps(0, rid, item, 1));
    UpsertRuns(empty, 0, rid, item, 1);
    s := Upserted(empty, rid, item, 1);
  }

  /* From nothing to one order. */
  lemma {:induction false} FirstOrderPlaced(restaurants: map<int, bool>, rid: int, userId: string, item: MenuInput)
    returns (steps: seq<S.Step>)
    requires rid in restaurants && restaurants[rid] && TrimSpace(userId) != ""
    requires item.isAvailable && 0 <= item.priceCents <= 1000
    ensures ByClients(steps) && HasOneOrder(S.Run(StoreRuns.EmptyStore(restaurants), steps).db)
  {
    var s := OfferOne(restaurants, rid, item);
    OneDishOffered(StoreRuns.EmptyStore(restaurants), rid, item, 1, userId);
    var more := OrderOne(s, 0, userId, rid, 1);
    steps := UpsertSteps(0, rid, item, 1) + more;
    UpsertByClients(0, rid, item, 1, more);
    StoreRunsJoin(StoreRuns.EmptyStore(restaurants), UpsertSteps(0, rid, item, 1), more);
  }
}
