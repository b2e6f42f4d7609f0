/**
 Why the store is serializable: what every running transaction knows about the committed tables, why
 the locks keep that knowledge true while others commit, and why a commit is then one atomic operation.
 */
module Isolation {
  import opened Common
  import opened Statuses
  import opened Int64
  import opened Menu
  import opened Pricing
  import opened Tables
  import opened Text
  import opened Store

  /******* What a running transaction knows *******/

  function StatusWrite(db: Db, order: int, target: Status): map<int, OrderRow>
    requires order in db.orders
  {
    map[order := db.orders[order].(status := target)]
  }

  ghost predicate StatusOk(db: Db, tx: Tx)
    requires tx.prog.StatusProg?
  {
    var StatusProg(order, target, origin) := tx.prog;
    && (origin == Client ==> target == Cancelled)
    && (tx.pc.Begun? || tx.pc.Locked? || tx.pc.RowWritten? || tx.pc.Recorded? || tx.pc.Queued?)
    && (tx.pc.Begun? ==> tx.writes == NOTHING)
    && (!tx.pc.Begun? ==> order in db.orders && db.orders[order].status == tx.pc.old_)
    && (tx.pc.Locked? ==> tx.writes == NOTHING)
    && (tx.pc.RowWritten? || tx.pc.Recorded? || tx.pc.Queued? ==>
          && CanTransition(tx.pc.old_, target)
          && tx.writes.orders == StatusWrite(db, order, target)
          && tx.writes.items == [] && tx.writes.menuRows == map[] && tx.writes.menuIndex == map[]
          && tx.writes.events == (if tx.pc.RowWritten? then [] else [EventRow(order, Some(tx.pc.old_), target)])
          && tx.writes.outbox ==
             if tx.pc.Queued? then [CancelRow(tx.pc.rowId, order, db.orders[order].restaurantId, tx.pc.stamp)] else [])
    && (tx.pc.Queued? ==> target == Cancelled && FreshRow(db.outbox, tx.pc.rowId))
  }

  // Rows read under FOR SHARE are the committed rows.
  ghost predicate RowsCurrent(db: Db, rid: int, rows: map<int, MenuItem>) {
    forall id :: id in rows ==> id in db.menu.rows && db.menu.rows[id] == rows[id] && rows[id].restaurantId == rid
  }

  function NewOrderRow(prog: Prog): OrderRow
    requires prog.PlaceProg?
  {
    OrderRow(TrimSpace(prog.userId), prog.rid, Created, QuoteOf(prog).totalCents)
  }

  // The service has checked the restaurant and priced the request against an older menu.
  ghost predicate PlacePrepared(db: Db, prog: Prog)
    requires prog.PlaceProg?
  {
    && prog.request != [] && TrimSpace(prog.userId) != ""
    && prog.rid in db.restaurants && db.restaurants[prog.rid]
    && QuoteFor(prog.seen, prog.request).Ok?
  }

  ghost predicate StorableUpTo(lines: seq<OrderLine>, n: nat)
    requires n <= |lines|
  {
    forall i :: 0 <= i < n ==> StorableLine(lines[i])
  }

  ghost predicate InsertedOk(db: Db, tx: Tx)
    requires tx.prog.PlaceProg? && GotOrder(tx.pc)
  {
    var quote := QuoteOf(tx.prog);
    && tx.pc.newOrder !in db.orders
    && quote.totalCents >= 0
    && |tx.pc.itemIds| <= |quote.lines|
    && StorableUpTo(quote.lines, |tx.pc.itemIds|)
    && (!tx.pc.Inserting? ==> |tx.pc.itemIds| == |quote.lines|)
    && tx.writes.orders == map[tx.pc.newOrder := NewOrderRow(tx.prog)]
    && tx.writes.items == ItemRows(tx.pc.newOrder, quote.lines, tx.pc.itemIds)
    && tx.writes.menuRows == map[] && tx.writes.menuIndex == map[]
    && tx.writes.events == (if tx.pc.Inserting? then [] else [EventRow(tx.pc.newOrder, None, Created)])
    && tx.writes.outbox ==
       (if tx.pc.Announced? then
          [CreatedRow(tx.pc.rowId, tx.pc.newOrder, tx.prog.rid, quote.totalCents, tx.writes.items, tx.pc.stamp)]
        else [])
    && (tx.pc.Announced? ==> FreshRow(db.outbox, tx.pc.rowId))
  }

  ghost predicate PlaceOk(db: Db, tx: Tx)
    requires tx.prog.PlaceProg?
  {
    && PlacePrepared(db, tx.prog)
    && HasRows(tx.pc)
    && RowsCurrent(db, tx.prog.rid, tx.pc.rows)
    && (!tx.pc.Reading? ==> Revalidate(tx.pc.rows, QuoteOf(tx.prog).lines) == None)
    && (tx.pc.Reading? || tx.pc.Checked? ==> tx.writes == NOTHING)
    && (GotOrder(tx.pc) ==> InsertedOk(db, tx))
  }

  ghost predicate UpsertOk(db: Db, tx: Tx)
    requires tx.prog.UpsertProg?
  {
    var UpsertProg(rid, items) := tx.prog;
    && items != [] && ValidBatch(items)
    && tx.pc.Upserting? && |tx.pc.ids| <= |items|
    && (|tx.pc.ids| > 0 ==> rid in db.restaurants)
    && FreshIds(db.menu, tx.pc.ids)
    && var done := items[..|tx.pc.ids|];
    && tx.writes == NOTHING.(menuRows := BatchRows(db.menu, rid, done, tx.pc.ids),
                             menuIndex := BatchIndex(db.menu, rid, done, tx.pc.ids))
  }

  ghost predicate TxOk(db: Db, tx: Tx) {
    match tx.prog
    case StatusProg(_, _, _) => StatusOk(db, tx)
    case PlaceProg(_, _, _, _) => PlaceOk(db, tx)
    case UpsertProg(_, _) => UpsertOk(db, tx)
  }

  /******* The knowledge survives what others commit *******/

  // Whatever tx has locked is the same in both.
  ghost predicate Undisturbed(a: Db, b: Db, tx: Tx) {
    && b.restaurants == a.restaurants
    && (forall o :: Owns(tx, OrderLock(o)) ==>
          (o in a.orders <==> o in b.orders) && (o in a.orders ==> b.orders[o] == a.orders[o]))
    && (forall k :: Owns(tx, MenuLock(k)) || Shares(tx, MenuLock(k)) ==>
          && (k in a.menu.index <==> k in b.menu.index)
          && (k in a.menu.index ==> b.menu.index[k] == a.menu.index[k] && Lookup(b.menu, k) == Lookup(a.menu, k)))
    && (forall i :: Owns(tx, NewId(i)) ==>
          && (i !in a.menu.rows ==> i !in b.menu.rows)
          && (FreshRow(a.outbox, i) ==> FreshRow(b.outbox, i)))
  }

  lemma {:induction false} StatusOkStays(a: Db, b: Db, tx: Tx)
    requires tx.prog.StatusProg? && StatusOk(a, tx) && Undisturbed(a, b, tx)
    ensures StatusOk(b, tx)
  {
    if !tx.pc.Begun? {
      assert Owns(tx, OrderLock(tx.prog.order));
    }
    if tx.pc.Queued? {
      assert Owns(tx, NewId(tx.pc.rowId));
    }
  }

  lemma {:induction false} RowsCurrentStays(a: Db, b: Db, tx: Tx)
    requires HasRows(tx.pc) && tx.prog.PlaceProg? && RowsCurrent(a, tx.prog.rid, tx.pc.rows)
    requires ValidMenu(a.menu) && ValidMenu(b.menu) && Undisturbed(a, b, tx)
    ensures RowsCurrent(b, tx.prog.rid, tx.pc.rows)
  {
    forall id | id in tx.pc.rows ensures id in b.menu.rows && b.menu.rows[id] == tx.pc.rows[id] {
      var k := KeyOf(tx.pc.rows[id]);
      assert Shares(tx, MenuLock(k));
      assert a.menu.index[k] == id;
    }
  }

  lemma {:induction false} PlaceOkStays(a: Db, b: Db, tx: Tx)
    requires tx.prog.PlaceProg? && PlaceOk(a, tx)
    requires ValidMenu(a.menu) && ValidMenu(b.menu) && Undisturbed(a, b, tx)
    ensures PlaceOk(b, tx)
  {
    RowsCurrentStays(a, b, tx);
    if GotOrder(tx.pc) {
      assert Owns(tx, OrderLock(tx.pc.newOrder));
      if tx.pc.Announced? {
        assert Owns(tx, NewId(tx.pc.rowId));
      }
      assert InsertedOk(b, tx);
    }
  }

  lemma {:induction false} UpsertOkStays(a: Db, b: Db, tx: Tx)
    requires tx.prog.UpsertProg? && UpsertOk(a, tx) && Undisturbed(a, b, tx)
    ensures UpsertOk(b, tx)
  {
    var UpsertProg(rid, items) := tx.prog;
    var ids := tx.pc.ids;
    var done := items[..|ids|];
    forall j | 0 <= j < |done| ensures Target(a.menu, rid, done[j], ids[j]) == Target(b.menu, rid, done[j], ids[j]) {
      assert Owns(tx, MenuLock(InputKey(rid, items[j])));
    }
    BatchDependsOnTargets(a.menu, b.menu, rid, done, ids);
    forall i | 0 <= i < |ids| ensures ids[i] !in b.menu.rows {
      assert Owns(tx, NewId(ids[i]));
    }
  }

  lemma {:induction false} TxOkStays(a: Db, b: Db, tx: Tx)
    requires TxOk(a, tx)
    requires ValidMenu(a.menu) && ValidMenu(b.menu) && Undisturbed(a, b, tx)
    ensures TxOk(b, tx)
  {
    match tx.prog
    case StatusProg(_, _, _) => StatusOkStays(a, b, tx);
    case PlaceProg(_, _, _, _) => PlaceOkStays(a, b, tx);
    case UpsertProg(_, _) => UpsertOkStays(a, b, tx);
  }

  /******* A commit disturbs nobody *******/

  // The row versions of a transaction lie within what it owns.
  lemma {:induction false} StatusWritesOwned(db: Db, tx: Tx, o: int)
    requires TxOk(db, tx) && o in tx.writes.orders
    ensures Owns(tx, OrderLock(o))
  {}

  lemma {:induction false} IndexWritesOwned(db: Db, tx: Tx, k: MenuKey)
    requires TxOk(db, tx) && k in tx.writes.menuIndex
    ensures Owns(tx, MenuLock(k))
  {
    var done := tx.prog.items[..|tx.pc.ids|];
    BatchIndexKeys(db.menu, tx.prog.rid, done, tx.pc.ids, k);
    var j :| 0 <= j < |done| && InputKey(tx.prog.rid, done[j]) == k;
    assert tx.prog.items[j] == done[j];
  }

  lemma {:induction false} RowWritesOwned(db: Db, tx: Tx, id: int)
    requires TxOk(db, tx) && ValidMenu(db.menu) && id in tx.writes.menuRows
    ensures if id in db.menu.rows then Owns(tx, MenuLock(KeyOf(db.menu.rows[id]))) else Owns(tx, NewId(id))
  {
    var done := tx.prog.items[..|tx.pc.ids|];
    BatchRowsKeys(db.menu, tx.prog.rid, done, tx.pc.ids, id);
    var j :| 0 <= j < |done| && Target(db.menu, tx.prog.rid, done[j], tx.pc.ids[j]) == id;
    assert tx.prog.items[j] == done[j];
    var k := InputKey(tx.prog.rid, done[j]);
    assert Owns(tx, MenuLock(k));
    if k in db.menu.index {
      assert KeyOf(db.menu.rows[id]) == k;
    } else {
      assert id == tx.pc.ids[j];
    }
  }

  lemma {:induction false} CancelRowOwned(db: Db, tx: Tx, i: int)
    requires tx.prog.StatusProg? && StatusOk(db, tx) && 0 <= i < |tx.writes.outbox|
    ensures Owns(tx, NewId(tx.writes.outbox[i].id))
  {}

  lemma {:induction false} CreatedRowOwned(db: Db, tx: Tx, i: int)
    requires tx.prog.PlaceProg? && PlaceOk(db, tx) && 0 <= i < |tx.writes.outbox|
    ensures Owns(tx, NewId(tx.writes.outbox[i].id))
  {
    assert GotOrder(tx.pc) && InsertedOk(db, tx);
  }

  lemma {:induction false} OutboxWritesOwned(db: Db, tx: Tx, i: int)
    requires TxOk(db, tx) && 0 <= i < |tx.writes.outbox|
    ensures Owns(tx, NewId(tx.writes.outbox[i].id))
  {
    if tx.prog.StatusProg? {
      CancelRowOwned(db, tx, i);
    } else if tx.prog.PlaceProg? {
      CreatedRowOwned(db, tx, i);
    }
  }

  lemma {:induction false} CommitKeepsKeys(db: Db, u: Tx, tx: Tx, k: MenuKey)
    requires TxOk(db, u) && ValidMenu(db.menu) && Compatible(u, tx)
    requires Owns(tx, MenuLock(k)) || Shares(tx, MenuLock(k))
    ensures var b := Install(db, u.writes);
      && (k in db.menu.index <==> k in b.menu.index)
      && (k in db.menu.index ==> b.menu.index[k] == db.menu.index[k] && Lookup(b.menu, k) == Lookup(db.menu, k))
  {
    assert !Owns(u, MenuLock(k));
    if k in u.writes.menuIndex {
      IndexWritesOwned(db, u, k);
    }
    if k in db.menu.index && db.menu.index[k] in u.writes.menuRows {
      RowWritesOwned(db, u, db.menu.index[k]);
    }
  }

  lemma {:induction false} CommitKeepsFresh(db: Db, u: Tx, tx: Tx, i: int)
    requires TxOk(db, u) && ValidMenu(db.menu) && Compatible(u, tx) && Owns(tx, NewId(i))
    ensures var b := Install(db, u.writes);
      && (i !in db.menu.rows ==> i !in b.menu.rows)
      && (FreshRow(db.outbox, i) ==> FreshRow(b.outbox, i))
  {
    assert !Owns(u, NewId(i));
    if i !in db.menu.rows && i in u.writes.menuRows {
      RowWritesOwned(db, u, i);
    }
    forall j | 0 <= j < |u.writes.outbox| ensures u.writes.outbox[j].id != i {
      OutboxWritesOwned(db, u, j);
    }
  }

  lemma {:induction false} CommitUndisturbing(db: Db, u: Tx, tx: Tx)
    requires TxOk(db, u) && ValidMenu(db.menu) && Compatible(u, tx)
    ensures Undisturbed(db, Install(db, u.writes), tx)
  {
    var b := Install(db, u.writes);
    forall o | Owns(tx, OrderLock(o))
      ensures (o in db.orders <==> o in b.orders) && (o in db.orders ==> b.orders[o] == db.orders[o])
    {
      assert !Owns(u, OrderLock(o));
      if o in u.writes.orders {
        StatusWritesOwned(db, u, o);
      }
    }
    forall k | Owns(tx, MenuLock(k)) || Shares(tx, MenuLock(k))
      ensures k in db.menu.index <==> k in b.menu.index
      ensures k in db.menu.index ==> b.menu.index[k] == db.menu.index[k] && Lookup(b.menu, k) == Lookup(db.menu, k)
    {
      CommitKeepsKeys(db, u, tx, k);
    }
    forall i | Owns(tx, NewId(i))
      ensures i !in db.menu.rows ==> i !in b.menu.rows
      ensures FreshRow(db.outbox, i) ==> FreshRow(b.outbox, i)
    {
      CommitKeepsFresh(db, u, tx, i);
    }
  }

  lemma {:induction false} MarkUndisturbing(db: Db, rowId: int, tx: Tx)
    ensures Undisturbed(db, MarkProcessed(db, rowId), tx)
  {}

  /******* A commit is one atomic operation *******/

  lemma {:induction false} StatusCommitIsAtomic(db: Db, tx: Tx)
    requires tx.prog.StatusProg? && StatusOk(db, tx) && Finishable(tx)
    ensures Apply(db, OpOf(tx)) == (Install(db, tx.writes), Done)
  {
    var StatusProg(order, target, _) := tx.prog;
    assert db.items + [] == db.items && db.events + [] == db.events && db.outbox + [] == db.outbox;
    assert db.menu.rows + map[] == db.menu.rows && db.menu.index + map[] == db.menu.index;
    if tx.pc.Locked? {
      assert db.orders + map[] == db.orders;
    } else {
      TransitionClimbs(tx.pc.old_, target);
      assert db.orders + StatusWrite(db, order, target) == db.orders[order := db.orders[order].(status := target)];
    }
  }

  // The second check, passed on rows that are still the committed ones: the quote is the one the
  // current menu gives.
  lemma {:induction false} QuoteIsCurrent(db: Db, tx: Tx)
    requires tx.prog.PlaceProg? && PlaceOk(db, tx) && !tx.pc.Reading?
    ensures QuoteFor(RestaurantMenu(db.menu, tx.prog.rid), tx.prog.request) == Ok(QuoteOf(tx.prog))
  {
    var menu := RestaurantMenu(db.menu, tx.prog.rid);
    var lines := QuoteOf(tx.prog).lines;
    RevalidateMeaning(tx.pc.rows, lines);
    forall i | 0 <= i < |lines|
      ensures lines[i].menuItemId in menu && menu[lines[i].menuItemId].isAvailable
      ensures menu[lines[i].menuItemId].priceCents == lines[i].unitPriceCents
    {
      assert lines[i].menuItemId in tx.pc.rows;
    }
    RevalidateMeaning(menu, lines);
    StaleQuoteIsCurrent(tx.prog.seen, menu, tx.prog.request);
  }

  // A placement with all its statements through, in terms of what it is about to install.
  ghost predicate ReadyToPlace(db: Db, tx: Tx) {
    && tx.prog.PlaceProg? && tx.pc.Announced?
    && var quote, rows := QuoteOf(tx.prog), tx.writes.items;
    && tx.pc.newOrder !in db.orders && FreshRow(db.outbox, tx.pc.rowId)
    && Storable(quote) && |tx.pc.itemIds| == |quote.lines|
    && rows == ItemRows(tx.pc.newOrder, quote.lines, tx.pc.itemIds)
    && tx.writes == Writes(
         map[tx.pc.newOrder := NewOrderRow(tx.prog)], rows, [EventRow(tx.pc.newOrder, None, Created)],
         [CreatedRow(tx.pc.rowId, tx.pc.newOrder, tx.prog.rid, quote.totalCents, rows, tx.pc.stamp)], map[], map[])
  }

  lemma {:induction false} AnnouncedIsReady(db: Db, tx: Tx)
    requires tx.prog.PlaceProg? && PlaceOk(db, tx) && tx.pc.Announced?
    ensures ReadyToPlace(db, tx)
  {
    assert InsertedOk(db, tx);
  }

  lemma {:induction false} PlaceInstalls(db: Db, tx: Tx)
    requires ReadyToPlace(db, tx)
    ensures Install(db, tx.writes) ==
            PlaceOrder(db, TrimSpace(tx.prog.userId), tx.prog.rid, QuoteOf(tx.prog),
                       tx.pc.newOrder, tx.pc.itemIds, tx.pc.rowId, tx.pc.stamp)
  {
    assert db.menu.rows + map[] == db.menu.rows && db.menu.index + map[] == db.menu.index;
    assert db.orders + map[tx.pc.newOrder := NewOrderRow(tx.prog)] == db.orders[tx.pc.newOrder := NewOrderRow(tx.prog)];
  }

  lemma {:induction false} CurrentQuoteIsPlaced(
    db: Db, userId: string, rid: int, request: seq<OrderItemCreate>, quote: Quote,
    order: int, itemIds: seq<int>, rowId: int, stamp: int)
    requires request != [] && TrimSpace(userId) != "" && rid in db.restaurants && db.restaurants[rid]
    requires QuoteFor(RestaurantMenu(db.menu, rid), request) == Ok(quote)
    requires Storable(quote) && |itemIds| == |quote.lines|
    ensures CreateOrder(db, userId, rid, request, order, itemIds, rowId, stamp) ==
            (PlaceOrder(db, TrimSpace(userId), rid, quote, order, itemIds, rowId, stamp), Done)
  {}

  lemma {:induction false} PlaceCommitIsAtomic(db: Db, tx: Tx)
    requires tx.prog.PlaceProg? && PlaceOk(db, tx) && Finishable(tx)
    ensures Apply(db, OpOf(tx)) == (Install(db, tx.writes), Done)
  {
    QuoteIsCurrent(db, tx);
    AnnouncedIsReady(db, tx);
    PlaceInstalls(db, tx);
    CurrentQuoteIsPlaced(db, tx.prog.userId, tx.prog.rid, tx.prog.request, QuoteOf(tx.prog),
                         tx.pc.newOrder, tx.pc.itemIds, tx.pc.rowId, tx.pc.stamp);
  }

  lemma {:induction false} UpsertCommitIsAtomic(db: Db, tx: Tx)
    requires tx.prog.UpsertProg? && UpsertOk(db, tx) && Finishable(tx)
    ensures Apply(db, OpOf(tx)) == (Install(db, tx.writes), Done)
  {
    assert tx.prog.items[..|tx.pc.ids|] == tx.prog.items;
    OverlayIsUpsertAll(db.menu, tx.prog.rid, tx.prog.items, tx.pc.ids);
    assert db.orders + map[] == db.orders;
    assert db.items + [] == db.items && db.events + [] == db.events && db.outbox + [] == db.outbox;
  }

  /* A commit does to the tables what the atomic operation does to them at that very point. */
  lemma {:induction false} CommitIsAtomic(db: Db, tx: Tx)
    requires TxOk(db, tx) && Finishable(tx)
    ensures Apply(db, OpOf(tx)) == (Install(db, tx.writes), Done)
  {
    match tx.prog
    case StatusProg(_, _, _) => StatusCommitIsAtomic(db, tx);
    case PlaceProg(_, _, _, _) => PlaceCommitIsAtomic(db, tx);
    case UpsertProg(_, _) => UpsertCommitIsAtomic(db, tx);
  }

  lemma {:induction false} StatusCommitKeepsDb(db: Db, tx: Tx)
    requires DbOk(db) && tx.prog.StatusProg? && StatusOk(db, tx) && Finishable(tx)
    ensures DbOk(Install(db, tx.writes)) && Evolves(db, Install(db, tx.writes))
  {
    StatusCommitIsAtomic(db, tx);
    var StatusOp(order, target, rowId, stamp) := OpOf(tx);
    SetStatusEvolves(db, order, target, rowId, stamp);
    if tx.pc.Locked? {
      assert SetStatus(db, order, target, rowId, stamp).0 == db;
    } else {
      SetStatusKeeps(db, order, target, rowId, stamp);
    }
  }

  lemma {:induction false} QuotesWrap(prog: Prog)
    requires prog.PlaceProg? && QuoteFor(prog.seen, prog.request).Ok?
    ensures QuoteOf(prog).totalCents == Wrap(LineTotal(QuoteOf(prog).lines))
  {}

  lemma {:induction false} PlaceCommitKeepsDb(db: Db, tx: Tx)
    requires DbOk(db) && ReadyToPlace(db, tx) && QuoteFor(tx.prog.seen, tx.prog.request).Ok?
    ensures DbOk(Install(db, tx.writes)) && Evolves(db, Install(db, tx.writes))
  {
    PlaceInstalls(db, tx);
    QuotesWrap(tx.prog);
    var quote, userId, rid := QuoteOf(tx.prog), TrimSpace(tx.prog.userId), tx.prog.rid;
    PlaceOrderKeeps(db, userId, rid, quote, tx.pc.newOrder, tx.pc.itemIds, tx.pc.rowId, tx.pc.stamp);
    PlaceOrderEvolves(db, userId, rid, quote, tx.pc.newOrder, tx.pc.itemIds, tx.pc.rowId, tx.pc.stamp);
  }

  lemma {:induction false} CommitKeepsDb(db: Db, tx: Tx)
    requires DbOk(db) && TxOk(db, tx) && Finishable(tx)
    ensures DbOk(Install(db, tx.writes)) && Evolves(db, Install(db, tx.writes))
  {
    match tx.prog
    case StatusProg(_, _, _) => StatusCommitKeepsDb(db, tx);
    case PlaceProg(_, _, _, _) =>
      AnnouncedIsReady(db, tx);
      PlaceCommitKeepsDb(db, tx);
    case UpsertProg(rid, items) =>
      UpsertCommitIsAtomic(db, tx);
      UpsertMenuKeeps(db, rid, items, tx.pc.ids);
  }

  /******* Each statement adds to what the transaction knows *******/

  lemma {:induction false} StatusLockedOk(db: Db, tx: Tx)
    requires tx.prog.StatusProg? && tx.pc.Begun? && tx.prog.order in db.orders
    ensures TxOk(db, tx) ==> TxOk(db, tx.(pc := Locked(db.orders[tx.prog.order].status)))
  {}

  lemma {:induction false} StatusWrittenOk(db: Db, tx: Tx)
    requires tx.prog.StatusProg? && tx.pc.Locked? && CanTransition(tx.pc.old_, tx.prog.target) && tx.prog.order in db.orders
    ensures TxOk(db, tx) ==> TxOk(db, StatusWritten(db, tx))
  {
    var order := tx.prog.order;
    var row := db.orders[order].(status := tx.prog.target);
    assert map[][order := row] == map[order := row];
  }

  lemma {:induction false} StatusRecordedOk(db: Db, tx: Tx)
    requires tx.prog.StatusProg? && tx.pc.RowWritten?
    ensures TxOk(db, tx) ==> TxOk(db, StatusRecorded(tx))
  {}

  lemma {:induction false} CancelQueuedOk(db: Db, tx: Tx, rowId: int, stamp: int)
    requires tx.prog.StatusProg? && tx.pc.Recorded? && tx.prog.target == Cancelled && tx.prog.order in tx.writes.orders
    ensures TxOk(db, tx) && FreshRow(db.outbox, rowId) ==> TxOk(db, CancelQueued(tx, rowId, stamp))
  {}

  lemma {:induction false} OneMoreRowCurrent(db: Db, rid: int, rows: map<int, MenuItem>, id: int)
    requires RowsCurrent(db, rid, rows) && id in RestaurantMenu(db.menu, rid)
    ensures RowsCurrent(db, rid, rows[id := db.menu.rows[id]])
  {}

  lemma {:induction false} MenuRowReadOk(db: Db, tx: Tx, id: int)
    requires tx.prog.PlaceProg? && tx.pc.Reading? && id in RestaurantMenu(db.menu, tx.prog.rid)
    ensures TxOk(db, tx) ==> TxOk(db, MenuRowRead(tx, id, db.menu.rows[id]))
  {
    if TxOk(db, tx) {
      OneMoreRowCurrent(db, tx.prog.rid, tx.pc.rows, id);
    }
  }

  lemma {:induction false} MenuCheckedOk(db: Db, tx: Tx)
    requires tx.prog.PlaceProg? && tx.pc.Reading? && Revalidate(tx.pc.rows, QuoteOf(tx.prog).lines) == None
    ensures TxOk(db, tx) ==> TxOk(db, tx.(pc := Checked(tx.pc.rows)))
  {}

  lemma {:induction false} OrderInsertedOk(db: Db, tx: Tx, newOrder: int)
    requires tx.prog.PlaceProg? && tx.pc.Checked? && QuoteOf(tx.prog).totalCents >= 0
    ensures TxOk(db, tx) && newOrder !in db.orders ==> TxOk(db, OrderInserted(tx, newOrder))
  {
    if TxOk(db, tx) && newOrder !in db.orders {
      assert map[][newOrder := NewOrderRow(tx.prog)] == map[newOrder := NewOrderRow(tx.prog)];
      assert ItemRows(newOrder, QuoteOf(tx.prog).lines, []) == [];
      assert InsertedOk(db, OrderInserted(tx, newOrder));
    }
  }

  lemma {:induction false} ItemRowsAppend(order: int, lines: seq<OrderLine>, ids: seq<int>, id: int)
    requires |ids| < |lines|
    ensures ItemRows(order, lines, ids + [id]) == ItemRows(order, lines, ids) + [ItemRow(id, order, lines[|ids|])]
  {}

  // From here on only what was inserted matters.
  lemma {:induction false} InsertedMeansPlaceOk(db: Db, tx: Tx, tx': Tx)
    requires tx.prog.PlaceProg? && PlaceOk(db, tx) && GotOrder(tx.pc)
    requires tx'.prog == tx.prog && GotOrder(tx'.pc) && tx'.pc.rows == tx.pc.rows && InsertedOk(db, tx')
    ensures TxOk(db, tx')
  {}

  lemma {:induction false} ItemInsertedIn(db: Db, tx: Tx, itemId: int)
    requires ItemsPending(tx) && InsertedOk(db, tx)
    requires StorableLine(QuoteOf(tx.prog).lines[|tx.pc.itemIds|])
    ensures InsertedOk(db, ItemInserted(tx, itemId))
  {
    assert StorableUpTo(QuoteOf(tx.prog).lines, |tx.pc.itemIds| + 1);
    ItemRowsAppend(tx.pc.newOrder, QuoteOf(tx.prog).lines, tx.pc.itemIds, itemId);
  }

  lemma {:induction false} ItemInsertedOk(db: Db, tx: Tx, itemId: int)
    requires ItemsPending(tx) && StorableLine(QuoteOf(tx.prog).lines[|tx.pc.itemIds|])
    ensures TxOk(db, tx) ==> TxOk(db, ItemInserted(tx, itemId))
  {
    if TxOk(db, tx) {
      ItemInsertedIn(db, tx, itemId);
      InsertedMeansPlaceOk(db, tx, ItemInserted(tx, itemId));
    }
  }

  lemma {:induction false} CreationAuditedIn(db: Db, tx: Tx)
    requires tx.prog.PlaceProg? && tx.pc.Inserting? && |tx.pc.itemIds| == |QuoteOf(tx.prog).lines| && InsertedOk(db, tx)
    ensures InsertedOk(db, CreationAudited(tx))
  {}

  lemma {:induction false} CreationAuditedOk(db: Db, tx: Tx)
    requires tx.prog.PlaceProg? && tx.pc.Inserting? && |tx.pc.itemIds| == |QuoteOf(tx.prog).lines|
    ensures TxOk(db, tx) ==> TxOk(db, CreationAudited(tx))
  {
    if TxOk(db, tx) {
      CreationAuditedIn(db, tx);
      InsertedMeansPlaceOk(db, tx, CreationAudited(tx));
    }
  }

  lemma {:induction false} OrderAnnouncedIn(db: Db, tx: Tx, rowId: int, stamp: int)
    requires tx.prog.PlaceProg? && tx.pc.Audited? && InsertedOk(db, tx) && FreshRow(db.outbox, rowId)
    ensures InsertedOk(db, OrderAnnounced(tx, rowId, stamp))
  {}

  lemma {:induction false} OrderAnnouncedOk(db: Db, tx: Tx, rowId: int, stamp: int)
    requires tx.prog.PlaceProg? && tx.pc.Audited?
    ensures TxOk(db, tx) && FreshRow(db.outbox, rowId) ==> TxOk(db, OrderAnnounced(tx, rowId, stamp))
  {
    if TxOk(db, tx) && FreshRow(db.outbox, rowId) {
      OrderAnnouncedIn(db, tx, rowId, stamp);
      InsertedMeansPlaceOk(db, tx, OrderAnnounced(tx, rowId, stamp));
    }
  }

  // The next row version of a batch is computed from the committed rows as the earlier ones were.
  lemma {:induction false} NextTarget(db: Db, tx: Tx, id: int)
    requires RowsPending(tx) && UpsertOk(db, tx)
    ensures var rid, item := tx.prog.rid, tx.prog.items[|tx.pc.ids|];
      Target(Overlay(db.menu, tx.writes.menuRows, tx.writes.menuIndex), rid, item, id) == Target(db.menu, rid, item, id)
  {
    var n := |tx.pc.ids|;
    BatchIndexKeys(db.menu, tx.prog.rid, tx.prog.items[..n], tx.pc.ids, NextKey(tx));
  }

  lemma {:induction false} BatchOneMore(m: MenuTable, rid: int, items: seq<MenuInput>, ids: seq<int>, id: int)
    requires |ids| < |items|
    ensures var n := |ids|;
      var target := Target(m, rid, items[n], id);
      && BatchRows(m, rid, items[..n + 1], ids + [id]) ==
         BatchRows(m, rid, items[..n], ids)[target := NewRow(target, rid, items[n])]
      && BatchIndex(m, rid, items[..n + 1], ids + [id]) ==
         BatchIndex(m, rid, items[..n], ids)[InputKey(rid, items[n]) := target]
  {
    var n := |ids|;
    assert items[..n + 1][..n] == items[..n] && (ids + [id])[..n] == ids;
  }

  lemma {:induction false} MenuRowWrittenOk(db: Db, tx: Tx, id: int)
    requires RowsPending(tx) && tx.prog.rid in db.restaurants
    ensures TxOk(db, tx) && id !in db.menu.rows && id !in tx.pc.ids ==> TxOk(db, MenuRowWritten(db, tx, id))
  {
    if TxOk(db, tx) && id !in db.menu.rows && id !in tx.pc.ids {
      NextTarget(db, tx, id);
      BatchOneMore(db.menu, tx.prog.rid, tx.prog.items, tx.pc.ids, id);
    }
  }

  /******* What each statement locks *******/

  // After the step the transaction may hold own and share in addition to what it held.
  ghost predicate Acquires(a: Tx, b: Tx, own: set<Resource>, share: set<Resource>) {
    forall r :: (Owns(b, r) ==> Owns(a, r) || r in own) && (Shares(b, r) ==> Shares(a, r) || r in share)
  }

  lemma {:induction false} NewcomerHoldsNothing(a: Tx, tx: Tx)
    requires if tx.prog.StatusProg? then tx.pc.Begun? else tx.pc == Reading(map[]) || tx.pc == Upserting([])
    ensures Acquires(a, tx, {}, {})
  {
    assert forall r :: !Owns(tx, r) && !Shares(tx, r);
  }

  lemma {:induction false} StatusAcquires(tx: Tx, tx': Tx)
    requires tx.prog.StatusProg? && tx'.prog == tx.prog
    requires tx'.pc.Locked? || tx'.pc.RowWritten? || tx'.pc.Recorded? || tx'.pc.Queued?
    ensures var own := if tx'.pc.Queued? then {NewId(tx'.pc.rowId)} else {};
      Acquires(tx, tx', if tx.pc.Begun? then own + {OrderLock(tx.prog.order)} else own, {})
  {}

  lemma {:induction false} ReadingAcquires(tx: Tx, id: int, row: MenuItem)
    requires tx.prog.PlaceProg? && tx.pc.Reading?
    ensures Acquires(tx, MenuRowRead(tx, id, row), {}, {MenuLock(KeyOf(row))})
    ensures Acquires(tx, tx.(pc := Checked(tx.pc.rows)), {}, {})
  {}

  lemma {:induction false} InsertingAcquires(tx: Tx, newOrder: int)
    requires tx.prog.PlaceProg? && tx.pc.Checked?
    ensures Acquires(tx, OrderInserted(tx, newOrder), {NewId(newOrder), OrderLock(newOrder)}, {})
  {}

  lemma {:induction false} PlacingAcquires(tx: Tx, tx': Tx)
    requires tx.prog.PlaceProg? && tx'.prog == tx.prog && GotOrder(tx.pc) && GotOrder(tx'.pc)
    requires tx'.pc.newOrder == tx.pc.newOrder && tx'.pc.rows == tx.pc.rows
    ensures Acquires(tx, tx', if tx'.pc.Announced? then {NewId(tx'.pc.rowId)} else {}, {})
  {}

  lemma {:induction false} MenuWriteAcquires(db: Db, tx: Tx, id: int)
    requires RowsPending(tx)
    ensures Acquires(tx, MenuRowWritten(db, tx, id), {MenuLock(NextKey(tx)), NewId(id)}, {})
  {}
}
