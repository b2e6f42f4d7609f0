/**
 Pricing of an order request: the two loops of OrderService.CreateOrder that merge repeated positions
 and add up the total, and the second check that the repository makes under row locks.
 */
module Pricing {
  import opened Common
  import opened Int64
  import opened Menu

  datatype OrderItemCreate = OrderItemCreate(menuItemId: int, quantity: int)

  datatype OrderLine = OrderLine(menuItemId: int, quantity: int, unitPriceCents: int)

  datatype Quote = Quote(lines: seq<OrderLine>, totalCents: int)

  /******* What a request asks for, in exact arithmetic *******/

  function QuantityOf(items: seq<OrderItemCreate>, id: int): int {
    if items == [] then 0
    else
      var n := |items| - 1;
      QuantityOf(items[..n], id) + if items[n].menuItemId == id then items[n].quantity else 0
  }

  // The distinct ids in the order in which they first occur.
  function FirstOccurrences(items: seq<OrderItemCreate>): seq<int> {
    if items == [] then []
    else
      var n := |items| - 1;
      var ids := FirstOccurrences(items[..n]);
      if items[n].menuItemId in ids then ids else ids + [items[n].menuItemId]
  }

  ghost predicate Distinct(ids: seq<int>) {
    forall i, j :: 0 <= i < j < |ids| ==> ids[i] != ids[j]
  }

  lemma {:induction false} FirstOccurrencesAreDistinct(items: seq<OrderItemCreate>)
    ensures Distinct(FirstOccurrences(items))
    ensures forall id :: id in FirstOccurrences(items) <==> exists i :: 0 <= i < |items| && items[i].menuItemId == id
    ensures |FirstOccurrences(items)| <= |items|
  {
    if items != [] {
      var n := |items| - 1;
      FirstOccurrencesAreDistinct(items[..n]);
      forall id | id in FirstOccurrences(items)
        ensures exists i :: 0 <= i < |items| && items[i].menuItemId == id
      {
        if id in FirstOccurrences(items[..n]) {
          var i :| 0 <= i < n && items[..n][i].menuItemId == id;
          assert items[i].menuItemId == id;
        } else {
          assert items[n].menuItemId == id;
        }
      }
      forall i | 0 <= i < |items| ensures items[i].menuItemId in FirstOccurrences(items) {
        if i < n {
          assert items[..n][i] == items[i];
        }
      }
    }
  }

  /* First-occurrence order: an id stands before another exactly when it is met first. */
  lemma {:induction false} FirstOccurrencesKeepOrder(items: seq<OrderItemCreate>, n: nat)
    requires n <= |items|
    ensures FirstOccurrences(items[..n]) <= FirstOccurrences(items)
    decreases |items|
  {
    if n == |items| {
      assert items[..n] == items;
    } else {
      var m := |items| - 1;
      assert items[..m][..n] == items[..n];
      FirstOccurrencesKeepOrder(items[..m], n);
    }
  }

  function PriceOf(menu: map<int, MenuItem>, id: int): int {
    if id in menu then menu[id].priceCents else 0
  }

  // The plain sum over the raw request: price times quantity, position by position.
  function RawTotal(menu: map<int, MenuItem>, items: seq<OrderItemCreate>): int {
    if items == [] then 0
    else
      var n := |items| - 1;
      RawTotal(menu, items[..n]) + PriceOf(menu, items[n].menuItemId) * items[n].quantity
  }

  /******* What CreateOrder computes *******/

  function FirstProblem(menu: map<int, MenuItem>, ids: seq<int>): Option<Error> {
    if ids == [] then None
    else if ids[0] !in menu then Some(MenuItemNotFound)
    else if !menu[ids[0]].isAvailable then Some(MenuItemUnavailable)
    else FirstProblem(menu, ids[1..])
  }

  ghost predicate AllOffered(menu: map<int, MenuItem>, ids: seq<int>) {
    forall i :: 0 <= i < |ids| ==> ids[i] in menu && menu[ids[i]].isAvailable
  }

  lemma {:induction false} NoProblemMeansOffered(menu: map<int, MenuItem>, ids: seq<int>)
    ensures FirstProblem(menu, ids) == None <==> AllOffered(menu, ids)
  {
    if ids != [] {
      assert forall i :: 1 <= i < |ids| ==> ids[i] == ids[1..][i - 1];
      assert forall i :: 0 <= i < |ids[1..]| ==> ids[1..][i] == ids[i + 1];
      NoProblemMeansOffered(menu, ids[1..]);
    }
  }

  function LineFor(menu: map<int, MenuItem>, items: seq<OrderItemCreate>, id: int): OrderLine
    requires id in menu
  {
    OrderLine(id, Wrap(QuantityOf(items, id)), menu[id].priceCents)
  }

  function LinesFor(menu: map<int, MenuItem>, items: seq<OrderItemCreate>, ids: seq<int>): (lines: seq<OrderLine>)
    requires forall i :: 0 <= i < |ids| ==> ids[i] in menu
    ensures |lines| == |ids|
    ensures forall i :: 0 <= i < |ids| ==> lines[i] == LineFor(menu, items, ids[i])
  {
    seq(|ids|, i requires 0 <= i < |ids| => LineFor(menu, items, ids[i]))
  }

  function LineTotal(lines: seq<OrderLine>): int {
    if lines == [] then 0
    else
      var n := |lines| - 1;
      LineTotal(lines[..n]) + lines[n].unitPriceCents * lines[n].quantity
  }

  predicate AllPositive(items: seq<OrderItemCreate>) {
    forall i :: 0 <= i < |items| ==> items[i].quantity > 0
  }

  function QuoteFor(menu: map<int, MenuItem>, items: seq<OrderItemCreate>): Result<Quote> {
    if !AllPositive(items) then Err(InvalidQuantity)
    else
      var ids := FirstOccurrences(items);
      match FirstProblem(menu, ids)
      case Some(e) => Err(e)
      case None =>
        NoProblemMeansOffered(menu, ids);
        var lines := LinesFor(menu, items, ids);
        Ok(Quote(lines, Wrap(LineTotal(lines))))
  }

  /******* The grouped total is the plain sum *******/

  function GroupedTotal(menu: map<int, MenuItem>, items: seq<OrderItemCreate>, ids: seq<int>): int {
    if ids == [] then 0
    else
      var n := |ids| - 1;
      GroupedTotal(menu, items, ids[..n]) + PriceOf(menu, ids[n]) * QuantityOf(items, ids[n])
  }

  lemma {:induction false} OneMoreItem(menu: map<int, MenuItem>, items: seq<OrderItemCreate>, ids: seq<int>)
    requires items != [] && Distinct(ids)
    ensures var x := items[|items| - 1];
      GroupedTotal(menu, items, ids) == GroupedTotal(menu, items[..|items| - 1], ids) +
        if x.menuItemId in ids then PriceOf(menu, x.menuItemId) * x.quantity else 0
  {
    if ids != [] {
      var n := |ids| - 1;
      OneMoreItem(menu, items, ids[..n]);
      var x := items[|items| - 1];
      if x.menuItemId == ids[n] {
        var before := QuantityOf(items[..|items| - 1], ids[n]);
        Distribute(PriceOf(menu, ids[n]), before, x.quantity);
        assert x.menuItemId !in ids[..n];
      } else {
        assert x.menuItemId in ids <==> x.menuItemId in ids[..n];
      }
    }
  }

  lemma {:induction false} Distribute(p: int, a: int, b: int)
    ensures p * (a + b) == p * a + p * b
  {}

  lemma {:induction false} AbsentQuantity(items: seq<OrderItemCreate>, id: int)
    requires id !in FirstOccurrences(items)
    ensures QuantityOf(items, id) == 0
  {
    if items != [] {
      AbsentQuantity(items[..|items| - 1], id);
    }
  }

  lemma {:induction false} GroupAppended(menu: map<int, MenuItem>, items: seq<OrderItemCreate>, ids: seq<int>, id: int)
    ensures GroupedTotal(menu, items, ids + [id]) ==
            GroupedTotal(menu, items, ids) + PriceOf(menu, id) * QuantityOf(items, id)
  {
    assert (ids + [id])[..|ids|] == ids;
  }

  /* Merging repeated positions conserves the sum, exactly. */
  lemma {:induction false} GroupingConserves(menu: map<int, MenuItem>, items: seq<OrderItemCreate>)
    ensures GroupedTotal(menu, items, FirstOccurrences(items)) == RawTotal(menu, items)
  {
    if items != [] {
      var n := |items| - 1;
      var ids := FirstOccurrences(items[..n]);
      GroupingConserves(menu, items[..n]);
      FirstOccurrencesAreDistinct(items[..n]);
      OneMoreItem(menu, items, ids);
      if items[n].menuItemId !in ids {
        AbsentQuantity(items[..n], items[n].menuItemId);
        assert QuantityOf(items, items[n].menuItemId) == items[n].quantity;
        GroupAppended(menu, items, ids, items[n].menuItemId);
      }
    }
  }

  lemma {:induction false} LinesWrapToGrouped(menu: map<int, MenuItem>, items: seq<OrderItemCreate>, ids: seq<int>)
    requires forall i :: 0 <= i < |ids| ==> ids[i] in menu
    ensures Congruent(LineTotal(LinesFor(menu, items, ids)), GroupedTotal(menu, items, ids))
  {
    if ids != [] {
      var n := |ids| - 1;
      LinesWrapToGrouped(menu, items, ids[..n]);
      assert LinesFor(menu, items, ids)[..n] == LinesFor(menu, items, ids[..n]);
      var p, q := menu[ids[n]].priceCents, QuantityOf(items, ids[n]);
      CongruentProduct(p, Wrap(q), q);
      CongruentSum(LineTotal(LinesFor(menu, items, ids[..n])), GroupedTotal(menu, items, ids[..n]), p * Wrap(q), p * q);
    }
  }

  ghost predicate AllOrderable(menu: map<int, MenuItem>, items: seq<OrderItemCreate>) {
    forall i :: 0 <= i < |items| ==> items[i].menuItemId in menu && menu[items[i].menuItemId].isAvailable
  }

  lemma {:induction false} OfferedMeansOrderable(menu: map<int, MenuItem>, items: seq<OrderItemCreate>)
    ensures AllOffered(menu, FirstOccurrences(items)) <==> AllOrderable(menu, items)
  {
    var ids := FirstOccurrences(items);
    FirstOccurrencesAreDistinct(items);
    if AllOffered(menu, ids) {
      forall i | 0 <= i < |items| ensures items[i].menuItemId in menu && menu[items[i].menuItemId].isAvailable {
        assert items[i].menuItemId in ids;
      }
    }
    if AllOrderable(menu, items) {
      forall i | 0 <= i < |ids| ensures ids[i] in menu && menu[ids[i]].isAvailable {
        assert ids[i] in ids;
      }
    }
  }

  /*
   A quote in terms of the raw request: when it succeeds, what its lines are, and its total as the
   64-bit word of the plain sum.
   */
  lemma {:induction false} QuoteMeaning(menu: map<int, MenuItem>, items: seq<OrderItemCreate>)
    ensures QuoteFor(menu, items).Ok? <==>
            AllPositive(items) && AllOrderable(menu, items)
    ensures QuoteFor(menu, items) == Err(InvalidQuantity) <==> !AllPositive(items)
    ensures QuoteFor(menu, items).Ok? ==>
      var q := QuoteFor(menu, items).value;
      && |q.lines| == |FirstOccurrences(items)|
      && (forall i :: 0 <= i < |q.lines| ==>
            && q.lines[i].menuItemId == FirstOccurrences(items)[i]
            && q.lines[i].quantity == Wrap(QuantityOf(items, q.lines[i].menuItemId))
            && q.lines[i].menuItemId in menu
            && q.lines[i].unitPriceCents == menu[q.lines[i].menuItemId].priceCents)
      && q.totalCents == Wrap(RawTotal(menu, items))
  {
    var ids := FirstOccurrences(items);
    NoProblemMeansOffered(menu, ids);
    OfferedMeansOrderable(menu, items);
    ProblemKinds(menu, ids);
    if QuoteFor(menu, items).Ok? {
      GroupingConserves(menu, items);
      LinesWrapToGrouped(menu, items, ids);
      WrapAgrees(LineTotal(LinesFor(menu, items, ids)), RawTotal(menu, items));
    }
  }

  lemma {:induction false} ProblemKinds(menu: map<int, MenuItem>, ids: seq<int>)
    ensures FirstProblem(menu, ids).Some? ==>
      FirstProblem(menu, ids).value in [MenuItemNotFound, MenuItemUnavailable]
  {
    if ids != [] {
      ProblemKinds(menu, ids[1..]);
    }
  }

  /* Which menu error is reported: that of the first problematic id in first-occurrence order. */
  lemma {:induction false} FirstProblemIsFirst(menu: map<int, MenuItem>, ids: seq<int>, k: nat)
    requires k < |ids| && AllOffered(menu, ids[..k])
    requires ids[k] !in menu || !menu[ids[k]].isAvailable
    ensures FirstProblem(menu, ids) == Some(if ids[k] in menu then MenuItemUnavailable else MenuItemNotFound)
  {
    if k > 0 {
      assert ids[..k][0] == ids[0];
      assert ids[1..][..k - 1] == ids[..k][1..];
      FirstProblemIsFirst(menu, ids[1..], k - 1);
    }
  }

  /******* When the 64-bit words are the exact numbers *******/

  ghost predicate PricesNonNegative(menu: map<int, MenuItem>) {
    forall id :: id in menu ==> menu[id].priceCents >= 0
  }

  lemma {:induction false} RawTotalNonNegative(menu: map<int, MenuItem>, items: seq<OrderItemCreate>)
    requires AllPositive(items) && PricesNonNegative(menu)
    ensures RawTotal(menu, items) >= 0
  {
    if items != [] {
      var n := |items| - 1;
      RawTotalNonNegative(menu, items[..n]);
      assert PriceOf(menu, items[n].menuItemId) >= 0;
      assert PriceOf(menu, items[n].menuItemId) * items[n].quantity >= 0;
    }
  }

  lemma {:induction false} QuantityNonNegative(items: seq<OrderItemCreate>, id: int)
    requires AllPositive(items)
    ensures QuantityOf(items, id) >= 0
  {
    if items != [] {
      QuantityNonNegative(items[..|items| - 1], id);
    }
  }

  lemma {:induction false} WrapExact(x: int)
    requires 0 <= x
    ensures Wrap(x) == x <==> x < TWO_63
  {}

  /* The total is the exact sum if and only if that sum is below 2^63. */
  lemma {:induction false} TotalExactWhenBelow(menu: map<int, MenuItem>, items: seq<OrderItemCreate>)
    requires QuoteFor(menu, items).Ok? && PricesNonNegative(menu)
    ensures QuoteFor(menu, items).value.totalCents == RawTotal(menu, items) <==> RawTotal(menu, items) < TWO_63
  {
    QuoteMeaning(menu, items);
    RawTotalNonNegative(menu, items);
    WrapExact(RawTotal(menu, items));
  }

  /* A line carries the exact summed quantity if and only if that sum is below 2^63. */
  lemma {:induction false} QuantityExactWhenBelow(menu: map<int, MenuItem>, items: seq<OrderItemCreate>, i: nat)
    requires QuoteFor(menu, items).Ok? && i < |QuoteFor(menu, items).value.lines|
    ensures var line := QuoteFor(menu, items).value.lines[i];
      line.quantity == QuantityOf(items, line.menuItemId) <==> QuantityOf(items, line.menuItemId) < TWO_63
  {
    QuoteMeaning(menu, items);
    var id := QuoteFor(menu, items).value.lines[i].menuItemId;
    QuantityNonNegative(items, id);
    WrapExact(QuantityOf(items, id));
  }

  lemma {:induction false} GroupedTotalBounded(
    menu: map<int, MenuItem>, items: seq<OrderItemCreate>, ids: seq<int>, price: int, quantity: int)
    requires forall i :: 0 <= i < |ids| ==> 0 <= PriceOf(menu, ids[i]) <= price
    requires forall i :: 0 <= i < |ids| ==> 0 <= QuantityOf(items, ids[i]) <= quantity
    requires price >= 0 && quantity >= 0
    ensures GroupedTotal(menu, items, ids) <= |ids| * price * quantity
  {
    if ids != [] {
      var n := |ids| - 1;
      GroupedTotalBounded(menu, items, ids[..n], price, quantity);
      ProductMonotone(PriceOf(menu, ids[n]), price, QuantityOf(items, ids[n]), quantity);
      OneMoreProduct(n, price, quantity);
    }
  }

  lemma {:induction false} OneMoreProduct(n: int, price: int, quantity: int)
    ensures (n + 1) * price * quantity == n * price * quantity + price * quantity
  {
    assert (n + 1) * price == n * price + price;
  }

  lemma {:induction false} ProductMonotone(a: int, b: int, c: int, d: int)
    requires 0 <= a <= b && 0 <= c <= d
    ensures a * c <= b * d
  {
    assert a * c <= b * c;
    assert b * c <= b * d;
  }

  lemma {:induction false} RawTotalBounded(menu: map<int, MenuItem>, items: seq<OrderItemCreate>, price: int, quantity: int)
    requires AllPositive(items)
    requires forall i :: 0 <= i < |items| ==> 0 <= PriceOf(menu, items[i].menuItemId) <= price
    requires forall id :: QuantityOf(items, id) <= quantity
    requires price >= 0 && quantity >= 0
    ensures RawTotal(menu, items) <= |FirstOccurrences(items)| * price * quantity
  {
    var ids := FirstOccurrences(items);
    FirstOccurrencesAreDistinct(items);
    GroupingConserves(menu, items);
    forall i | 0 <= i < |ids|
      ensures 0 <= PriceOf(menu, ids[i]) <= price
      ensures 0 <= QuantityOf(items, ids[i]) <= quantity
    {
      assert ids[i] in ids;
      QuantityNonNegative(items, ids[i]);
    }
    GroupedTotalBounded(menu, items, ids, price, quantity);
  }

  /*
   A bound a caller can check: when every summed quantity fits the quantity column and the number of
   lines times the highest price is at most 2^32, nothing wraps.
   */
  lemma {:induction false} ExactWithinBounds(menu: map<int, MenuItem>, items: seq<OrderItemCreate>, price: int)
    requires QuoteFor(menu, items).Ok? && PricesNonNegative(menu) && price >= 0
    requires forall i :: 0 <= i < |items| ==> PriceOf(menu, items[i].menuItemId) <= price
    requires forall id :: QuantityOf(items, id) <= 0x7FFF_FFFF
    requires |FirstOccurrences(items)| * price <= 0x1_0000_0000
    ensures QuoteFor(menu, items).value.totalCents == RawTotal(menu, items)
  {
    TotalExactWhenBelow(menu, items);
    QuoteMeaning(menu, items);
    RawTotalBounded(menu, items, price, 0x7FFF_FFFF);
    var most := |FirstOccurrences(items)| * price;
    ProductMonotone(most, 0x1_0000_0000, 0x7FFF_FFFF, 0x7FFF_FFFF);
  }

  // A request for one dish only, in however many positions.
  ghost predicate OnlyFor(items: seq<OrderItemCreate>, id: int) {
    items != [] && AllPositive(items) && forall i :: 0 <= i < |items| ==> items[i].menuItemId == id
  }

  lemma {:induction false} OneOccurrence(items: seq<OrderItemCreate>, id: int)
    requires OnlyFor(items, id)
    ensures FirstOccurrences(items) == [id]
  {
    if |items| > 1 {
      OneOccurrence(items[..|items| - 1], id);
    } else {
      assert items[..0] == [];
    }
  }

  lemma {:induction false} OneLineTotal(line: OrderLine)
    ensures LineTotal([line]) == line.unitPriceCents * line.quantity
  {
    assert [line][..0] == [];
  }

  // Its quote: one line, with the summed quantity as a word, priced in words.
  lemma {:induction false} OneDishQuote(menu: map<int, MenuItem>, items: seq<OrderItemCreate>, id: int)
    requires OnlyFor(items, id) && id in menu && menu[id].isAvailable
    ensures var p, q := menu[id].priceCents, QuantityOf(items, id);
      && QuoteFor(menu, items) == Ok(Quote([OrderLine(id, Wrap(q), p)], Wrap(p * Wrap(q))))
      && RawTotal(menu, items) == p * q
  {
    OneOccurrence(items, id);
    NoProblemMeansOffered(menu, [id]);
    assert LinesFor(menu, items, [id]) == [LineFor(menu, items, id)];
    OneLineTotal(LineFor(menu, items, id));
    GroupingConserves(menu, items);
    assert [id][..0] == [];
  }

  /* Three positions of one dish that add up to 2^64 + 5. */
  function HugeRequest(id: int): (items: seq<OrderItemCreate>)
    ensures OnlyFor(items, id) && forall i :: 0 <= i < |items| ==> InRange(items[i].quantity)
  {
    [OrderItemCreate(id, TWO_63 - 1), OrderItemCreate(id, TWO_63 - 1), OrderItemCreate(id, 7)]
  }

  lemma {:induction false} HugeQuantity(id: int)
    ensures QuantityOf(HugeRequest(id), id) == TWO_64 + 5
  {
    var items := HugeRequest(id);
    assert items[..2] == [OrderItemCreate(id, TWO_63 - 1), OrderItemCreate(id, TWO_63 - 1)];
    assert items[..2][..1] == [OrderItemCreate(id, TWO_63 - 1)];
    assert items[..2][..1][..0] == [];
    assert QuantityOf(items[..2][..1], id) == TWO_63 - 1;
    assert QuantityOf(items[..2], id) == 2 * TWO_63 - 2;
  }

  /******* The second check, under locks *******/

  // What the repository answers after it has locked and read the rows of the lines again.
  function Revalidate(rows: map<int, MenuItem>, lines: seq<OrderLine>): Option<Error> {
    if lines == [] then None
    else if lines[0].menuItemId !in rows then Some(InvalidData)
    else if !rows[lines[0].menuItemId].isAvailable then Some(MenuItemUnavailable)
    else if rows[lines[0].menuItemId].priceCents != lines[0].unitPriceCents then Some(InvalidData)
    else Revalidate(rows, lines[1..])
  }

  ghost predicate StillTrue(rows: map<int, MenuItem>, lines: seq<OrderLine>) {
    forall i :: 0 <= i < |lines| ==>
      && lines[i].menuItemId in rows
      && rows[lines[i].menuItemId].isAvailable
      && rows[lines[i].menuItemId].priceCents == lines[i].unitPriceCents
  }

  lemma {:induction false} RevalidateMeaning(rows: map<int, MenuItem>, lines: seq<OrderLine>)
    ensures Revalidate(rows, lines) == None <==> StillTrue(rows, lines)
  {
    if lines != [] {
      assert forall i :: 1 <= i < |lines| ==> lines[i] == lines[1..][i - 1];
      assert forall i :: 0 <= i < |lines[1..]| ==> lines[1..][i] == lines[i + 1];
      RevalidateMeaning(rows, lines[1..]);
    }
  }

  // The first position that does not hold any more decides the answer.
  lemma {:induction false} RevalidateAt(rows: map<int, MenuItem>, lines: seq<OrderLine>, k: nat)
    requires k < |lines| && StillTrue(rows, lines[..k])
    ensures Revalidate(rows, lines) == Revalidate(rows, lines[k..])
  {
    if k > 0 {
      assert lines[..k][0] == lines[0];
      forall i | 0 <= i < k - 1 ensures lines[1..][..k - 1][i] == lines[..k][1..][i] {}
      assert lines[1..][..k - 1] == lines[..k][1..];
      assert lines[1..][k - 1..] == lines[k..];
      RevalidateAt(rows, lines[1..], k - 1);
    } else {
      assert lines[0..] == lines;
    }
  }

  /*
   Optimistic pricing is linearizable: a quote made from an old menu passes the second check against
   the current menu exactly when pricing the request against the current menu gives that very quote.
   */
  lemma {:induction false} StaleQuoteIsCurrent(old_: map<int, MenuItem>, current: map<int, MenuItem>, items: seq<OrderItemCreate>)
    requires QuoteFor(old_, items).Ok?
    ensures Revalidate(current, QuoteFor(old_, items).value.lines) == None <==>
            QuoteFor(current, items) == QuoteFor(old_, items)
  {
    var ids := FirstOccurrences(items);
    var lines := QuoteFor(old_, items).value.lines;
    NoProblemMeansOffered(old_, ids);
    NoProblemMeansOffered(current, ids);
    RevalidateMeaning(current, lines);
    if StillTrue(current, lines) {
      forall i | 0 <= i < |ids|
        ensures ids[i] in current && current[ids[i]].isAvailable
        ensures LineFor(current, items, ids[i]) == lines[i]
      {
        assert lines[i].menuItemId == ids[i];
      }
      assert LinesFor(current, items, ids) == lines;
    } else if QuoteFor(current, items) == QuoteFor(old_, items) {
      assert AllOffered(current, ids);
      assert LinesFor(current, items, ids) == lines;
      forall i | 0 <= i < |lines|
        ensures lines[i].menuItemId in current && current[lines[i].menuItemId].isAvailable
        ensures current[lines[i].menuItemId].priceCents == lines[i].unitPriceCents
      {
        assert lines[i] == LineFor(current, items, ids[i]);
      }
    }
  }
}
