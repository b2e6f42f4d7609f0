/**
 What the status consumer makes of the messages about one order: every message is offered to the
 transition table, in order, and what the table refuses is skipped.
 */
module Delivery {
  import opened Common
  import opened Statuses
  import opened StatusTopic
  import opened Tables

  // The status after UpdateOrderStatus was asked for target.
  function Receive(old_: Status, target: Status): Status {
    if CanTransition(old_, target) then target else old_
  }

  function ReceiveAll(old_: Status, s: seq<Status>): Status {
    if s == [] then old_ else Receive(ReceiveAll(old_, s[..|s| - 1]), s[|s| - 1])
  }

  lemma {:induction false} ReceiveIsSetStatus(db: Db, order: int, target: Status, rowId: int, stamp: int)
    requires order in db.orders
    ensures SetStatus(db, order, target, rowId, stamp).0.orders ==
            db.orders[order := db.orders[order].(status := Receive(db.orders[order].status, target))]
  {
    assert db.orders[order].(status := db.orders[order].status) == db.orders[order];
  }

  function Max(a: nat, b: nat): nat {
    if a < b then b else a
  }

  lemma {:induction false} RankOfKitchenStatus(rank: nat)
    ensures rank <= LAST ==> Rank(KitchenStatus(rank)) == rank
  {}

  /* One message of a gapless pipeline: cancelled stays, otherwise the status is the furthest one so far. */
  lemma {:induction false} ReceiveAdvances(old_: Status, furthest: nat, target: Status)
    requires old_ == Cancelled || (furthest <= LAST && old_ == KitchenStatus(furthest))
    requires 1 <= Rank(target) <= furthest + 1 && target == KitchenStatus(Rank(target))
    ensures old_ == Cancelled ==> Receive(old_, target) == Cancelled
    ensures old_ != Cancelled ==> Receive(old_, target) == KitchenStatus(Max(furthest, Rank(target)))
  {}

  lemma {:induction false} FurthestBound(s: seq<Status>)
    ensures Furthest(s) <= LAST
  {
    if s != [] {
      FurthestBound(s[..|s| - 1]);
    }
  }

  /* Whatever pipelines sent about an order, any number of times, it ends at the furthest of it. */
  lemma {:induction false} PipelinesLeadToFurthest(s: seq<Status>)
    requires Chained(s)
    ensures ReceiveAll(Created, s) == KitchenStatus(Furthest(s))
  {
    if s != [] {
      var n := |s| - 1;
      PipelinesLeadToFurthest(s[..n]);
      NoGaps(s, n);
      FurthestBound(s[..n]);
      ReceiveAdvances(KitchenStatus(Furthest(s[..n])), Furthest(s[..n]), s[n]);
    }
  }

  /* Delivering any part of it again, in any order, changes nothing. */
  lemma {:induction false} RedeliveryIsHarmless(s: seq<Status>, again: seq<Status>)
    requires Chained(s) && forall i :: 0 <= i < |again| ==> again[i] in s
    ensures ReceiveAll(KitchenStatus(Furthest(s)), again) == KitchenStatus(Furthest(s))
  {
    if again != [] {
      var n := |again| - 1;
      RedeliveryIsHarmless(s, again[..n]);
      assert again[n] in s;
      var i :| 0 <= i < |s| && s[i] == again[n];
      NoGaps(s, i);
      FurthestIsMaximum(s);
      FurthestBound(s);
      ReceiveAdvances(KitchenStatus(Furthest(s)), Furthest(s), again[n]);
    }
  }

  // The message sequence s without its entries of one rank.
  function Without(s: seq<Status>, rank: nat): seq<Status> {
    if s == [] then []
    else
      var n := |s| - 1;
      Without(s[..n], rank) + if Rank(s[n]) == rank then [] else [s[n]]
  }

  lemma {:induction false} ReceiveStaysBelow(old_: Status, target: Status, rank: nat)
    requires Rank(old_) < rank && old_ == KitchenStatus(Rank(old_))
    requires Rank(target) != rank && target == KitchenStatus(Rank(target))
    ensures Rank(Receive(old_, target)) < rank && Receive(old_, target) == KitchenStatus(Rank(Receive(old_, target)))
  {}

  lemma {:induction false} ReceiveOneMore(old_: Status, s: seq<Status>, x: Status)
    ensures ReceiveAll(old_, s + [x]) == Receive(ReceiveAll(old_, s), x)
  {
    assert (s + [x])[..|s|] == s;
  }

  lemma {:induction false} StuckBelow(s: seq<Status>, rank: nat) returns (t: Status)
    requires 1 <= rank && Chained(s)
    ensures t == ReceiveAll(Created, Without(s, rank)) && Rank(t) < rank && t == KitchenStatus(Rank(t))
  {
    if s == [] {
      t := Created;
    } else {
      var n := |s| - 1;
      t := StuckBelow(s[..n], rank);
      if Rank(s[n]) != rank {
        ReceiveOneMore(Created, Without(s[..n], rank), s[n]);
        ReceiveStaysBelow(t, s[n], rank);
        t := Receive(t, s[n]);
      } else {
        assert Without(s, rank) == Without(s[..n], rank);
      }
    }
  }

  lemma {:induction false} NothingWithout(s: seq<Status>, rank: nat)
    requires Furthest(s) < rank
    ensures Without(s, rank) == s
  {
    if s != [] {
      NothingWithout(s[..|s| - 1], rank);
    }
  }

  /*
   Losing every message of one rank leaves the order where it would be otherwise if and only if no
   pipeline got that far.
   */
  lemma {:induction false} RankLossIsHarmlessIff(s: seq<Status>, rank: nat)
    requires 1 <= rank && Chained(s)
    ensures ReceiveAll(Created, Without(s, rank)) == ReceiveAll(Created, s) <==> Furthest(s) < rank
  {
    PipelinesLeadToFurthest(s);
    FurthestBound(s);
    if Furthest(s) < rank {
      NothingWithout(s, rank);
    } else {
      var t := StuckBelow(s, rank);
      RankOfKitchenStatus(Furthest(s));
    }
  }

  /******* One lost message *******/

  lemma {:induction false} ReceiveAllJoin(old_: Status, a: seq<Status>, b: seq<Status>)
    ensures ReceiveAll(old_, a + b) == ReceiveAll(ReceiveAll(old_, a), b)
  {
    if b == [] {
      assert a + b == a;
    } else {
      var n := |b| - 1;
      ReceiveAllJoin(old_, a, b[..n]);
      assert (a + b)[..|a| + n] == a + b[..n];
    }
  }

  lemma {:induction false} ChainedPrefix(s: seq<Status>, n: nat)
    requires Chained(s) && n <= |s|
    ensures Chained(s[..n])
    decreases |s|
  {
    if n < |s| {
      ChainedPrefix(s[..|s| - 1], n);
      assert s[..|s| - 1][..n] == s[..n];
    } else {
      assert s[..n] == s;
    }
  }

  lemma {:induction false} FollowsAt(s: seq<Status>, i: nat)
    requires Chained(s) && 0 < i < |s|
    ensures Follows(s[i - 1], s[i])
  {
    ChainedPrefix(s, i + 1);
    assert s[..i + 1][..i] == s[..i];
    assert Last(s[..i]) == s[i - 1];
  }

  lemma {:induction false} IsKitchenStatus(s: seq<Status>, i: nat)
    requires Chained(s) && i < |s|
    ensures 1 <= Rank(s[i]) <= LAST && s[i] == KitchenStatus(Rank(s[i]))
  {
    NoGaps(s, i);
  }

  lemma {:induction false} SuffixFurthest(s: seq<Status>, i: nat, j: nat)
    requires i <= j <= |s|
    ensures Furthest(s[j..]) <= Furthest(s[i..])
  {
    FurthestIsMaximum(s[j..]);
    FurthestIsMaximum(s[i..]);
    if Furthest(s[j..]) > 0 {
      var k :| 0 <= k < |s[j..]| && Rank(s[j..][k]) == Furthest(s[j..]);
      assert s[i..][k + j - i] == s[j..][k];
    }
  }

  // Within a pipeline's continuation the next status is at most one ahead of the furthest since m.
  lemma {:induction false} NextWithin(s: seq<Status>, m: nat, n: nat)
    requires Chained(s) && m < n < |s|
    ensures 1 <= Rank(s[n]) <= Furthest(s[m..n]) + 1 && s[n] == KitchenStatus(Rank(s[n]))
  {
    FollowsAt(s, n);
    IsKitchenStatus(s, m);
    FurthestIsMaximum(s[m..n]);
    assert s[m..n][n - 1 - m] == s[n - 1] && s[m..n][0] == s[m];
  }

  lemma {:induction false} FurthestGrows(s: seq<Status>, m: nat, n: nat)
    requires m <= n < |s|
    ensures Furthest(s[m..n + 1]) == Max(Furthest(s[m..n]), Rank(s[n]))
  {
    assert s[m..n + 1][..n - m] == s[m..n];
  }

  // From the status of position m on, the rest of the sequence leads to the furthest status from there.
  lemma {:induction false} GoesOnFrom(s: seq<Status>, m: nat, e: nat)
    requires Chained(s) && m < e <= |s|
    ensures ReceiveAll(s[m], s[m + 1..e]) == KitchenStatus(Furthest(s[m..e]))
    decreases e
  {
    FurthestGrows(s, m, e - 1);
    if e == m + 1 {
      IsKitchenStatus(s, m);
    } else {
      var n := e - 1;
      GoesOnFrom(s, m, n);
      ReceiveOneMore(s[m], s[m + 1..n], s[n]);
      assert s[m + 1..e] == s[m + 1..n] + [s[n]];
      NextWithin(s, m, n);
      FurthestBound(s[m..n]);
      ReceiveAdvances(KitchenStatus(Furthest(s[m..n])), Furthest(s[m..n]), s[n]);
    }
  }

  // While the missing status does not come again, the order does not move.
  lemma {:induction false} WaitsForRank(rank: nat, t: seq<Status>)
    requires 1 <= rank <= LAST
    requires forall i :: 0 <= i < |t| ==> Rank(t[i]) != rank && t[i] == KitchenStatus(Rank(t[i]))
    ensures ReceiveAll(KitchenStatus(rank - 1), t) == KitchenStatus(rank - 1)
  {
    if t != [] {
      WaitsForRank(rank, t[..|t| - 1]);
    }
  }

  lemma {:induction false} NextOccurrence(s: seq<Status>, n: nat) returns (m: nat)
    requires n < |s|
    ensures n < m <= |s| && (m < |s| ==> s[m] == s[n]) && forall i :: n < i < m ==> s[i] != s[n]
  {
    m := n + 1;
    while m < |s| && s[m] != s[n]
      invariant n < m <= |s| && forall i :: n < i < m ==> s[i] != s[n]
    {
      m := m + 1;
    }
  }

  // s without its entry n.
  function Dropping(s: seq<Status>, n: nat): seq<Status>
    requires n < |s|
  {
    s[..n] + s[n + 1..]
  }

  // The dropped status is sent again, by a pipeline that gets as far as any.
  ghost predicate MadeGood(s: seq<Status>, n: nat)
    requires n < |s|
  {
    exists m :: n < m < |s| && s[m] == s[n] && Furthest(s[m..]) == Furthest(s)
  }

  lemma {:induction false} DropChangesNothing(s: seq<Status>, n: nat)
    requires Chained(s) && n < |s| && Furthest(s[..n]) >= Rank(s[n])
    ensures ReceiveAll(Created, Dropping(s, n)) == ReceiveAll(Created, s)
  {
    ChainedPrefix(s, n);
    PipelinesLeadToFurthest(s[..n]);
    NoGaps(s, n);
    FurthestBound(s[..n]);
    ReceiveAdvances(KitchenStatus(Furthest(s[..n])), Furthest(s[..n]), s[n]);
    ReceiveOneMore(Created, s[..n], s[n]);
    ReceiveAllJoin(Created, s[..n], s[n + 1..]);
    ReceiveAllJoin(Created, s[..n] + [s[n]], s[n + 1..]);
    assert s == s[..n] + [s[n]] + s[n + 1..];
  }

  lemma {:induction false} RestFollows(s: seq<Status>, m: nat)
    requires Chained(s) && m < |s|
    ensures ReceiveAll(s[m], s[m + 1..]) == KitchenStatus(Furthest(s[m..]))
  {
    GoesOnFrom(s, m, |s|);
    assert s[m + 1..|s|] == s[m + 1..] && s[m..|s|] == s[m..];
  }

  lemma {:induction false} ReceiveFirst(old_: Status, x: Status, rest: seq<Status>)
    ensures ReceiveAll(old_, [x] + rest) == ReceiveAll(Receive(old_, x), rest)
  {
    ReceiveAllJoin(old_, [x], rest);
    assert [x][..0] == [];
  }

  // The status is received at last, and the rest follows.
  lemma {:induction false} StartsAgain(s: seq<Status>, m: nat, rank: nat)
    requires Chained(s) && m < |s| && Rank(s[m]) == rank && 1 <= rank
    ensures ReceiveAll(KitchenStatus(rank - 1), s[m..]) == KitchenStatus(Furthest(s[m..]))
  {
    IsKitchenStatus(s, m);
    ReceiveAdvances(KitchenStatus(rank - 1), rank - 1, s[m]);
    ReceiveFirst(KitchenStatus(rank - 1), s[m], s[m + 1..]);
    assert s[m..] == [s[m]] + s[m + 1..];
    RestFollows(s, m);
  }

  // The order as it stands when the status comes again at m, or the sequence ends.
  lemma {:induction false} StuckUntil(s: seq<Status>, n: nat, m: nat)
    requires Chained(s) && n < m <= |s| && Furthest(s[..n]) < Rank(s[n])
    requires forall i :: n < i < m ==> s[i] != s[n]
    ensures 1 <= Rank(s[n]) <= LAST
    ensures ReceiveAll(Created, s[..n] + s[n + 1..m]) == KitchenStatus(Rank(s[n]) - 1)
  {
    ChainedPrefix(s, n);
    PipelinesLeadToFurthest(s[..n]);
    NoGaps(s, n);
    IsKitchenStatus(s, n);
    var t := s[n + 1..m];
    forall i | 0 <= i < |t| ensures Rank(t[i]) != Rank(s[n]) && t[i] == KitchenStatus(Rank(t[i])) {
      IsKitchenStatus(s, n + 1 + i);
    }
    WaitsForRank(Rank(s[n]), t);
    ReceiveAllJoin(Created, s[..n], t);
  }

  // Where the order ends when an update that was due is dropped; m is where the status comes again.
  lemma {:induction false} DropLeadsTo(s: seq<Status>, n: nat, m: nat)
    requires Chained(s) && n < m <= |s| && Furthest(s[..n]) < Rank(s[n])
    requires (m < |s| ==> s[m] == s[n]) && forall i :: n < i < m ==> s[i] != s[n]
    ensures 1 <= Rank(s[n]) <= LAST
    ensures ReceiveAll(Created, Dropping(s, n)) == KitchenStatus(if m < |s| then Furthest(s[m..]) else Rank(s[n]) - 1)
  {
    var done := s[..n] + s[n + 1..m];
    StuckUntil(s, n, m);
    if m < |s| {
      StartsAgain(s, m, Rank(s[n]));
      ReceiveAllJoin(Created, done, s[m..]);
      assert Dropping(s, n) == done + s[m..];
    } else {
      assert Dropping(s, n) == done;
    }
  }

  /*
   "A dropped update is made good by later ones" is true exactly when it was not due any more, or the same
   status comes again from a pipeline that gets as far as any did.
   */
  lemma {:induction false} DropIsHarmlessIff(s: seq<Status>, n: nat)
    requires Chained(s) && n < |s|
    ensures ReceiveAll(Created, Dropping(s, n)) == ReceiveAll(Created, s) <==>
            Furthest(s[..n]) >= Rank(s[n]) || MadeGood(s, n)
  {
    if Furthest(s[..n]) >= Rank(s[n]) {
      DropChangesNothing(s, n);
    } else {
      var m := NextOccurrence(s, n);
      DropLeadsTo(s, n, m);
      PipelinesLeadToFurthest(s);
      FurthestIsMaximum(s);
      FurthestBound(s);
      FurthestBound(s[m..]);
      IsKitchenStatus(s, n);
      RankOfKitchenStatus(Furthest(s));
      RankOfKitchenStatus(if m < |s| then Furthest(s[m..]) else Rank(s[n]) - 1);
      if MadeGood(s, n) {
        var l :| n < l < |s| && s[l] == s[n] && Furthest(s[l..]) == Furthest(s);
        SuffixFurthest(s, m, l);
      }
      SuffixFurthest(s, 0, m);
      assert s[0..] == s;
    }
  }

  lemma {:induction false} OneMessage(x: Status)
    ensures ReceiveAll(Created, [x]) == Receive(Created, x)
    ensures Follows(Created, x) ==> Chained([x]) && Last([x]) == x
  {
    ReceiveOneMore(Created, [], x);
    assert [] + [x] == [x];
    assert [x][..|[x]| - 1] == [];
  }

  lemma {:induction false} TwoMessages(x: Status, y: Status)
    requires Follows(Created, x) && Follows(x, y)
    ensures Chained([x, y])
    ensures ReceiveAll(Created, [x, y]) == Receive(Receive(Created, x), y)
    ensures ReceiveAll(Created, Dropping([x, y], 0)) == Receive(Created, y)
  {
    OneMessage(x);
    OneMessage(y);
    ReceiveOneMore(Created, [x], y);
    assert [x] + [y] == [x, y] && [x, y][..|[x, y]| - 1] == [x];
    assert Dropping([x, y], 0) == [y];
  }

  /* One dropped accepted, and the order stays created although cooking follows. */
  lemma {:induction false} DropCanStick()
    ensures Chained([Accepted, Cooking])
    ensures ReceiveAll(Created, [Accepted, Cooking]) == Cooking
    ensures ReceiveAll(Created, Dropping([Accepted, Cooking], 0)) == Created
  {
    TwoMessages(Accepted, Cooking);
  }

  /******* How far an order is *******/

  // seen are the messages about the order consumed so far; lossy says that the update of some was dropped.
  ghost predicate Settled(status: Status, seen: seq<Status>, lossy: bool) {
    || status == Cancelled
    || (!lossy && status == KitchenStatus(Furthest(seen)))
    || (lossy && status == KitchenStatus(Rank(status)) && Rank(status) <= Furthest(seen))
  }

  function Advanced(offset: nat, seen: nat): nat {
    if offset + 1 > seen then offset + 1 else seen
  }

  lemma {:induction false} PrefixFurthest(s: seq<Status>, i: nat, j: nat)
    requires i <= j <= |s|
    ensures Furthest(s[..i]) <= Furthest(s[..j])
    ensures forall k :: 0 <= k < j ==> Rank(s[k]) <= Furthest(s[..j])
  {
    FurthestIsMaximum(s[..i]);
    FurthestIsMaximum(s[..j]);
    forall k | 0 <= k < j ensures Rank(s[k]) <= Furthest(s[..j]) {
      assert s[..j][k] == s[k];
    }
    if Furthest(s[..i]) > 0 {
      var k :| 0 <= k < i && Rank(s[..i][k]) == Furthest(s[..i]);
      assert s[k] == s[..i][k];
    }
  }

  // The message at offset is due or old, with respect to the first seen messages.
  lemma {:induction false} DueOrOld(s: seq<Status>, offset: nat, seen: nat)
    requires Chained(s) && offset <= seen <= |s| && offset < |s|
    ensures 1 <= Rank(s[offset]) <= Furthest(s[..seen]) + 1 && s[offset] == KitchenStatus(Rank(s[offset]))
    ensures Furthest(s[..Advanced(offset, seen)]) == Max(Furthest(s[..seen]), Rank(s[offset]))
  {
    NoGaps(s, offset);
    PrefixFurthest(s, offset, seen);
    if offset == seen {
      FurthestGrows(s, 0, seen);
      assert s[0..seen + 1] == s[..seen + 1] && s[0..seen] == s[..seen];
    }
  }

  /* The order a message is about stays settled, whether the message is new or read again, received or dropped. */
  lemma {:induction false} MessageSettles(s: seq<Status>, offset: nat, seen: nat, lossy: bool, dropped: bool, old_: Status)
    requires Chained(s) && offset <= seen <= |s| && offset < |s|
    requires Settled(old_, s[..seen], lossy)
    ensures Settled(if dropped then old_ else Receive(old_, s[offset]), s[..Advanced(offset, seen)], lossy || dropped)
  {
    DueOrOld(s, offset, seen);
    FurthestBound(s[..seen]);
    RankOfKitchenStatus(Furthest(s[..seen]));
    if !lossy && !dropped {
      ReceiveAdvances(old_, Furthest(s[..seen]), s[offset]);
    }
  }

  /******* On the rows of orders *******/

  // A message offered to the order it is about.
  function ReceiveInto(orders: map<int, OrderRow>, m: StatusMessage): map<int, OrderRow> {
    if m.order !in orders then orders
    else orders[m.order := orders[m.order].(status := Receive(orders[m.order].status, m.status))]
  }

  function ReceiveAllInto(orders: map<int, OrderRow>, messages: seq<StatusMessage>): map<int, OrderRow> {
    if messages == [] then orders
    else ReceiveInto(ReceiveAllInto(orders, messages[..|messages| - 1]), messages[|messages| - 1])
  }

  /* Every order gets its own messages, in their order, and nothing else of it changes. */
  lemma {:induction false} EachOrderReceives(orders: map<int, OrderRow>, messages: seq<StatusMessage>, o: int)
    ensures o in ReceiveAllInto(orders, messages) <==> o in orders
    ensures o in orders ==>
      ReceiveAllInto(orders, messages)[o] == orders[o].(status := ReceiveAll(orders[o].status, StatusesOf(messages, o)))
  {
    if messages == [] {
      assert o in orders ==> orders[o].(status := orders[o].status) == orders[o];
    } else {
      var n := |messages| - 1;
      EachOrderReceives(orders, messages[..n], o);
      if o in orders && messages[n].order == o {
        ReceiveOneMore(orders[o].status, StatusesOf(messages[..n], o), messages[n].status);
      } else if messages[n].order != o {
        assert StatusesOf(messages, o) == StatusesOf(messages[..n], o);
      }
    }
  }

  /* UpdateOrderStatus offers the message, by whatever answer. */
  lemma {:induction false} UpdateReceives(db: Db, m: StatusMessage, rowId: int, stamp: int)
    ensures SetStatus(db, m.order, m.status, rowId, stamp).0.orders == ReceiveInto(db.orders, m)
  {
    if m.order in db.orders {
      ReceiveIsSetStatus(db, m.order, m.status, rowId, stamp);
    }
  }

  /* Fed with what pipelines sent about it, a new order arrives at the furthest status, exactly. */
  lemma {:induction false} ConsumedToFurthest(orders: map<int, OrderRow>, messages: seq<StatusMessage>, o: int)
    requires o in orders && orders[o].status == Created && Chained(StatusesOf(messages, o))
    ensures o in ReceiveAllInto(orders, messages)
    ensures ReceiveAllInto(orders, messages)[o] == orders[o].(status := KitchenStatus(Furthest(StatusesOf(messages, o))))
  {
    EachOrderReceives(orders, messages, o);
    PipelinesLeadToFurthest(StatusesOf(messages, o));
  }
}
