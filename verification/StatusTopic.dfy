/**
 The status topic as one order sees it: which sequences of statuses the pipelines of the restaurant
 can produce.
 */
module StatusTopic {
  import opened Common
  import opened Statuses

  // The statuses a pipeline sends are those of rank 1 to 4.
  function KitchenStatus(rank: nat): Status {
    if rank == 0 then Created
    else if rank == 1 then Accepted
    else if rank == 2 then Cooking
    else if rank == 3 then Ready
    else Completed
  }

  const LAST: nat := 4

  datatype StatusMessage = StatusMessage(order: int, status: Status)

  function StatusesOf(topic: seq<StatusMessage>, order: int): seq<Status> {
    if topic == [] then []
    else
      var n := |topic| - 1;
      StatusesOf(topic[..n], order) + if topic[n].order == order then [topic[n].status] else []
  }

  lemma {:induction false} StatusesOfAppend(topic: seq<StatusMessage>, m: StatusMessage, copies: nat, order: int)
    ensures StatusesOf(topic + Repeat(m, copies), order) ==
            StatusesOf(topic, order) + if m.order == order then Repeat(m.status, copies) else []
  {
    if copies == 0 {
      assert topic + Repeat(m, 0) == topic;
    } else {
      StatusesOfAppend(topic, m, copies - 1, order);
      assert (topic + Repeat(m, copies))[..|topic| + copies - 1] == topic + Repeat(m, copies - 1);
      assert (topic + Repeat(m, copies))[|topic| + copies - 1] == m;
    }
  }

  function Last(s: seq<Status>): Status {
    if s == [] then Created else s[|s| - 1]
  }

  // x can come after the status before: it starts a new pipeline, repeats it, or is the next one.
  predicate Follows(before: Status, x: Status) {
    && 1 <= Rank(x) && x == KitchenStatus(Rank(x))
    && (x == Accepted || x == before || Rank(x) == Rank(before) + 1)
  }

  // The local form of "a concatenation of stuttering prefixes of accepted, cooking, ready, completed".
  ghost predicate Chained(s: seq<Status>) {
    s != [] ==> Chained(s[..|s| - 1]) && Follows(Last(s[..|s| - 1]), s[|s| - 1])
  }

  lemma {:induction false} ChainedAppend(s: seq<Status>, x: Status, copies: nat)
    requires Chained(s) && Follows(Last(s), x)
    ensures Chained(s + Repeat(x, copies))
    ensures Last(s + Repeat(x, copies)) == if copies == 0 then Last(s) else x
  {
    var t := s + Repeat(x, copies);
    if copies == 0 {
      assert t == s;
    } else {
      ChainedAppend(s, x, copies - 1);
      assert t[..|t| - 1] == s + Repeat(x, copies - 1);
    }
  }

  // Pieces laid end to end.
  function Joined(pieces: seq<seq<Status>>): seq<Status> {
    if pieces == [] then [] else Joined(pieces[..|pieces| - 1]) + pieces[|pieces| - 1]
  }

  // A nonempty prefix of accepted, cooking, ready, completed, each status sent one or more times.
  ghost predicate StutteringPrefix(p: seq<Status>) {
    && |p| > 0 && p[0] == Accepted
    && (forall i :: 0 <= i < |p| ==> 1 <= Rank(p[i]) && p[i] == KitchenStatus(Rank(p[i])))
    && (forall i :: 0 < i < |p| ==> p[i] == p[i - 1] || Rank(p[i]) == Rank(p[i - 1]) + 1)
  }

  ghost predicate PrefixesJoined(s: seq<Status>, pieces: seq<seq<Status>>) {
    Joined(pieces) == s && forall i :: 0 <= i < |pieces| ==> StutteringPrefix(pieces[i])
  }

  lemma {:induction false} PieceAdded(s: seq<Status>, pieces: seq<seq<Status>>)
    requires PrefixesJoined(s, pieces)
    ensures PrefixesJoined(s + [Accepted], pieces + [[Accepted]])
  {
    assert (pieces + [[Accepted]])[..|pieces|] == pieces;
    assert StutteringPrefix([Accepted]);
  }

  lemma {:induction false} PieceGrown(s: seq<Status>, pieces: seq<seq<Status>>, x: Status)
    requires PrefixesJoined(s, pieces) && pieces != [] && Follows(Last(s), x) && x != Accepted
    ensures var m := |pieces| - 1; PrefixesJoined(s + [x], pieces[m := pieces[m] + [x]])
  {
    var m := |pieces| - 1;
    var p := pieces[m];
    assert Last(s) == p[|p| - 1];
    assert StutteringPrefix(p + [x]);
    assert pieces[m := p + [x]][..m] == pieces[..m];
  }

  lemma {:induction false} ChainedJoins(s: seq<Status>) returns (pieces: seq<seq<Status>>)
    requires Chained(s)
    ensures PrefixesJoined(s, pieces)
  {
    if s == [] {
      pieces := [];
    } else {
      var n := |s| - 1;
      pieces := ChainedJoins(s[..n]);
      assert s == s[..n] + [s[n]];
      if s[n] == Accepted {
        PieceAdded(s[..n], pieces);
        pieces := pieces + [[Accepted]];
      } else {
        PieceGrown(s[..n], pieces, s[n]);
        pieces := pieces[|pieces| - 1 := pieces[|pieces| - 1] + [s[n]]];
      }
    }
  }

  lemma {:induction false} PrefixChains(s: seq<Status>, p: seq<Status>)
    requires Chained(s) && (p == [] || StutteringPrefix(p))
    ensures Chained(s + p)
  {
    if p == [] {
      assert s + p == s;
    } else {
      var n := |p| - 1;
      PrefixChains(s, p[..n]);
      assert (s + p)[..|s| + n] == s + p[..n];
    }
  }

  lemma {:induction false} JoinedChains(pieces: seq<seq<Status>>)
    requires forall i :: 0 <= i < |pieces| ==> StutteringPrefix(pieces[i])
    ensures Chained(Joined(pieces))
  {
    if pieces != [] {
      JoinedChains(pieces[..|pieces| - 1]);
      PrefixChains(Joined(pieces[..|pieces| - 1]), pieces[|pieces| - 1]);
    }
  }

  /* The local form and the explicit concatenation say the same. */
  lemma {:induction false} ChainedMeansPrefixes(s: seq<Status>)
    ensures Chained(s) <==> exists pieces :: PrefixesJoined(s, pieces)
  {
    if Chained(s) {
      var pieces := ChainedJoins(s);
    }
    if pieces :| PrefixesJoined(s, pieces) {
      JoinedChains(pieces);
    }
  }

  /******* The furthest status *******/

  // The rank of the longest pipeline prefix in s; 0 when there is none.
  function Furthest(s: seq<Status>): nat {
    if s == [] then 0
    else
      var before := Furthest(s[..|s| - 1]);
      if Rank(s[|s| - 1]) > before then Rank(s[|s| - 1]) else before
  }

  lemma {:induction false} FurthestIsMaximum(s: seq<Status>)
    ensures forall i :: 0 <= i < |s| ==> Rank(s[i]) <= Furthest(s)
    ensures Furthest(s) > 0 ==> exists i :: 0 <= i < |s| && Rank(s[i]) == Furthest(s)
  {
    if s != [] {
      var n := |s| - 1;
      FurthestIsMaximum(s[..n]);
      forall i | 0 <= i < |s| ensures Rank(s[i]) <= Furthest(s) {
        if i < n {
          assert s[..n][i] == s[i];
        }
      }
      if Furthest(s) > 0 {
        if Rank(s[n]) == Furthest(s) {
          assert 0 <= n < |s|;
        } else {
          var i :| 0 <= i < n && Rank(s[..n][i]) == Furthest(s[..n]);
          assert Rank(s[i]) == Furthest(s);
        }
      }
    }
  }

  // Pipelines leave no gaps: the next status is at most one step ahead of the furthest so far.
  lemma {:induction false} NoGaps(s: seq<Status>, n: nat)
    requires Chained(s) && n < |s|
    ensures 1 <= Rank(s[n]) <= Furthest(s[..n]) + 1 && s[n] == KitchenStatus(Rank(s[n]))
    decreases |s|
  {
    if n == |s| - 1 {
      FurthestIsMaximum(s[..n]);
      if n > 0 {
        assert s[..n][n - 1] == s[n - 1];
      }
    } else {
      assert s[..|s| - 1][..n] == s[..n];
      NoGaps(s[..|s| - 1], n);
    }
  }
}
