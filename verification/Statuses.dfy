/** The order lifecycle: the statuses, the transition table, and what a legal history can look like. */
module Statuses {
  import opened Common

  // A status is a text; Unknown holds every text that is none of the seven names.
  datatype Status =
    | Created
    | Accepted
    | Rejected
    | Cooking
    | Ready
    | Completed
    | Cancelled
    | Unknown(text: string)

  function Parse(text: string): Status {
    if text == "created" then Created
    else if text == "accepted" then Accepted
    else if text == "rejected" then Rejected
    else if text == "cooking" then Cooking
    else if text == "ready" then Ready
    else if text == "completed" then Completed
    else if text == "cancelled" then Cancelled
    else Unknown(text)
  }

  function Render(s: Status): string {
    match s
    case Created => "created"
    case Accepted => "accepted"
    case Rejected => "rejected"
    case Cooking => "cooking"
    case Ready => "ready"
    case Completed => "completed"
    case Cancelled => "cancelled"
    case Unknown(text) => text
  }

  // Comparing statuses is comparing the texts they came from.
  lemma {:induction false} ParseRender(a: string, b: string)
    ensures Render(Parse(a)) == a
    ensures Parse(a) == Parse(b) <==> a == b
  {
    assert Render(Parse(a)) == a && Render(Parse(b)) == b;
  }

  /* The seven texts, and no other, are the named statuses. */
  lemma {:induction false} Names(text: string)
    ensures Parse(text) == Created <==> text == "created"
    ensures Parse(text) == Accepted <==> text == "accepted"
    ensures Parse(text) == Rejected <==> text == "rejected"
    ensures Parse(text) == Cooking <==> text == "cooking"
    ensures Parse(text) == Ready <==> text == "ready"
    ensures Parse(text) == Completed <==> text == "completed"
    ensures Parse(text) == Cancelled <==> text == "cancelled"
    ensures Validate(Parse(text)) <==>
            text in ["created", "accepted", "rejected", "cooking", "ready", "completed", "cancelled"]
  {}

  predicate Validate(s: Status) {
    !s.Unknown?
  }

  /* The transition table; None for a status that is not a key of the table. */
  function ValidTransitions(from: Status): Option<seq<Status>> {
    match from
    case Created => Some([Accepted, Rejected, Cancelled])
    case Accepted => Some([Cooking, Cancelled])
    case Cooking => Some([Ready])
    case Ready => Some([Completed])
    case Rejected => Some([])
    case Completed => Some([])
    case Cancelled => Some([])
    case Unknown(_) => None
  }

  predicate CanTransition(from: Status, to: Status) {
    match ValidTransitions(from)
    case None => false
    case Some(allowed) => to in allowed
  }

  // A strict measure: every legal transition climbs, and nothing climbs past 4.
  function Rank(s: Status): nat {
    match s
    case Created => 0
    case Accepted => 1
    case Cooking => 2
    case Ready => 3
    case Completed | Rejected | Cancelled | Unknown(_) => 4
  }

  lemma {:induction false} TransitionClimbs(from: Status, to: Status)
    requires CanTransition(from, to)
    ensures Rank(from) < Rank(to) <= 4
    ensures Validate(from) && Validate(to)
  {}

  // A history is legal when consecutive entries are legal transitions.
  ghost predicate LegalHistory(h: seq<Status>) {
    forall i :: 0 < i < |h| ==> CanTransition(h[i - 1], h[i])
  }

  lemma {:induction false} HistoryClimbs(h: seq<Status>, i: nat, j: nat)
    requires LegalHistory(h) && i < j < |h|
    ensures Rank(h[i]) + (j - i) <= Rank(h[j]) <= 4
    decreases j
  {
    TransitionClimbs(h[j - 1], h[j]);
    if i < j - 1 {
      HistoryClimbs(h, i, j - 1);
    }
  }

  /* An order never revisits a status and makes at most four transitions. */
  lemma {:induction false} HistoryIsShortAndSimple(h: seq<Status>)
    requires LegalHistory(h)
    ensures |h| <= 5
    ensures forall i, j :: 0 <= i < j < |h| ==> h[i] != h[j]
  {
    if |h| > 5 {
      HistoryClimbs(h, 0, |h| - 1);
    }
    forall i, j | 0 <= i < j < |h| ensures h[i] != h[j] {
      HistoryClimbs(h, i, j);
    }
  }

  // The statuses from which no transition leads to cancelled, ever.
  predicate PastCancelling(s: Status) {
    s.Cooking? || s.Ready? || s.Completed? || s.Rejected?
  }

  lemma {:induction false} CancellableFrom(s: Status)
    ensures CanTransition(s, Cancelled) <==> s == Created || s == Accepted
  {}

  lemma {:induction false} PastCancellingForEver(h: seq<Status>, i: nat, j: nat)
    requires LegalHistory(h) && i <= j < |h|
    requires PastCancelling(h[i])
    ensures PastCancelling(h[j])
    decreases j
  {
    if i < j {
      PastCancellingForEver(h, i, j - 1);
      assert CanTransition(h[j - 1], h[j]);
    }
  }

  /* No history contains both cooking and cancelled. */
  lemma {:induction false} CookingExcludesCancelled(h: seq<Status>)
    requires LegalHistory(h)
    ensures !(Cooking in h && Cancelled in h)
  {
    if Cooking in h && Cancelled in h {
      var i :| 0 <= i < |h| && h[i] == Cooking;
      var j :| 0 <= j < |h| && h[j] == Cancelled;
      if i < j {
        PastCancellingForEver(h, i, j);
      } else {
        HistoryClimbs(h, j, i);
      }
    }
  }

  /******* All legal histories *******/

  // The life of an order that is neither rejected nor cancelled.
  const LIFE := [Created, Accepted, Cooking, Ready, Completed]

  predicate IsLife(h: seq<Status>) {
    || h <= LIFE
    || h == [Created, Rejected]
    || h == [Created, Cancelled]
    || h == [Created, Accepted, Cancelled]
  }

  // The seven transitions, one by one.
  lemma {:induction false} TransitionsAre(from: Status, to: Status)
    ensures CanTransition(from, to) <==>
      || (from == Created && (to == Accepted || to == Rejected || to == Cancelled))
      || (from == Accepted && (to == Cooking || to == Cancelled))
      || (from == Cooking && to == Ready)
      || (from == Ready && to == Completed)
  {}

  lemma {:induction false} LifeGoesOn(h: seq<Status>, next: Status)
    requires h != [] && IsLife(h)
    ensures CanTransition(h[|h| - 1], next) <==> IsLife(h + [next])
  {
    TransitionsAre(h[|h| - 1], next);
    var more := h + [next];
    if h <= LIFE {
      assert more[..|h|] == h;
      assert h[|h| - 1] == LIFE[|h| - 1];
      if more <= LIFE {
        assert next == LIFE[|h|];
      } else {
        assert |h| < 5 ==> next != LIFE[|h|];
      }
    }
  }

  /* The histories of orders, all of them: a history from created is legal exactly when it is one of these. */
  lemma {:induction false} LegalHistoryIff(h: seq<Status>)
    requires h != [] && h[0] == Created
    ensures LegalHistory(h) <==>
      || h <= [Created, Accepted, Cooking, Ready, Completed]
      || h == [Created, Rejected]
      || h == [Created, Cancelled]
      || h == [Created, Accepted, Cancelled]
  {
    if |h| == 1 {
      assert h == [Created];
    } else {
      var n := |h| - 1;
      LegalHistoryIff(h[..n]);
      assert h == h[..n] + [h[n]];
      if LegalHistory(h[..n]) {
        LifeGoesOn(h[..n], h[n]);
      }
    }
  }
}
