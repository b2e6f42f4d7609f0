/** Vocabulary shared by every module: optional values, results and the errors of the domain layer. */
module Common {

  datatype Option<+T> = None | Some(value: T)

  datatype Result<+T> = Ok(value: T) | Err(error: Error)

  // The sentinel errors of the domain layer; DatabaseFailure stands for every error that comes
  // out of the database driver (lost connection, violated CHECK, cancelled context, deadlock).
  datatype Error =
    | InvalidData
    | RestaurantNotFound
    | RestaurantUnavailable
    | MenuItemNotFound
    | MenuItemUnavailable
    | InvalidQuantity
    | OrderNotFound
    | AccessDenied
    | InvalidStatusTransition
    | OrderAlreadyCancelled
    | DatabaseFailure

  // What an operation without a result value answers: nil or an error.
  datatype Answer = Done | Failed(error: Error)

  // A set that is not empty has a member.
  lemma {:induction false} Member<T>(s: set<T>) returns (x: T)
    requires s != {}
    ensures x in s
  {
    x :| x in s;
  }

  lemma {:induction false} SplitsOff<T>(s: seq<T>) returns (before: seq<T>, last: T)
    requires s != []
    ensures before == s[..|s| - 1] && last == s[|s| - 1] && s == before + [last]
  {
    before, last := s[..|s| - 1], s[|s| - 1];
  }

  lemma {:induction false} StartsWith<T>(s: seq<T>, i: nat) returns (rest: seq<T>)
    requires i < |s|
    ensures rest == s[i + 1..] && s[i..] == [s[i]] + rest
  {
    rest := s[i + 1..];
  }

  function Repeat<T>(x: T, n: nat): (s: seq<T>)
    ensures |s| == n && forall i :: 0 <= i < n ==> s[i] == x
  {
    if n == 0 then [] else Repeat(x, n - 1) + [x]
  }
}
