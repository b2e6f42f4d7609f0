/** Calls that change a status do: whoever may ask for it gets it, if nobody holds the row. */
module Calls {
  import opened Common
  import opened Statuses
  import opened Tables
  import opened Store
  import opened StoreRuns
  import opened Progress
  import opened Causes

  // Nobody holds the row of the order.
  ghost predicate Unheld(s: Store, o: int) {
    forall u :: u in s.txs ==> !Owns(s.txs[u], OrderLock(o))
  }

  // The transaction that a service has started.
  function Asking(o: int, target: Status, origin: Origin): Tx {
    Tx(StatusProg(o, target, origin), Begun, NOTHING)
  }

  lemma {:induction false} AskingCanLock(s: Store, t: int, o: int, target: Status, origin: Origin)
    requires t !in s.txs && Unheld(s, o)
    ensures CanLock(Move(s, t, Asking(o, target, origin), {}), t)
  {}

  // A started update of a possible transition sets the status.
  lemma {:induction false} SetsStatus(db: Db, o: int, target: Status, origin: Origin, after: Db)
    requires o in db.orders && Leads(db.orders[o].status, target)
    requires Amounts(db, StatusProg(o, target, origin), after)
    ensures after.orders == db.orders[o := db.orders[o].(status := target)]
  {
    var rowId, stamp :| after == SetStatus(db, o, target, rowId, stamp).0;
    SetStatusByCause(db, o, target, rowId, stamp);
  }

  lemma {:induction false} ThenRuns(s: Store, step: Step, a: Store, more: seq<Step>) returns (steps: seq<Step>)
    requires a == Do(s, step)
    ensures steps == [step] + more && Run(s, steps) == Run(a, more)
  {
    steps := [step] + more;
    if more == [] {
      RunOneMore(s, [], step);
      assert [] + [step] == steps;
    } else {
      var before, last := SplitsOff(more);
      var first := ThenRuns(s, step, a, before);
      RunOneMore(s, first, last);
      RunOneMore(a, before, last);
      assert first + [last] == steps;
    }
  }

  // Once the service has started the transaction.
  lemma {:induction false} AskingIsGranted(
    s: SoundStore, request: Step, t: int, o: int, target: Status, origin: Origin, a: SoundStore)
    returns (steps: seq<Step>)
    requires t !in s.txs && a == Do(s, request) && a == Move(s, t, Asking(o, target, origin), {})
    requires Unheld(s, o) && o in s.db.orders && Leads(s.db.orders[o].status, target)
    ensures |steps| > 0 && steps[0] == request
    ensures Run(s, steps).db.orders == s.db.orders[o := s.db.orders[o].(status := target)]
  {
    AskingCanLock(s, t, o, target, origin);
    var more := StatusCanFinish(a, t);
    steps := ThenRuns(s, request, a, more);
    SetsStatus(s.db, o, target, origin, Run(s, steps).db);
  }

  lemma {:induction false} CancelStarts(s: Store, t: int, o: int, userId: string)
    requires t !in s.txs && Cancellable(s.db, o, userId)
    ensures Do(s, CancelRequest(t, o, userId)) == Move(s, t, Asking(o, Cancelled, Client), {})
  {
    CancelCheckByCause(s.db, o, userId);
  }

  lemma {:induction false} PartnerStarts(s: Store, t: int, rid: int, o: int, target: Status)
    requires t !in s.txs && PartnerMay(s.db, rid, o, target)
    ensures Do(s, PartnerRequest(t, rid, o, target)) == Move(s, t, Asking(o, target, Partner), {})
  {
    PartnerCheckByCause(s.db, rid, o, target);
  }

  /* An owner can cancel an order that is created or accepted. */
  lemma {:induction false} OwnerCanCancel(s: SoundStore, o: int, userId: string) returns (steps: seq<Step>, t: int)
    requires Cancellable(s.db, o, userId) && Unheld(s, o)
    ensures |steps| > 0 && steps[0] == CancelRequest(t, o, userId)
    ensures Run(s, steps).db.orders == s.db.orders[o := s.db.orders[o].(status := Cancelled)]
  {
    t := UnusedId(s.txs.Keys);
    var a := StepKeeps(s, CancelRequest(t, o, userId));
    CancelStarts(s, t, o, userId);
    steps := AskingIsGranted(s, CancelRequest(t, o, userId), t, o, Cancelled, Client, a);
  }

  /* A restaurant can move its order along every transition. */
  lemma {:induction false} PartnerCanMove(s: SoundStore, rid: int, o: int, target: Status)
    returns (steps: seq<Step>, t: int)
    requires PartnerMay(s.db, rid, o, target) && Unheld(s, o)
    ensures |steps| > 0 && steps[0] == PartnerRequest(t, rid, o, target)
    ensures Run(s, steps).db.orders == s.db.orders[o := s.db.orders[o].(status := target)]
  {
    t := UnusedId(s.txs.Keys);
    var a := StepKeeps(s, PartnerRequest(t, rid, o, target));
    PartnerStarts(s, t, rid, o, target);
    steps := AskingIsGranted(s, PartnerRequest(t, rid, o, target), t, o, target, Partner, a);
  }
}
