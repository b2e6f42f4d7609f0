/** What the clients of a cancel are told, and what was done to the order by then. */
module Answers {
  import opened Common
  import opened Statuses
  import opened Tables
  import opened Store
  import opened Isolation
  import opened StoreRuns
  import opened Causes

  // The call that transaction t serves ends with this answer, and this is what is logged for it.
  ghost predicate Ends(s: Store, b: Store, t: int, answer: Answer, logged: Option<Answer>) {
    && t in s.txs && s.txs[t].prog.StatusProg? && t !in b.txs
    && b.answers == s.answers + [CancelAnswer(s.txs[t].prog.order, answer)]
    && match logged
       case None => b.log == s.log && b.db == s.db
       case Some(outcome) =>
         && |b.log| == |s.log| + 1 && s.log <= b.log
         && b.log[|s.log|].answer == outcome
         && b.log[|s.log|].op.StatusOp? && b.log[|s.log|].op.order == s.txs[t].prog.order
         && b.log[|s.log|].op.target == s.txs[t].prog.target
  }

  // A client's cancel is running as transaction t.
  predicate Waits(s: Store, t: int) {
    t in s.txs && AnswersClient(s.txs[t])
  }

  lemma {:induction false} CommitAnswers(s: Store, t: int, acked: bool)
    requires Waits(s, t) && Finishable(s.txs[t])
    ensures Ends(s, DoCommit(s, t, acked), t, if acked then Done else Failed(DatabaseFailure), Some(Done))
  {}

  lemma {:induction false} AbortAnswers(s: Store, t: int)
    requires Waits(s, t)
    ensures Ends(s, DoAbort(s, t), t, Failed(DatabaseFailure), None)
  {}

  lemma {:induction false} MissingAnswers(s: Store, t: int)
    requires Waits(s, t) && s.txs[t].pc.Begun? && s.txs[t].prog.order !in s.db.orders
    ensures Ends(s, DoLockOrder(s, t), t, Failed(OrderNotFound), Some(Failed(OrderNotFound)))
  {}

  lemma {:induction false} RefusalAnswers(s: SoundStore, t: int)
    requires Waits(s, t) && Refusable(s.txs[t])
    ensures var o := s.txs[t].prog.order;
      o in s.db.orders &&
      var answer := Failed(if s.db.orders[o].status == Cancelled then OrderAlreadyCancelled else InvalidStatusTransition);
      Ends(s, DoRefuse(s, t), t, answer, Some(answer))
  {
    TxKnows(s, t);
  }

  // The statement of t that ends the call, and what the client is told.
  ghost predicate Answered(s: Store, step: Step, t: int, b: Store)
    requires Waits(s, t)
  {
    var o := s.txs[t].prog.order;
    match step
    case Commit(_, acked) => step.t == t && Ends(s, b, t, if acked then Done else Failed(DatabaseFailure), Some(Done))
    case Abort(_) => step.t == t && Ends(s, b, t, Failed(DatabaseFailure), None)
    case LockOrder(_) =>
      step.t == t && o !in s.db.orders && Ends(s, b, t, Failed(OrderNotFound), Some(Failed(OrderNotFound)))
    case Refuse(_) =>
      step.t == t && o in s.db.orders &&
      var answer := Failed(if s.db.orders[o].status == Cancelled then OrderAlreadyCancelled else InvalidStatusTransition);
      Ends(s, b, t, answer, Some(answer))
    case _ => false
  }

  lemma {:induction false} LockLeaves(s: Store, u: int, t: int)
    requires Waits(s, t) && t !in DoLockOrder(s, u).txs
    ensures u == t && s.txs[t].pc.Begun? && s.txs[t].prog.order !in s.db.orders
  {}

  lemma {:induction false} RefuseLeaves(s: Store, u: int, t: int)
    requires Waits(s, t) && t !in DoRefuse(s, u).txs
    ensures u == t && Refusable(s.txs[t])
  {}

  lemma {:induction false} CommitLeaves(s: Store, u: int, acked: bool, t: int)
    requires Waits(s, t) && t !in DoCommit(s, u, acked).txs
    ensures u == t && Finishable(s.txs[t])
  {}

  lemma {:induction false} OthersLeaveIt(s: Store, step: Step, t: int)
    requires t in s.txs && s.txs[t].prog.StatusProg?
    requires !step.Commit? && !step.Abort? && !step.LockOrder? && !step.Refuse?
    ensures t in Do(s, step).txs
  {}

  /*
   Every cancel of a client that ends is answered once, by what was done: an acknowledged commit with success,
   one without acknowledgement and an abort with the database error, the others with the answer in the log.
   */
  lemma {:induction false} EveryCallIsAnswered(s: SoundStore, step: Step, t: int)
    requires Waits(s, t) && t !in Do(s, step).txs
    ensures Answered(s, step, t, Do(s, step))
  {
    if step.LockOrder? {
      LockLeaves(s, step.t, t);
      MissingAnswers(s, t);
    } else if step.Refuse? {
      RefuseLeaves(s, step.t, t);
      RefusalAnswers(s, t);
    } else if step.Commit? {
      CommitLeaves(s, step.t, step.acked, t);
      CommitAnswers(s, t, step.acked);
    } else if step.Abort? {
      AbortAnswers(s, t);
    } else {
      OthersLeaveIt(s, step, t);
    }
  }

  // Somebody is told something by this step.
  ghost predicate Told(s: Store, step: Step, b: Store) {
    || (step.CancelRequest? && step.t !in s.txs && exists e ::
          Uncancellable(s.db, step.order, step.userId, e) &&
          b == s.(answers := s.answers + [CancelAnswer(step.order, Failed(e))]))
    || (exists t :: Waits(s, t) && t !in b.txs)
  }

  lemma {:induction false} RequestTells(s: Store, t: int, order: int, userId: string)
    ensures var b := DoCancelRequest(s, t, order, userId);
      b.answers != s.answers ==> Told(s, CancelRequest(t, order, userId), b)
  {
    CancelCheckByCause(s.db, order, userId);
    if t !in s.txs && CancelCheck(s.db, order, userId).Some? {
      var e := CancelCheck(s.db, order, userId).value;
      assert Uncancellable(s.db, order, userId, e);
    }
  }

  /* And nobody is told anything else: at once by the checks, or when such a cancel ends. */
  lemma {:induction false} OnlyCallsAreAnswered(s: Store, step: Step)
    requires Do(s, step).answers != s.answers
    ensures Told(s, step, Do(s, step))
  {
    if step.CancelRequest? {
      RequestTells(s, step.t, step.order, step.userId);
    } else if step.LockOrder? || step.Refuse? || step.Commit? || step.Abort? {
      EndTells(s, step);
    } else {
      OthersTellNothing(s, step);
    }
  }

  lemma {:induction false} EndTells(s: Store, step: Step)
    requires step.LockOrder? || step.Refuse? || step.Commit? || step.Abort?
    requires Do(s, step).answers != s.answers
    ensures exists t :: Waits(s, t) && t !in Do(s, step).txs
  {
    assert Waits(s, step.t) && step.t !in Do(s, step).txs;
  }

  lemma {:induction false} OthersTellNothing(s: Store, step: Step)
    requires !step.CancelRequest? && !step.LockOrder? && !step.Refuse? && !step.Commit? && !step.Abort?
    ensures Do(s, step).answers == s.answers
  {}

  /******* All runs *******/

  // A cancel of the order is in the log, with success.
  ghost predicate CancelLogged(log: seq<Entry>, o: int) {
    exists j :: 0 <= j < |log| &&
      log[j].op.StatusOp? && log[j].op.order == o && log[j].op.target == Cancelled && log[j].answer == Done
  }

  ghost predicate SuccessIsLogged(s: Store) {
    forall i :: 0 <= i < |s.answers| && s.answers[i].answer == Done ==> CancelLogged(s.log, s.answers[i].order)
  }

  lemma {:induction false} CancelStaysLogged(a: seq<Entry>, b: seq<Entry>, o: int)
    requires CancelLogged(a, o) && a <= b
    ensures CancelLogged(b, o)
  {
    var j :| 0 <= j < |a| && a[j].op.StatusOp? && a[j].op.order == o && a[j].op.target == Cancelled && a[j].answer == Done;
    assert b[j] == a[j];
  }

  lemma {:induction false} ClientsCancel(s: SoundStore, t: int)
    requires Waits(s, t)
    ensures s.txs[t].prog.target == Cancelled
  {
    TxKnows(s, t);
  }

  lemma {:induction false} NewSuccessIsLogged(s: SoundStore, step: Step, t: int, b: Store)
    requires Waits(s, t) && Answered(s, step, t, b)
    ensures |b.answers| == |s.answers| + 1 && s.answers <= b.answers
    ensures var a := b.answers[|s.answers|]; a.answer == Done ==> CancelLogged(b.log, a.order)
  {
    ClientsCancel(s, t);
    if step.Commit? {
      assert b.log[|s.log|].answer == Done;
    }
  }

  lemma {:induction false} LogGrows(a: Store, b: Store)
    requires SerialStep(a, b)
    ensures a.log <= b.log
  {}

  lemma {:induction false} OneMoreAnswer(s: SoundStore, step: Step, b: Store)
    requires b == Do(s, step) && b.answers != s.answers
    ensures |b.answers| == |s.answers| + 1 && s.answers <= b.answers
    ensures var a := b.answers[|s.answers|]; a.answer == Done ==> CancelLogged(b.log, a.order)
  {
    OnlyCallsAreAnswered(s, step);
    if t :| Waits(s, t) && t !in b.txs {
      EveryCallIsAnswered(s, step, t);
      NewSuccessIsLogged(s, step, t, b);
    }
  }

  lemma {:induction false} SuccessesStay(s: Store, b: Store)
    requires SuccessIsLogged(s) && s.log <= b.log && s.answers <= b.answers
    requires forall i :: |s.answers| <= i < |b.answers| && b.answers[i].answer == Done ==> CancelLogged(b.log, b.answers[i].order)
    ensures SuccessIsLogged(b)
  {
    forall i | 0 <= i < |b.answers| && b.answers[i].answer == Done ensures CancelLogged(b.log, b.answers[i].order) {
      if i < |s.answers| {
        assert b.answers[i] == s.answers[i];
        CancelStaysLogged(s.log, b.log, s.answers[i].order);
      }
    }
  }

  lemma {:induction false} SuccessStaysAfterOne(s: Store, b: Store)
    requires SuccessIsLogged(s) && s.log <= b.log
    requires |b.answers| == |s.answers| + 1 && s.answers <= b.answers
    requires var a := b.answers[|s.answers|]; a.answer == Done ==> CancelLogged(b.log, a.order)
    ensures SuccessIsLogged(b)
  {
    SuccessesStay(s, b);
  }

  lemma {:induction false} SuccessStaysLogged(s: SoundStore, step: Step) returns (b: SoundStore)
    requires SuccessIsLogged(s)
    ensures b == Do(s, step) && SuccessIsLogged(b)
  {
    b := StepKeeps(s, step);
    LogGrows(s, b);
    if b.answers == s.answers {
      SuccessesStay(s, b);
    } else {
      OneMoreAnswer(s, step, b);
      SuccessStaysAfterOne(s, b);
    }
  }

  /* In every run, whoever was told that a cancel succeeded finds that cancel in the log of what was done. */
  lemma {:induction false} SuccessWasDone(e: SoundStore, steps: seq<Step>) returns (s: SoundStore)
    requires e.answers == []
    ensures s == Run(e, steps) && SuccessIsLogged(s)
  {
    if steps == [] {
      s := e;
    } else {
      var before, last := SplitsOff(steps);
      var a := SuccessWasDone(e, before);
      s := SuccessStaysLogged(a, last);
    }
  }
}
