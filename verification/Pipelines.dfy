/**
 One pipeline among everything else: it takes its statements one after the other, and before each of them the
 pollers, the other pipelines and the signal handler take any steps they like. Which statuses it sends, exactly.
 */
module Pipelines {
  import opened Common
  import opened Statuses
  import opened StatusTopic
  import opened Kitchen
  import opened KitchenRuns

  // How a publish goes: it may append copies of the message and still report an error.
  datatype Sending = Sending(copies: nat, ok: bool)

  predicate Possible(s: Sending) {
    s.ok ==> s.copies > 0
  }

  /*
   others is what everybody else does before each statement, by its number; sendings is how the publishes go;
   elapsed says which case the select of each wait takes when both are ready.
   */
  datatype Conditions = Conditions(others: seq<seq<Step>>, sendings: seq<Sending>, elapsed: seq<bool>)

  const STATEMENTS := 12

  // Steps that are not of pipeline gen, within the life of the process.
  ghost predicate Foreign(steps: seq<Step>, gen: int) {
    forall i :: 0 <= i < |steps| ==> !steps[i].Restart? && (OfPipe(steps[i]) ==> steps[i].gen != gen)
  }

  ghost predicate Fits(c: Conditions, gen: int) {
    && Shaped(c)
    && (forall i :: 0 <= i < STATEMENTS ==> Foreign(c.others[i], gen))
    && (forall i :: 0 <= i < LAST ==> Possible(c.sendings[i]))
  }

  predicate Shaped(c: Conditions) {
    |c.others| == STATEMENTS && |c.sendings| == LAST && |c.elapsed| == LAST - 1
  }

  predicate InProgram(pc: Pc) {
    match pc
    case Publishing(rank) => 1 <= rank <= LAST
    case Sleeping(rank) => 1 <= rank < LAST
    case _ => true
  }

  // The number of the statement.
  function Number(pc: Pc): nat
    requires InProgram(pc)
  {
    match pc
    case Starting => 0
    case Publishing(rank) => 2 * rank - 1
    case Sleeping(rank) => 2 * rank
    case Loading => 8
    case Deleting(_) => 9
    case Releasing(_) => 10
    case Leaving => 11
  }

  // The statement at pc; over says whether the context is over when it is executed.
  function Statement(pc: Pc, gen: int, over: bool, c: Conditions): Step
    requires InProgram(pc) && Shaped(c)
  {
    match pc
    case Starting => CheckContext(gen)
    case Publishing(rank) => Publish(gen, c.sendings[rank - 1].copies, c.sendings[rank - 1].ok)
    case Sleeping(rank) => Sleep(gen, c.elapsed[rank - 1] || !over)
    case Loading => LoadOwn(gen)
    case Deleting(_) => DeleteOwn(gen)
    case Releasing(_) => ReleaseOwn(gen)
    case Leaving => PipeDone(gen)
  }

  // k has the pipeline at a statement.
  predicate Running(k: Kitchen, gen: int) {
    gen in k.pipes && InProgram(k.pipes[gen].pc)
  }

  // What the next statement of the pipeline finds, after the others.
  function Met(k: Kitchen, gen: int, c: Conditions): Kitchen
    requires Shaped(c) && Running(k, gen)
  {
    Run(k, c.others[Number(k.pipes[gen].pc)])
  }

  function NextStatement(k: Kitchen, gen: int, c: Conditions): Step
    requires Shaped(c) && Running(k, gen)
  {
    Statement(k.pipes[gen].pc, gen, ContextOver(Met(k, gen, c), gen), c)
  }

  // One turn: what the others do, and then one statement.
  function Next(k: Kitchen, gen: int, c: Conditions): Kitchen
    requires Shaped(c)
  {
    if Running(k, gen) then Do(Met(k, gen, c), NextStatement(k, gen, c)) else k
  }

  function After(k: Kitchen, gen: int, c: Conditions, n: nat): Kitchen
    requires Shaped(c)
  {
    if n == 0 then k else Next(After(k, gen, c, n - 1), gen, c)
  }

  // The steps of the first n turns.
  function Turns(k: Kitchen, gen: int, c: Conditions, n: nat): seq<Step>
    requires Shaped(c)
  {
    if n == 0 then []
    else Turns(k, gen, c, n - 1) + Turn(After(k, gen, c, n - 1), gen, c)
  }

  // The steps of one turn.
  function Turn(a: Kitchen, gen: int, c: Conditions): seq<Step>
    requires Shaped(c)
  {
    if Running(a, gen) then c.others[Number(a.pipes[gen].pc)] + [NextStatement(a, gen, c)] else []
  }

  lemma {:induction false} TurnRuns(a: Kitchen, gen: int, c: Conditions)
    requires Shaped(c)
    ensures Run(a, Turn(a, gen, c)) == Next(a, gen, c)
  {
    if Running(a, gen) {
      RunStep(a, c.others[Number(a.pipes[gen].pc)], NextStatement(a, gen, c));
    }
  }

  lemma {:induction false} TurnsRun(k: Kitchen, gen: int, c: Conditions, n: nat)
    requires Shaped(c)
    ensures Run(k, Turns(k, gen, c, n)) == After(k, gen, c, n)
  {
    if n > 0 {
      var m := n - 1;
      TurnsRun(k, gen, c, m);
      var a := After(k, gen, c, m);
      RunsJoin(k, Turns(k, gen, c, m), Turn(a, gen, c));
      TurnRuns(a, gen, c);
    }
  }

  /******* What the others leave alone *******/

  lemma {:induction false} ForeignStepLeaves(k: Kitchen, step: Step, gen: int)
    requires KitchenOk(k) && gen in k.pipes && !step.Restart? && (OfPipe(step) ==> step.gen != gen)
    ensures gen in Do(k, step).pipes && Do(k, step).pipes[gen] == k.pipes[gen]
    ensures k.revoked <= Do(k, step).revoked
  {}

  lemma {:induction false} ForeignStepIsSilent(k: Kitchen, step: Step, gen: int)
    requires KitchenOk(k) && gen in k.pipes && Live(k.pipes[gen].pc)
    requires !step.Restart? && (OfPipe(step) ==> step.gen != gen)
    ensures StatusesOf(Do(k, step).topic, k.pipes[gen].order) == StatusesOf(k.topic, k.pipes[gen].order)
  {
    if step.Publish? && CanPublish(k, step.gen, step.copies, step.ok) {
      OtherOrders(k, gen, step.gen);
      var m := StatusMessage(k.pipes[step.gen].order, KitchenStatus(k.pipes[step.gen].pc.rank));
      StatusesOfAppend(k.topic, m, step.copies, k.pipes[gen].order);
    }
  }

  lemma {:induction false} ForeignLeaves(k: Kitchen, steps: seq<Step>, gen: int)
    requires KitchenOk(k) && gen in k.pipes && Foreign(steps, gen)
    ensures KitchenOk(Run(k, steps)) && gen in Run(k, steps).pipes && Run(k, steps).pipes[gen] == k.pipes[gen]
    ensures k.revoked <= Run(k, steps).revoked
  {
    if steps != [] {
      var n := |steps| - 1;
      ForeignLeaves(k, steps[..n], gen);
      ForeignStepLeaves(Run(k, steps[..n]), steps[n], gen);
      StepKeeps(Run(k, steps[..n]), steps[n]);
    }
  }

  lemma {:induction false} ForeignIsSilent(k: Kitchen, steps: seq<Step>, gen: int)
    requires KitchenOk(k) && gen in k.pipes && Live(k.pipes[gen].pc) && Foreign(steps, gen)
    ensures StatusesOf(Run(k, steps).topic, k.pipes[gen].order) == StatusesOf(k.topic, k.pipes[gen].order)
  {
    if steps != [] {
      var n := |steps| - 1;
      ForeignIsSilent(k, steps[..n], gen);
      ForeignLeaves(k, steps[..n], gen);
      ForeignStepIsSilent(Run(k, steps[..n]), steps[n], gen);
    }
  }

  /******* One turn *******/

  // The pipeline of the order is there, in a sound process, and this is what the topic says about the order.
  ghost predicate Stands(k: Kitchen, gen: int, order: int, pc: Pc, statuses: seq<Status>) {
    KitchenOk(k) && gen in k.pipes && k.pipes[gen] == Pipeline(order, pc) && StatusesOf(k.topic, order) == statuses
  }

  lemma {:induction false} StillStands(a: Kitchen, gen: int, c: Conditions, order: int, pc: Pc, statuses: seq<Status>)
    requires Fits(c, gen) && InProgram(pc) && Live(pc) && Stands(a, gen, order, pc, statuses)
    ensures Running(a, gen) && Stands(Met(a, gen, c), gen, order, pc, statuses)
  {
    ForeignLeaves(a, c.others[Number(pc)], gen);
    ForeignIsSilent(a, c.others[Number(pc)], gen);
  }

  lemma {:induction false} CheckTurn(a: Kitchen, gen: int, c: Conditions, order: int, statuses: seq<Status>)
    requires Fits(c, gen) && Stands(a, gen, order, Starting, statuses)
    ensures Running(a, gen)
    ensures Stands(Next(a, gen, c), gen, order, if ContextOver(Met(a, gen, c), gen) then Loading else Publishing(1), statuses)
  {
    StillStands(a, gen, c, order, Starting, statuses);
    StepKeeps(Met(a, gen, c), CheckContext(gen));
  }

  lemma {:induction false} PublishAppends(
    b: Kitchen, gen: int, order: int, rank: nat, statuses: seq<Status>, sending: Sending)
    requires Stands(b, gen, order, Publishing(rank), statuses) && Possible(sending)
    ensures Stands(Do(b, Publish(gen, sending.copies, sending.ok)), gen, order, AfterPublish(rank, sending.ok),
                   statuses + Repeat(KitchenStatus(rank), sending.copies))
  {
    StepKeeps(b, Publish(gen, sending.copies, sending.ok));
    StatusesOfAppend(b.topic, StatusMessage(order, KitchenStatus(rank)), sending.copies, order);
  }

  lemma {:induction false} PublishTurn(
    a: Kitchen, gen: int, c: Conditions, order: int, rank: nat, statuses: seq<Status>)
    requires Fits(c, gen) && 1 <= rank <= LAST && Stands(a, gen, order, Publishing(rank), statuses)
    ensures var sending := c.sendings[rank - 1];
      Stands(Next(a, gen, c), gen, order, AfterPublish(rank, sending.ok),
             statuses + Repeat(KitchenStatus(rank), sending.copies))
  {
    StillStands(a, gen, c, order, Publishing(rank), statuses);
    PublishAppends(Met(a, gen, c), gen, order, rank, statuses, c.sendings[rank - 1]);
  }

  // The wait after rank, which begins in a, ends with the pipeline going on.
  predicate Wakes(a: Kitchen, gen: int, c: Conditions, rank: nat)
    requires Shaped(c) && 1 <= rank < LAST && Running(a, gen)
  {
    c.elapsed[rank - 1] || !ContextOver(Met(a, gen, c), gen)
  }

  lemma {:induction false} SleepMoves(b: Kitchen, gen: int, order: int, rank: nat, statuses: seq<Status>, slept: bool)
    requires Stands(b, gen, order, Sleeping(rank), statuses) && (slept || ContextOver(b, gen))
    ensures Stands(Do(b, Sleep(gen, slept)), gen, order, if slept then Publishing(rank + 1) else Loading, statuses)
  {
    StepKeeps(b, Sleep(gen, slept));
  }

  lemma {:induction false} SleepTurn(
    a: Kitchen, gen: int, c: Conditions, order: int, rank: nat, statuses: seq<Status>)
    requires Fits(c, gen) && 1 <= rank < LAST && Stands(a, gen, order, Sleeping(rank), statuses)
    ensures Running(a, gen)
    ensures Stands(Next(a, gen, c), gen, order, if Wakes(a, gen, c, rank) then Publishing(rank + 1) else Loading, statuses)
  {
    StillStands(a, gen, c, order, Sleeping(rank), statuses);
    SleepMoves(Met(a, gen, c), gen, order, rank, statuses, Wakes(a, gen, c, rank));
  }

  /******* What it sends *******/

  // The wait after rank, which is the statement after 2 * rank others, ends with the pipeline going on.
  predicate WakesAt(k: Kitchen, gen: int, c: Conditions, rank: nat)
    requires Shaped(c) && 1 <= rank < LAST
  {
    var a := After(k, gen, c, 2 * rank);
    Running(a, gen) && Wakes(a, gen, c, rank)
  }

  // The pipeline gets past its publish of rank and the wait after it.
  predicate Passes(k: Kitchen, gen: int, c: Conditions, rank: nat)
    requires Shaped(c) && 1 <= rank < LAST
  {
    c.sendings[rank - 1].ok && WakesAt(k, gen, c, rank)
  }

  // Nothing keeps the pipeline from coming to its r-th publish: the context lives when it is looked at, and every
  // publish before succeeds and every wait before elapses or finds the context alive.
  ghost predicate GetsTo(k: Kitchen, gen: int, c: Conditions, r: nat)
    requires Shaped(c) && r <= LAST && Running(k, gen)
  {
    && !ContextOver(Met(k, gen, c), gen)
    && forall i :: 1 <= i < r ==> Passes(k, gen, c, i)
  }

  // The statuses that the first r publishes append.
  function SentBy(sendings: seq<Sending>, r: nat): seq<Status>
    requires r <= |sendings|
  {
    if r == 0 then [] else SentBy(sendings, r - 1) + Repeat(KitchenStatus(r), sendings[r - 1].copies)
  }

  lemma {:induction false} SentByOneMore(statuses: seq<Status>, sendings: seq<Sending>, q: nat, r: nat)
    requires r == q + 1 && r <= |sendings|
    ensures statuses + SentBy(sendings, q) + Repeat(KitchenStatus(r), sendings[r - 1].copies) ==
            statuses + SentBy(sendings, r)
  {}

  lemma {:induction false} OneTurn(k: Kitchen, gen: int, c: Conditions, n: nat, m: nat)
    requires Shaped(c) && m == n + 1
    ensures After(k, gen, c, m) == Next(After(k, gen, c, n), gen, c)
  {}

  // The r-th publish, from the state before it to the state after it.
  lemma {:induction false} PublishesAt(
    a: Kitchen, gen: int, c: Conditions, q: nat, r: nat, order: int, statuses: seq<Status>)
    requires Fits(c, gen) && r == q + 1 && r <= LAST
    requires Stands(a, gen, order, Publishing(r), statuses + SentBy(c.sendings, q))
    ensures Stands(Next(a, gen, c), gen, order, AfterPublish(r, c.sendings[r - 1].ok), statuses + SentBy(c.sendings, r))
  {
    SentByOneMore(statuses, c.sendings, q, r);
    PublishTurn(a, gen, c, order, r, statuses + SentBy(c.sendings, q));
  }

  // A publish that succeeds, and the wait after it.
  lemma {:induction false} OneStage(
    a: Kitchen, gen: int, c: Conditions, p: nat, q: nat, order: int, statuses: seq<Status>) returns (b: Kitchen)
    requires Fits(c, gen) && q == p + 1 && q < LAST && c.sendings[q - 1].ok
    requires Stands(a, gen, order, Publishing(q), statuses + SentBy(c.sendings, p))
    ensures b == Next(a, gen, c) && Running(b, gen)
    ensures Stands(Next(b, gen, c), gen, order, if Wakes(b, gen, c, q) then Publishing(q + 1) else Loading,
                   statuses + SentBy(c.sendings, q))
  {
    b := Next(a, gen, c);
    PublishesAt(a, gen, c, p, q, order, statuses);
    SleepTurn(b, gen, c, order, q, statuses + SentBy(c.sendings, q));
  }

  // A publish that succeeds, by the number of its turn n, and the wait after it.
  lemma {:induction false} StageEnds(
    k: Kitchen, gen: int, c: Conditions, p: nat, q: nat, n: nat, m: nat, order: int, statuses: seq<Status>)
    returns (a: Kitchen)
    requires Fits(c, gen) && q == p + 1 && q < LAST && n + 1 == 2 * q && m == n + 2 && c.sendings[q - 1].ok
    requires Stands(After(k, gen, c, n), gen, order, Publishing(q), statuses + SentBy(c.sendings, p))
    ensures a == After(k, gen, c, m)
    ensures Stands(a, gen, order, if WakesAt(k, gen, c, q) then Publishing(q + 1) else Loading, statuses + SentBy(c.sendings, q))
  {
    var l := 2 * q;
    var b := OneStage(After(k, gen, c, n), gen, c, p, q, order, statuses);
    OneTurn(k, gen, c, n, l);
    OneTurn(k, gen, c, l, m);
    a := Next(b, gen, c);
  }

  lemma {:induction false} FirstPublish(k: Kitchen, gen: int, c: Conditions, n: nat, order: int, statuses: seq<Status>)
    returns (a: Kitchen)
    requires n == 1
    requires Fits(c, gen) && Stands(k, gen, order, Starting, statuses) && !ContextOver(Met(k, gen, c), gen)
    ensures a == After(k, gen, c, n) && Stands(a, gen, order, Publishing(1), statuses)
  {
    CheckTurn(k, gen, c, order, statuses);
    a := Next(k, gen, c);
  }

  // The state before the publish after q others.
  lemma {:induction false} GetsThere(
    k: Kitchen, gen: int, c: Conditions, q: nat, r: nat, order: int, statuses: seq<Status>)
    returns (n: nat, a: Kitchen)
    requires Fits(c, gen) && Stands(k, gen, order, Starting, statuses) && r == q + 1 && r <= LAST && GetsTo(k, gen, c, r)
    ensures n == 2 * q + 1 && a == After(k, gen, c, n)
    ensures Stands(a, gen, order, Publishing(r), statuses + SentBy(c.sendings, q))
  {
    if q == 0 {
      n := 2 * q + 1;
      a := FirstPublish(k, gen, c, n, order, statuses);
      assert statuses + [] == statuses;
    } else {
      assert Passes(k, gen, c, q);
      var p := q - 1;
      var m, b := GetsThere(k, gen, c, p, q, order, statuses);
      n := m + 2;
      a := StageEnds(k, gen, c, p, q, m, n, order, statuses);
    }
  }

  /******* Where it returns *******/

  // r is the last publish the pipeline gets to, or 0.
  ghost predicate IsFurthest(k: Kitchen, gen: int, c: Conditions, r: nat)
    requires Shaped(c) && Running(k, gen)
  {
    && r <= LAST && (r > 0 ==> GetsTo(k, gen, c, r))
    && forall q :: r < q <= LAST ==> !GetsTo(k, gen, c, q)
  }

  lemma {:induction false} FurthestExists(k: Kitchen, gen: int, c: Conditions) returns (r: nat)
    requires Shaped(c) && Running(k, gen)
    ensures IsFurthest(k, gen, c, r)
  {
    r := LAST;
    while r > 0 && !GetsTo(k, gen, c, r)
      invariant r <= LAST && forall q :: r < q <= LAST ==> !GetsTo(k, gen, c, q)
    {
      r := r - 1;
    }
  }

  lemma {:induction false} FurthestStops(k: Kitchen, gen: int, c: Conditions, r: nat)
    requires Shaped(c) && Running(k, gen) && IsFurthest(k, gen, c, r)
    ensures r == 0 ==> ContextOver(Met(k, gen, c), gen)
    ensures 0 < r < LAST ==> !Passes(k, gen, c, r)
  {
    if r < LAST {
      var q := r + 1;
      assert !GetsTo(k, gen, c, q);
    }
  }

  // A publish after which there is no wait.
  lemma {:induction false} StopsPublishing(
    k: Kitchen, gen: int, c: Conditions, q: nat, r: nat, n: nat, m: nat, order: int, statuses: seq<Status>)
    requires Fits(c, gen) && r == q + 1 && r <= LAST && m == n + 1 && (r < LAST ==> !c.sendings[r - 1].ok)
    requires Stands(After(k, gen, c, n), gen, order, Publishing(r), statuses + SentBy(c.sendings, q))
    ensures Stands(After(k, gen, c, m), gen, order, Loading, statuses + SentBy(c.sendings, r))
  {
    PublishesAt(After(k, gen, c, n), gen, c, q, r, order, statuses);
    OneTurn(k, gen, c, n, m);
  }

  // The last publish it gets to fails, or the wait after it is cut, or there is nothing after it.
  lemma {:induction false} StopsAfter(
    k: Kitchen, gen: int, c: Conditions, q: nat, r: nat, n: nat, order: int, statuses: seq<Status>) returns (m: nat)
    requires Fits(c, gen) && r == q + 1 && r <= LAST && n + 1 == 2 * r && (r < LAST ==> !Passes(k, gen, c, r))
    requires Stands(After(k, gen, c, n), gen, order, Publishing(r), statuses + SentBy(c.sendings, q))
    ensures n < m <= 8 && Stands(After(k, gen, c, m), gen, order, Loading, statuses + SentBy(c.sendings, r))
  {
    if r < LAST && c.sendings[r - 1].ok {
      m := n + 2;
      var a := StageEnds(k, gen, c, q, r, n, m, order, statuses);
    } else {
      m := n + 1;
      StopsPublishing(k, gen, c, q, r, n, m, order, statuses);
    }
  }

  lemma {:induction false} StopsAtOnce(k: Kitchen, gen: int, c: Conditions, n: nat, order: int, statuses: seq<Status>)
    returns (a: Kitchen)
    requires n == 1
    requires Fits(c, gen) && Stands(k, gen, order, Starting, statuses) && ContextOver(Met(k, gen, c), gen)
    ensures a == After(k, gen, c, n) && Stands(a, gen, order, Loading, statuses)
  {
    CheckTurn(k, gen, c, order, statuses);
    a := Next(k, gen, c);
  }

  /*
   However the pollers, the other pipelines and a shutdown interleave with it: after at most 8 statements the
   pipeline returns, and has sent the copies of its publishes up to the last one it gets to and nothing else.
   */
  lemma {:induction false} ReturnsHavingSent(k: Kitchen, gen: int, c: Conditions, order: int, statuses: seq<Status>)
    returns (r: nat, m: nat)
    requires Fits(c, gen) && Stands(k, gen, order, Starting, statuses)
    ensures IsFurthest(k, gen, c, r) && m <= 8
    ensures Stands(After(k, gen, c, m), gen, order, Loading, statuses + SentBy(c.sendings, r))
  {
    r := FurthestExists(k, gen, c);
    FurthestStops(k, gen, c, r);
    if r == 0 {
      m := r + 1;
      var a := StopsAtOnce(k, gen, c, m, order, statuses);
      assert statuses + [] == statuses;
    } else {
      var q := r - 1;
      var n, a := GetsThere(k, gen, c, q, r, order, statuses);
      m := StopsAfter(k, gen, c, q, r, n, order, statuses);
    }
  }

  lemma {:induction false} KitchenStatusesDiffer(r: nat, rank: nat)
    requires 1 <= r <= LAST && 1 <= rank <= LAST && KitchenStatus(r) == KitchenStatus(rank)
    ensures r == rank
  {}

  lemma {:induction false} SentByHas(sendings: seq<Sending>, r: nat, q: nat)
    requires r <= |sendings| == LAST && 1 <= q <= LAST
    ensures KitchenStatus(q) in SentBy(sendings, r) <==> q <= r && sendings[q - 1].copies > 0
  {
    if r > 0 {
      SentByHas(sendings, r - 1, q);
      if q == r && sendings[q - 1].copies > 0 {
        assert Repeat(KitchenStatus(r), sendings[r - 1].copies)[0] == KitchenStatus(q);
      } else if KitchenStatus(q) == KitchenStatus(r) {
        KitchenStatusesDiffer(q, r);
      }
    }
  }

  /* Exactly which statuses an interrupted pipeline sends: those it gets to and appends a copy of. */
  lemma {:induction false} SentIff(k: Kitchen, gen: int, c: Conditions, r: nat, q: nat)
    requires Shaped(c) && Running(k, gen) && IsFurthest(k, gen, c, r) && 1 <= q <= LAST
    ensures KitchenStatus(q) in SentBy(c.sendings, r) <==> c.sendings[q - 1].copies > 0 && GetsTo(k, gen, c, q)
  {
    SentByHas(c.sendings, r, q);
  }

  /******* Its end *******/

  // How many statements are left at most.
  function Rest(k: Kitchen, gen: int): nat {
    if Running(k, gen) then STATEMENTS - Number(k.pipes[gen].pc) else 0
  }

  lemma {:induction false} SoundIsRunning(k: Kitchen, gen: int)
    requires KitchenOk(k) && gen in k.pipes
    ensures Running(k, gen)
  {
    assert Progressed(k.topic, k.pipes[gen]);
  }

  lemma {:induction false} StatementRest(b: Kitchen, gen: int, c: Conditions)
    requires Fits(c, gen) && Running(b, gen)
    ensures Rest(Do(b, Statement(b.pipes[gen].pc, gen, ContextOver(b, gen), c)), gen) < Rest(b, gen)
  {}

  lemma {:induction false} StatementAdvances(b: Kitchen, gen: int, c: Conditions)
    requires KitchenOk(b) && Fits(c, gen) && Running(b, gen)
    ensures var d := Do(b, Statement(b.pipes[gen].pc, gen, ContextOver(b, gen), c));
      KitchenOk(d) && Rest(d, gen) < Rest(b, gen)
  {
    StatementRest(b, gen, c);
    StepKeeps(b, Statement(b.pipes[gen].pc, gen, ContextOver(b, gen), c));
  }

  lemma {:induction false} TurnAdvances(a: Kitchen, gen: int, c: Conditions)
    requires KitchenOk(a) && Fits(c, gen) && gen in a.pipes
    ensures Running(a, gen) && KitchenOk(Met(a, gen, c)) && Running(Met(a, gen, c), gen)
    ensures Met(a, gen, c).pipes[gen] == a.pipes[gen] && a.revoked <= Met(a, gen, c).revoked
    ensures KitchenOk(Next(a, gen, c)) && Rest(Next(a, gen, c), gen) < Rest(a, gen)
  {
    SoundIsRunning(a, gen);
    ForeignLeaves(a, c.others[Number(a.pipes[gen].pc)], gen);
    StatementAdvances(Met(a, gen, c), gen, c);
  }

  // A turn at pc, in full.
  lemma {:induction false} TurnAt(a: Kitchen, gen: int, c: Conditions, pc: Pc, others: seq<Step>)
    requires KitchenOk(a) && Fits(c, gen) && At(a, gen, pc) && InProgram(pc) && others == c.others[Number(pc)]
    ensures var b := Run(a, others);
      && KitchenOk(b) && At(b, gen, pc) && a.revoked <= b.revoked
      && Next(a, gen, c) == Do(b, Statement(pc, gen, ContextOver(b, gen), c)) && KitchenOk(Next(a, gen, c))
  {
    TurnAdvances(a, gen, c);
  }

  lemma {:induction false} AfterKeeps(k: Kitchen, gen: int, c: Conditions, n: nat)
    requires KitchenOk(k) && Fits(c, gen)
    ensures KitchenOk(After(k, gen, c, n))
  {
    if n > 0 {
      AfterKeeps(k, gen, c, n - 1);
      if gen in After(k, gen, c, n - 1).pipes {
        TurnAdvances(After(k, gen, c, n - 1), gen, c);
      }
    }
  }

  lemma {:induction false} NextRest(a: Kitchen, gen: int, c: Conditions)
    requires KitchenOk(a) && Fits(c, gen)
    ensures Rest(Next(a, gen, c), gen) <= Rest(a, gen)
    ensures gen in a.pipes ==> Rest(Next(a, gen, c), gen) < Rest(a, gen)
  {
    if gen in a.pipes {
      TurnAdvances(a, gen, c);
    }
  }

  lemma {:induction false} RestShrinks(k: Kitchen, gen: int, c: Conditions, n: nat, m: nat) returns (a: Kitchen, b: Kitchen)
    requires KitchenOk(k) && Fits(c, gen) && n < m && gen in After(k, gen, c, n).pipes
    ensures a == After(k, gen, c, n) && b == After(k, gen, c, m) && Rest(b, gen) < Rest(a, gen)
  {
    var l := m - 1;
    AfterKeeps(k, gen, c, l);
    OneTurn(k, gen, c, l, m);
    if n == l {
      a := After(k, gen, c, n);
      NextRest(a, gen, c);
      b := Next(a, gen, c);
    } else {
      var d;
      a, d := RestShrinks(k, gen, c, n, l);
      NextRest(d, gen, c);
      b := Next(d, gen, c);
    }
  }

  /* It returns once. */
  lemma {:induction false} ReturnsOnce(k: Kitchen, gen: int, c: Conditions, n: nat, m: nat)
    requires KitchenOk(k) && Fits(c, gen)
    requires At(After(k, gen, c, n), gen, Loading) && At(After(k, gen, c, m), gen, Loading)
    ensures n == m
  {
    if n < m {
      var _, _ := RestShrinks(k, gen, c, n, m);
    } else if m < n {
      var _, _ := RestShrinks(k, gen, c, m, n);
    }
  }

  // What it has sent whenever it returns.
  lemma {:induction false} ReturnedHavingSent(k: Kitchen, gen: int, c: Conditions, m: nat) returns (r: nat)
    requires KitchenOk(k) && Fits(c, gen) && At(k, gen, Starting) && At(After(k, gen, c, m), gen, Loading)
    ensures IsFurthest(k, gen, c, r)
    ensures var order := k.pipes[gen].order;
      StatusesOf(After(k, gen, c, m).topic, order) == StatusesOf(k.topic, order) + SentBy(c.sendings, r)
  {
    var order := k.pipes[gen].order;
    var n;
    r, n := ReturnsHavingSent(k, gen, c, order, StatusesOf(k.topic, order));
    ReturnsOnce(k, gen, c, n, m);
  }
}
