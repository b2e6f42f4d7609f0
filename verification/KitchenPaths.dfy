/** What the restaurant's process can always still do: end a pipeline, get back to reading, and stop. */
module KitchenPaths {
  import opened Common
  import opened Statuses
  import opened StatusTopic
  import opened Kitchen
  import opened KitchenRuns

  // b can be reached from a while the process lives.
  ghost predicate Reaches(a: Kitchen, b: Kitchen) {
    exists steps :: NoRestart(steps) && Run(a, steps) == b
  }

  lemma {:induction false} ReachSelf(a: Kitchen)
    ensures Reaches(a, a)
  {
    assert NoRestart([]) && Run(a, []) == a;
  }

  lemma {:induction false} ReachStep(a: Kitchen, step: Step)
    requires !step.Restart?
    ensures Reaches(a, Do(a, step))
  {
    RunTwo(a, step, step);
    assert NoRestart([step]) && Run(a, [step]) == Do(a, step);
  }

  lemma {:induction false} ReachTrans(a: Kitchen, b: Kitchen, c: Kitchen)
    requires Reaches(a, b) && Reaches(b, c)
    ensures Reaches(a, c)
  {
    var s :| NoRestart(s) && Run(a, s) == b;
    var t :| NoRestart(t) && Run(b, t) == c;
    RunsJoin(a, s, t);
    assert NoRestart(s + t);
  }

  lemma {:induction false} NextGenStep(k: Kitchen, step: Step)
    ensures k.nextGen <= Do(k, step).nextGen
  {}

  lemma {:induction false} NextGenGrows(k: Kitchen, steps: seq<Step>)
    ensures k.nextGen <= Run(k, steps).nextGen
  {
    if steps != [] {
      NextGenGrows(k, steps[..|steps| - 1]);
      NextGenStep(Run(k, steps[..|steps| - 1]), steps[|steps| - 1]);
    }
  }

  lemma {:induction false} ReachKeeps(a: Kitchen, b: Kitchen)
    requires KitchenOk(a) && Reaches(a, b)
    ensures KitchenOk(b) && a.nextGen <= b.nextGen
  {
    var s :| NoRestart(s) && Run(a, s) == b;
    RunKeeps(a, s);
    NextGenGrows(a, s);
  }

  /******* A pipeline can end *******/

  function PipeWork(pc: Pc): nat {
    match pc
    case Starting => 7
    case Sleeping(_) => 6
    case Publishing(_) => 5
    case Loading => 4
    case Deleting(_) => 3
    case Releasing(_) => 2
    case Leaving => 1
  }

  // Everything but pipeline gen, its entry and its context is the same, and nothing was sent.
  ghost predicate OnlyPipe(a: Kitchen, b: Kitchen, gen: int) {
    && b.pipes - {gen} == a.pipes - {gen}
    && b.noted == a.noted && b.orders == a.orders && b.cancels == a.cancels
    && b.shutdown == a.shutdown && b.topic == a.topic
  }

  // Steps of a pipeline that lead to its end without sending anything.
  function TowardsEnd(k: Kitchen, gen: int): Step
    requires gen in k.pipes
  {
    match k.pipes[gen].pc
    case Starting => CheckContext(gen)
    case Sleeping(_) => Sleep(gen, !ContextOver(k, gen))
    case Publishing(_) => Publish(gen, 0, false)
    case Loading => LoadOwn(gen)
    case Deleting(_) => DeleteOwn(gen)
    case Releasing(_) => ReleaseOwn(gen)
    case Leaving => PipeDone(gen)
  }

  lemma {:induction false} PipeAdvances(k: Kitchen, gen: int)
    requires gen in k.pipes
    ensures var b := Do(k, TowardsEnd(k, gen));
      && OnlyPipe(k, b, gen) && !TowardsEnd(k, gen).Restart?
      && (gen in b.pipes ==> PipeWork(b.pipes[gen].pc) < PipeWork(k.pipes[gen].pc) && b.pipes[gen].order == k.pipes[gen].order)
  {
    if k.pipes[gen].pc.Publishing? {
      assert k.topic + [] == k.topic;
    }
  }

  lemma {:induction false} PipeEnds(k: Kitchen, gen: int) returns (b: Kitchen)
    requires gen in k.pipes
    ensures Reaches(k, b) && OnlyPipe(k, b, gen) && gen !in b.pipes
    decreases PipeWork(k.pipes[gen].pc)
  {
    var step := TowardsEnd(k, gen);
    PipeAdvances(k, gen);
    ReachStep(k, step);
    b := Do(k, step);
    if gen in b.pipes {
      var c := PipeEnds(b, gen);
      ReachTrans(k, b, c);
      b := c;
    }
  }

  // An order that is worked on by a pipeline can be let go.
  lemma {:induction false} OrderEnds(k: Kitchen, o: int) returns (b: Kitchen)
    requires KitchenOk(k) && k.orders == Reading
    ensures Reaches(k, b) && b.orders == Reading && b.noted == k.noted && b.cancels == k.cancels && o !in b.active
  {
    if o in k.active {
      var gen := k.active[o];
      assert WorksOn(k, gen, o);
      b := PipeEnds(k, gen);
      ReachKeeps(k, b);
      if o in b.active {
        assert WorksOn(b, b.active[o], o);
        assert b.active[o] in b.pipes - {gen};
        assert WorksOn(k, b.active[o], o);
      }
    } else {
      ReachSelf(k);
      b := k;
    }
  }

  /******* The order poller can get back to its loop head *******/

  predicate PollerStopped(k: Kitchen) {
    k.orders.Finishing? || k.orders.Finished?
  }

  function PollWork(p: OrderPoller): nat {
    match p
    case CheckingActive(_) => 5
    case CheckingCancelled(_) => 4
    case Storing(_) => 3
    case Adding(_, _) => 2
    case Spawning(_, _) => 1
    case _ => 0
  }

  function TowardsReading(p: OrderPoller): Step {
    match p
    case CheckingActive(_) => LookUpActive
    case CheckingCancelled(_) => LookUpNoted
    case Storing(_) => StoreActive
    case Adding(_, _) => AddOne
    case _ => Spawn
  }

  ghost predicate OnlyPoller(a: Kitchen, b: Kitchen) {
    b.noted == a.noted && b.cancels == a.cancels && b.shutdown == a.shutdown && b.topic == a.topic
  }

  lemma {:induction false} PollerAdvances(k: Kitchen)
    requires PollWork(k.orders) > 0
    ensures var b := Do(k, TowardsReading(k.orders));
      OnlyPoller(k, b) && PollWork(b.orders) < PollWork(k.orders) && !PollerStopped(b)
  {}

  lemma {:induction false} PollerReads(k: Kitchen) returns (b: Kitchen)
    requires !PollerStopped(k)
    ensures Reaches(k, b) && OnlyPoller(k, b) && b.orders == Reading
    decreases PollWork(k.orders)
  {
    if PollWork(k.orders) == 0 {
      ReachSelf(k);
      b := k;
    } else {
      PollerAdvances(k);
      var c := Do(k, TowardsReading(k.orders));
      ReachStep(k, TowardsReading(k.orders));
      b := PollerReads(c);
      ReachTrans(k, c, b);
    }
  }

  /******* The process can stop *******/

  lemma {:induction false} OrdersStop(k: Kitchen) returns (b: Kitchen)
    requires k.shutdown
    ensures Reaches(k, b) && b.shutdown && b.cancels == k.cancels && b.orders.Finished? && b.topic == k.topic
  {
    b := k;
    ReachSelf(k);
    if !PollerStopped(k) {
      b := PollerReads(k);
      ReachStep(b, StopReading);
      ReachTrans(k, b, Do(b, StopReading));
      b := Do(b, StopReading);
    }
    ReachStep(b, OrdersDone);
    ReachTrans(k, b, Do(b, OrdersDone));
    b := Do(b, OrdersDone);
  }

  // Steps of one poller under the names of what they do.
  lemma {:induction false} CancelReaches(k: Kitchen)
    ensures Reaches(k, DoLookUpForCancel(k)) && Reaches(k, DoCallCancel(k)) && Reaches(k, DoNoteCancel(k))
  {
    ReachStep(k, LookUpForCancel);
    ReachStep(k, CallCancel);
    ReachStep(k, NoteCancel);
  }

  // Whatever message the cancel poller has in hand, it can be through with it.
  function CancelHandled(k: Kitchen): Kitchen {
    DoNoteCancel(DoCallCancel(DoLookUpForCancel(k)))
  }

  lemma {:induction false} HandlingReaches(k: Kitchen)
    ensures Reaches(k, CancelHandled(k))
  {
    var a, b := DoLookUpForCancel(k), DoCallCancel(DoLookUpForCancel(k));
    CancelReaches(k);
    CancelReaches(a);
    CancelReaches(b);
    ReachTrans(k, a, b);
    ReachTrans(k, b, DoNoteCancel(b));
  }

  lemma {:induction false} CancelsStop(k: Kitchen) returns (b: Kitchen)
    requires k.shutdown
    ensures Reaches(k, b) && b.orders == k.orders && b.cancels.Stopped? && b.topic == k.topic
  {
    HandlingReaches(k);
    var a := CancelHandled(k);
    b := StopsFromWaiting(a);
    ReachTrans(k, a, b);
  }

  lemma {:induction false} StopsFromWaiting(k: Kitchen) returns (b: Kitchen)
    requires k.shutdown && (k.cancels == Waiting || k.cancels == Stopping || k.cancels == Stopped)
    ensures Reaches(k, b) && b.orders == k.orders && b.cancels.Stopped? && b.topic == k.topic
  {
    ReachStep(k, StopWaiting);
    var c := Do(k, StopWaiting);
    ReachStep(c, CancelsDone);
    b := Do(c, CancelsDone);
    ReachTrans(k, c, b);
  }

  lemma {:induction false} PipesEnd(k: Kitchen) returns (b: Kitchen)
    ensures Reaches(k, b) && b.pipes == map[] && b.orders == k.orders && b.cancels == k.cancels && b.topic == k.topic
    decreases |k.pipes|
  {
    if k.pipes == map[] {
      ReachSelf(k);
      b := k;
    } else {
      var gen := Member(k.pipes.Keys);
      var c := PipeEnds(k, gen);
      assert c.pipes == k.pipes - {gen};
      OneLess(k.pipes, gen);
      b := PipesEnd(c);
      ReachTrans(k, c, b);
    }
  }

  /* After a shutdown wg.Wait can always return: some continuation, without a further message, brings the counter to zero. */
  lemma {:induction false} ShutdownCanEnd(k: Kitchen) returns (steps: seq<Step>)
    requires KitchenOk(k) && k.shutdown
    ensures NoRestart(steps) && Run(k, steps).wg == 0 && Run(k, steps).topic == k.topic
  {
    var b := OrdersStop(k);
    var c := CancelsStop(b);
    ReachTrans(k, b, c);
    var d := PipesEnd(c);
    ReachTrans(k, c, d);
    ReachKeeps(k, d);
    NobodyLeft(d);
    steps :| NoRestart(steps) && Run(k, steps) == d;
  }
}
