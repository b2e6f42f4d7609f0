/** What the end of a context costs a running pipeline, by a shutdown or a cancel: its waits, and completing. */
module KitchenShutdowns {
  import opened Common
  import opened Statuses
  import opened StatusTopic
  import opened Kitchen
  import opened KitchenRuns
  import opened KitchenPaths
  import opened KitchenCancels

  /******* Waits that are cut *******/

  // A wait of the pipeline can be cut short here and now.
  predicate Cuttable(k: Kitchen, gen: int) {
    gen in k.pipes && k.pipes[gen].pc.Sleeping? && ContextOver(k, gen)
  }

  // Nobody shuts the process down, and no further cancel message about o is read.
  ghost predicate LeftAlone(steps: seq<Step>, o: int) {
    forall i :: 0 <= i < |steps| ==> !steps[i].Restart? && !steps[i].ShutDown? && steps[i] != ReadCancel(o)
  }

  // The context of the pipeline is over, or the cancel poller is on its way to end it.
  ghost predicate Threatened(k: Kitchen, gen: int, o: int) {
    ContextOver(k, gen) || k.cancels == LookingUp(o) || k.cancels == Calling(gen)
  }

  // The pipeline has no wait ahead of it, or nothing threatens its context.
  ghost predicate Safe(k: Kitchen, gen: int, o: int) {
    && gen < k.nextGen
    && (gen in k.pipes ==> k.pipes[gen].order == o)
    && (gen in k.pipes && Live(k.pipes[gen].pc) && !k.pipes[gen].pc.Loading? && !k.pipes[gen].pc.Deleting? ==>
          !Threatened(k, gen, o))
    && (gen !in k.pipes && (k.orders.Adding? || k.orders.Spawning?) ==> k.orders.gen != gen)
  }

  lemma {:induction false} SafePoll(k: Kitchen, step: Step, gen: int, o: int)
    requires ActiveOk(k) && ContextsOk(k) && Safe(k, gen, o) && !OfPipe(step)
    requires !step.Restart? && !step.ShutDown? && step != ReadCancel(o)
    ensures Safe(DoPoll(k, step), gen, o)
  {
    if gen in k.pipes && Live(k.pipes[gen].pc) {
      assert WorksOn(k, gen, o);
    }
  }

  lemma {:induction false} SafePipe(k: Kitchen, step: Step, gen: int, o: int)
    requires ActiveOk(k) && ContextsOk(k) && Safe(k, gen, o) && OfPipe(step)
    ensures Safe(DoPipe(k, step), gen, o)
  {}

  lemma {:induction false} SafeStep(k: Kitchen, step: Step, gen: int, o: int)
    requires KitchenOk(k) && Safe(k, gen, o)
    requires !step.Restart? && !step.ShutDown? && step != ReadCancel(o)
    ensures Safe(Do(k, step), gen, o)
  {
    if OfPipe(step) {
      SafePipe(k, step, gen, o);
    } else {
      SafePoll(k, step, gen, o);
    }
  }

  lemma {:induction false} SafeRun(k: Kitchen, steps: seq<Step>, gen: int, o: int)
    requires KitchenOk(k) && Safe(k, gen, o) && LeftAlone(steps, o)
    ensures Safe(Run(k, steps), gen, o)
  {
    if steps != [] {
      var n := |steps| - 1;
      SafeRun(k, steps[..n], gen, o);
      RunKeeps(k, steps[..n]);
      SafeStep(Run(k, steps[..n]), steps[n], gen, o);
    }
  }

  ghost predicate CanBeCut(k: Kitchen, gen: int, o: int) {
    exists steps :: LeftAlone(steps, o) && Cuttable(Run(k, steps), gen)
  }

  lemma {:induction false} ThreatenedCanBeCut(k: Kitchen, gen: int)
    requires KitchenOk(k) && gen in k.pipes && k.pipes[gen].pc.Sleeping? && Threatened(k, gen, k.pipes[gen].order)
    ensures CanBeCut(k, gen, k.pipes[gen].order)
  {
    var o := k.pipes[gen].order;
    assert WorksOn(k, gen, o);
    if ContextOver(k, gen) {
      assert LeftAlone([], o) && Cuttable(Run(k, []), gen);
    } else {
      RunTwo(k, LookUpForCancel, CallCancel);
      assert LeftAlone([LookUpForCancel] + [CallCancel], o);
      assert Cuttable(Run(k, [LookUpForCancel] + [CallCancel]), gen);
    }
  }

  /*
   "A pipeline survives the end of polling" is not true: its context is a child of the pollers' one. When
   nobody shuts the process down and no further cancel of its order is read, a waiting pipeline can lose
   a wait exactly when its context is over already, by a cancel or by an earlier shutdown, or the cancel
   poller is just about to end it.
   */
  lemma {:induction false} WaitCanBeCutIff(k: Kitchen, gen: int)
    requires KitchenOk(k) && gen in k.pipes && k.pipes[gen].pc.Sleeping?
    ensures CanBeCut(k, gen, k.pipes[gen].order) <==> Threatened(k, gen, k.pipes[gen].order)
  {
    var o := k.pipes[gen].order;
    if Threatened(k, gen, o) {
      ThreatenedCanBeCut(k, gen);
    } else if CanBeCut(k, gen, o) {
      var steps :| LeftAlone(steps, o) && Cuttable(Run(k, steps), gen);
      SafeRun(k, steps, gen, o);
    }
  }

  lemma {:induction false} AcceptsOnly(k: Kitchen, before: seq<Step>, gen: int) returns (steps: seq<Step>)
    requires At(Run(k, before), gen, Publishing(1))
    ensures NoRestart(before) ==> NoRestart(steps)
    ensures var a, b := Run(k, before), Run(k, steps);
      && At(b, gen, Sleeping(1)) && b.shutdown
      && b.topic == a.topic + [StatusMessage(a.pipes[gen].order, Accepted)]
  {
    var o := Run(k, before).pipes[gen].order;
    assert Repeat(StatusMessage(o, Accepted), 1) == [StatusMessage(o, Accepted)];
    RunStep(k, before, Publish(gen, 1, true));
    steps := before + [Publish(gen, 1, true)];
    RunStep(k, steps, ShutDown);
    steps := steps + [ShutDown];
  }

  /* A shutdown in a run from the start: order 7 is accepted, its wait is cut, and the process ends without cooking it. */
  lemma {:induction false} ShutdownCutsOff() returns (steps: seq<Step>)
    ensures var k := Run(Started(0, []), steps); k.wg == 0 && k.topic == [StatusMessage(7, Accepted)]
    ensures NoRestart(steps)
  {
    var k := Started(0, []);
    ChecksRun(k, 7);
    steps := [ReadOrder(7)] + [LookUpActive] + [LookUpNoted];
    steps := StartsAllTheSame(k, steps, 7);
    steps := AcceptsOnly(k, steps, 0);
    KitchenRuns.InitiallyOk(0);
    RunKeeps(k, steps);
    var more := ShutdownCanEnd(Run(k, steps));
    RunsJoin(k, steps, more);
    steps := steps + more;
  }

  /******* Pipelines that are stopped short *******/

  // Every publish succeeds, the process is not started anew, and no further cancel message about o is read.
  ghost predicate Smooth(steps: seq<Step>, o: int) {
    forall i :: 0 <= i < |steps| ==>
      !steps[i].Restart? && steps[i] != ReadCancel(o) && (steps[i].Publish? ==> steps[i].ok)
  }

  function Completions(topic: seq<StatusMessage>, o: int): nat {
    multiset(StatusesOf(topic, o))[Completed]
  }

  // The pipeline can come to its deferred calls without completed having been sent about its order.
  ghost predicate CanStopShort(k: Kitchen, gen: int, o: int) {
    exists steps :: Smooth(steps, o) && At(Run(k, steps), gen, Loading) &&
      Completions(Run(k, steps).topic, o) == Completions(k.topic, o)
  }

  lemma {:induction false} CompletionsAppend(topic: seq<StatusMessage>, m: StatusMessage, n: nat, o: int)
    ensures Completions(topic + Repeat(m, n), o) ==
            Completions(topic, o) + if m.order == o && m.status == Completed then n else 0
  {
    StatusesOfAppend(topic, m, n, o);
    var before := StatusesOf(topic, o);
    if m.order == o {
      CopiesOf(m.status, n);
      assert multiset(before + Repeat(m.status, n)) == multiset(before) + multiset(Repeat(m.status, n));
    }
  }

  lemma {:induction false} CopiesOf(status: Status, n: nat)
    ensures multiset(Repeat(status, n))[Completed] == if status == Completed then n else 0
  {
    if n > 0 {
      CopiesOf(status, n - 1);
      assert Repeat(status, n) == Repeat(status, n - 1) + [status];
    }
  }

  // The pipeline sends completed next, or it was sent.
  ghost predicate Sure(k: Kitchen, gen: int, o: int, completions: nat) {
    || (At(k, gen, Publishing(LAST)) && k.pipes[gen].order == o)
    || Completions(k.topic, o) > completions
  }

  lemma {:induction false} SurePublish(k: Kitchen, gen: int, o: int, completions: nat, g: int, copies: nat)
    requires Sure(k, gen, o, completions) && Completions(k.topic, o) >= completions && CanPublish(k, g, copies, true)
    ensures var b := Published(k, g, copies, true);
      Sure(b, gen, o, completions) && Completions(b.topic, o) >= completions
  {
    CompletionsAppend(k.topic, StatusMessage(k.pipes[g].order, KitchenStatus(k.pipes[g].pc.rank)), copies, o);
  }

  lemma {:induction false} PublishingStays(k: Kitchen, step: Step, gen: int)
    requires KitchenOk(k) && !step.Restart? && gen in k.pipes && k.pipes[gen].pc.Publishing?
    requires !(step.Publish? && CanPublish(k, step.gen, step.copies, step.ok))
    ensures gen in Do(k, step).pipes && Do(k, step).pipes[gen] == k.pipes[gen]
  {}

  lemma {:induction false} TopicStays(k: Kitchen, step: Step)
    requires !step.Restart? && !(step.Publish? && CanPublish(k, step.gen, step.copies, step.ok))
    ensures Do(k, step).topic == k.topic
  {}

  lemma {:induction false} SureStep(k: Kitchen, step: Step, gen: int, o: int, completions: nat)
    requires KitchenOk(k) && !step.Restart? && (step.Publish? ==> step.ok)
    requires Sure(k, gen, o, completions) && Completions(k.topic, o) >= completions
    ensures Sure(Do(k, step), gen, o, completions) && Completions(Do(k, step).topic, o) >= completions
  {
    if step.Publish? && CanPublish(k, step.gen, step.copies, step.ok) {
      SurePublish(k, gen, o, completions, step.gen, step.copies);
    } else {
      TopicStays(k, step);
      if At(k, gen, Publishing(LAST)) {
        PublishingStays(k, step, gen);
      }
    }
  }

  lemma {:induction false} SureRun(k: Kitchen, steps: seq<Step>, gen: int, o: int)
    requires KitchenOk(k) && Smooth(steps, o) && At(k, gen, Publishing(LAST)) && k.pipes[gen].order == o
    ensures var completions := Completions(k.topic, o);
      Sure(Run(k, steps), gen, o, completions) && Completions(Run(k, steps).topic, o) >= completions
  {
    if steps != [] {
      var n := |steps| - 1;
      SureRun(k, steps[..n], gen, o);
      RunKeeps(k, steps[..n]);
      SureStep(Run(k, steps[..n]), steps[n], gen, o, Completions(k.topic, o));
    }
  }

  // Before its first look, or while it waits, a shutdown cuts the pipeline off at once.
  lemma {:induction false} CutOffNow(k: Kitchen, gen: int, o: int)
    requires At(k, gen, Starting) || (gen in k.pipes && k.pipes[gen].pc.Sleeping?)
    ensures CanStopShort(k, gen, o)
  {
    var last := if At(k, gen, Starting) then CheckContext(gen) else Sleep(gen, false);
    RunTwo(k, ShutDown, last);
    assert Smooth([ShutDown] + [last], o);
    assert At(Run(k, [ShutDown] + [last]), gen, Loading);
  }

  lemma {:induction false} StopsShortAfter(k: Kitchen, step: Step, gen: int, o: int)
    requires CanStopShort(Do(k, step), gen, o) && Smooth([step], o)
    requires Completions(Do(k, step).topic, o) == Completions(k.topic, o)
    ensures CanStopShort(k, gen, o)
  {
    var a := Do(k, step);
    var steps :| Smooth(steps, o) && At(Run(a, steps), gen, Loading) &&
      Completions(Run(a, steps).topic, o) == Completions(a.topic, o);
    RunTwo(k, step, step);
    RunsJoin(k, [step], steps);
    assert Smooth([step] + steps, o);
  }

  lemma {:induction false} PublishesOne(k: Kitchen, gen: int, rank: nat)
    requires At(k, gen, Publishing(rank)) && rank < LAST
    ensures var b := Do(k, Publish(gen, 1, true));
      && At(b, gen, Sleeping(rank)) && b.pipes[gen].order == k.pipes[gen].order
      && b.topic == k.topic + Repeat(StatusMessage(k.pipes[gen].order, KitchenStatus(rank)), 1)
  {}

  lemma {:induction false} CutOffNext(k: Kitchen, gen: int, rank: nat, o: int)
    requires At(k, gen, Publishing(rank)) && rank < LAST && KitchenStatus(rank) != Completed && k.pipes[gen].order == o
    ensures CanStopShort(k, gen, o)
  {
    PublishesOne(k, gen, rank);
    CompletionsAppend(k.topic, StatusMessage(o, KitchenStatus(rank)), 1, o);
    CutOffNow(Do(k, Publish(gen, 1, true)), gen, o);
    StopsShortAfter(k, Publish(gen, 1, true), gen, o);
  }

  /*
   What a shutdown can stop, when every publish succeeds and no cancel comes in: exactly the pipelines that still
   have a wait or their first look at the context ahead of them. Only those past their last wait are sure to complete.
   */
  lemma {:induction false} ShutdownStopsShortIff(k: Kitchen, gen: int)
    requires KitchenOk(k) && gen in k.pipes
    requires k.pipes[gen].pc.Starting? || k.pipes[gen].pc.Publishing? || k.pipes[gen].pc.Sleeping?
    ensures CanStopShort(k, gen, k.pipes[gen].order) <==> k.pipes[gen].pc != Publishing(LAST)
  {
    var o := k.pipes[gen].order;
    assert Progressed(k.topic, k.pipes[gen]);
    if !k.pipes[gen].pc.Publishing? {
      CutOffNow(k, gen, o);
    } else if k.pipes[gen].pc != Publishing(LAST) {
      CutOffNext(k, gen, k.pipes[gen].pc.rank, o);
    } else if CanStopShort(k, gen, o) {
      var steps :| Smooth(steps, o) && At(Run(k, steps), gen, Loading) &&
        Completions(Run(k, steps).topic, o) == Completions(k.topic, o);
      SureRun(k, steps, gen, o);
    }
  }
}
