/** What a cancel prevents in the restaurant's process, exactly: new pipelines and further messages. */
module KitchenCancels {
  import opened Common
  import opened Statuses
  import opened StatusTopic
  import opened Kitchen
  import opened KitchenRuns
  import opened KitchenPaths

  /******* Starting *******/

  // The order poller has decided to start o and has not done so yet.
  predicate AboutToStart(k: Kitchen, o: int) {
    (k.orders.Storing? || k.orders.Adding? || k.orders.Spawning?) && k.orders.order == o
  }

  ghost predicate PipeOf(k: Kitchen, gen: int, o: int) {
    gen in k.pipes && k.pipes[gen].order == o
  }

  lemma {:induction false} CancelledStep(k: Kitchen, step: Step, o: int)
    requires o in k.noted && !AboutToStart(k, o) && !step.Restart?
    ensures o in Do(k, step).noted && !AboutToStart(Do(k, step), o)
    ensures forall gen :: PipeOf(Do(k, step), gen, o) ==> PipeOf(k, gen, o)
    ensures (forall gen :: !PipeOf(k, gen, o)) ==> StatusesOf(Do(k, step).topic, o) == StatusesOf(k.topic, o)
  {
    if step.Publish? && CanPublish(k, step.gen, step.copies, step.ok) {
      var p := k.pipes[step.gen];
      StatusesOfAppend(k.topic, StatusMessage(p.order, KitchenStatus(p.pc.rank)), step.copies, o);
      assert PipeOf(k, step.gen, p.order);
    }
  }

  /*
   Once cancelledOrders holds an order that the poller is not just about to start, no new pipeline for
   it appears in any run, and without an old one the topic never mentions it again.
   */
  lemma {:induction false} CancelledFirstNeverStarts(k: Kitchen, steps: seq<Step>, o: int)
    requires o in k.noted && !AboutToStart(k, o) && NoRestart(steps)
    ensures var b := Run(k, steps);
      && o in b.noted && !AboutToStart(b, o)
      && (forall gen :: PipeOf(b, gen, o) ==> PipeOf(k, gen, o))
      && ((forall gen :: !PipeOf(k, gen, o)) ==> StatusesOf(b.topic, o) == StatusesOf(k.topic, o))
  {
    if steps != [] {
      var n := |steps| - 1;
      CancelledFirstNeverStarts(k, steps[..n], o);
      CancelledStep(Run(k, steps[..n]), steps[n], o);
    }
  }

  ghost predicate CanStart(k: Kitchen, o: int) {
    exists steps, gen :: NoRestart(steps) && PipeOf(Run(k, steps), gen, o) && !PipeOf(k, gen, o)
  }

  lemma {:induction false} StartReaches(k: Kitchen)
    ensures Reaches(k, DoStoreActive(k)) && Reaches(k, DoAddOne(k)) && Reaches(k, DoSpawn(k))
  {
    ReachStep(k, StoreActive);
    ReachStep(k, AddOne);
    ReachStep(k, Spawn);
  }

  // From the decision to start there is always a way to start.
  lemma {:induction false} DecidedStarts(k: Kitchen, o: int) returns (b: Kitchen, gen: int)
    requires AboutToStart(k, o)
    ensures Reaches(k, b) && gen == (if k.orders.Storing? then k.nextGen else k.orders.gen)
    ensures PipeOf(b, gen, o) && At(b, gen, Starting)
    ensures b.topic == k.topic && b.revoked == k.revoked && b.shutdown == k.shutdown && b.noted == k.noted
  {
    gen := if k.orders.Storing? then k.nextGen else k.orders.gen;
    var c, d := DoStoreActive(k), DoAddOne(DoStoreActive(k));
    StartReaches(k);
    StartReaches(c);
    StartReaches(d);
    b := DoSpawn(d);
    ReachTrans(k, c, d);
    ReachTrans(k, d, b);
  }

  lemma {:induction false} ReachedStart(k: Kitchen, b: Kitchen, gen: int, o: int)
    requires Reaches(k, b) && PipeOf(b, gen, o) && !PipeOf(k, gen, o)
    ensures CanStart(k, o)
  {
    var steps :| NoRestart(steps) && Run(k, steps) == b;
    assert PipeOf(Run(k, steps), gen, o);
  }

  lemma {:induction false} DecidedCanStart(k: Kitchen, o: int)
    requires KitchenOk(k) && AboutToStart(k, o)
    ensures CanStart(k, o)
  {
    var b, gen := DecidedStarts(k, o);
    ReachedStart(k, b, gen, o);
  }

  // The order poller decides to start an order that is not noted, whatever the cancel poller is at.
  lemma {:induction false} CanDecide(k: Kitchen, o: int) returns (b: Kitchen)
    requires KitchenOk(k) && o !in k.noted && !PollerStopped(k)
    ensures Reaches(k, b) && b.orders == Storing(o) && b.cancels == k.cancels
  {
    var a := PollerReads(k);
    ReachKeeps(k, a);
    var c := OrderEnds(a, o);
    ReachTrans(k, a, c);
    ChecksRun(c, o);
    var s := [ReadOrder(o)] + [LookUpActive] + [LookUpNoted];
    assert NoRestart(s);
    b := Run(c, s);
    assert Reaches(c, b);
    ReachTrans(k, c, b);
  }

  // An order that was never noted can be started again as long as the poller runs.
  lemma {:induction false} UnnotedCanStart(k: Kitchen, o: int)
    requires KitchenOk(k) && o !in k.noted && !PollerStopped(k)
    ensures CanStart(k, o)
  {
    var c := CanDecide(k, o);
    ReachKeeps(k, c);
    var d, gen := DecidedStarts(c, o);
    ReachTrans(k, c, d);
    ReachedStart(k, d, gen, o);
  }

  lemma {:induction false} StoppedStep(k: Kitchen, step: Step, o: int)
    requires PollerStopped(k) && !step.Restart?
    ensures PollerStopped(Do(k, step))
    ensures forall gen :: PipeOf(Do(k, step), gen, o) ==> PipeOf(k, gen, o)
  {}

  lemma {:induction false} StoppedNeverStarts(k: Kitchen, steps: seq<Step>, o: int)
    requires PollerStopped(k) && NoRestart(steps)
    ensures PollerStopped(Run(k, steps))
    ensures forall gen :: PipeOf(Run(k, steps), gen, o) ==> PipeOf(k, gen, o)
  {
    if steps != [] {
      var n := |steps| - 1;
      StoppedNeverStarts(k, steps[..n], o);
      StoppedStep(Run(k, steps[..n]), steps[n], o);
    }
  }

  /*
   When a new pipeline for an order can still appear in the life of the process: the poller is about to
   start it, or the order is not noted and the poller still runs.
   */
  lemma {:induction false} CanStartIff(k: Kitchen, o: int)
    requires KitchenOk(k)
    ensures CanStart(k, o) <==> AboutToStart(k, o) || (o !in k.noted && !PollerStopped(k))
  {
    if AboutToStart(k, o) {
      DecidedCanStart(k, o);
    } else if o !in k.noted && !PollerStopped(k) {
      UnnotedCanStart(k, o);
    } else if CanStart(k, o) {
      var steps, gen :| NoRestart(steps) && PipeOf(Run(k, steps), gen, o) && !PipeOf(k, gen, o);
      if o in k.noted {
        CancelledFirstNeverStarts(k, steps, o);
      } else {
        StoppedNeverStarts(k, steps, o);
      }
    }
  }

  /******* A cancel message, step by step *******/

  lemma {:induction false} StepCanStartIff(k: Kitchen, step: Step, o: int)
    requires KitchenOk(k)
    ensures var b := Do(k, step); CanStart(b, o) <==> AboutToStart(b, o) || (o !in b.noted && !PollerStopped(b))
  {
    StepKeeps(k, step);
    CanStartIff(Do(k, step), o);
  }

  /*
   A cancel that found the order inactive ends by noting it. It prevents every later start exactly when the
   poller has not decided to start the order by then, which it may do between the lookup and the note.
   */
  lemma {:induction false} NotingPreventsStartIff(k: Kitchen, o: int)
    requires KitchenOk(k) && k.cancels == Noting(o)
    ensures !CanStart(DoNoteCancel(k), o) <==> !AboutToStart(k, o)
  {
    StepCanStartIff(k, NoteCancel, o);
  }

  /*
   A cancel that found the order active ends by calling a cancel function, and notes nothing: a redelivered
   created message starts the order again unless it was noted before or the poller has stopped.
   */
  lemma {:induction false} CallingPreventsStartIff(k: Kitchen, o: int)
    requires KitchenOk(k) && k.cancels.Calling?
    ensures !CanStart(DoCallCancel(k), o) <==> !AboutToStart(k, o) && (o in k.noted || PollerStopped(k))
  {
    StepCanStartIff(k, CallCancel, o);
  }

  // What cannot start now never can.
  lemma {:induction false} CannotStartStays(k: Kitchen, steps: seq<Step>, o: int)
    requires KitchenOk(k) && NoRestart(steps) && !CanStart(k, o)
    ensures !CanStart(Run(k, steps), o)
  {
    CanStartIff(k, o);
    RunKeeps(k, steps);
    CanStartIff(Run(k, steps), o);
    if o in k.noted {
      CancelledFirstNeverStarts(k, steps, o);
    } else {
      StoppedNeverStarts(k, steps, o);
    }
  }

  // The cancel poller is back at its loop head, and the order can start.
  ghost predicate HandledInVain(k: Kitchen, o: int) {
    exists b :: Reaches(k, b) && b.cancels == Waiting && CanStart(b, o)
  }

  lemma {:induction false} InVainWhenDecided(k: Kitchen, o: int)
    requires KitchenOk(k) && k.cancels == LookingUp(o) && AboutToStart(k, o)
    ensures HandledInVain(k, o)
  {
    HandlingReaches(k);
    ReachKeeps(k, CancelHandled(k));
    CanStartIff(CancelHandled(k), o);
  }

  lemma {:induction false} InVainWhenActive(k: Kitchen, o: int)
    requires KitchenOk(k) && k.cancels == LookingUp(o) && o in k.active && o !in k.noted && !PollerStopped(k)
    ensures HandledInVain(k, o)
  {
    HandlingReaches(k);
    ReachKeeps(k, CancelHandled(k));
    CanStartIff(CancelHandled(k), o);
  }

  lemma {:induction false} InVainWhenOvertaken(k: Kitchen, o: int)
    requires KitchenOk(k) && k.cancels == LookingUp(o) && o !in k.active && o !in k.noted && !PollerStopped(k)
    ensures HandledInVain(k, o)
  {
    var a := DoLookUpForCancel(k);
    CancelReaches(k);
    ReachKeeps(k, a);
    var b := CanDecide(a, o);
    ReachTrans(k, a, b);
    ReachKeeps(k, b);
    NotingPreventsStartIff(b, o);
    CancelReaches(b);
    ReachTrans(k, b, DoNoteCancel(b));
  }

  /*
   "A handled cancel keeps the order from starting again" is true of every way to handle the message, with any
   steps of the others between the operations of the cancel poller, exactly when nothing could start the order
   before: a cancel message alone is never sure to prevent a start.
   */
  lemma {:induction false} HandlingIsSureIff(k: Kitchen, o: int)
    requires KitchenOk(k) && k.cancels == LookingUp(o)
    ensures !HandledInVain(k, o) <==> !AboutToStart(k, o) && (o in k.noted || PollerStopped(k))
  {
    CanStartIff(k, o);
    if AboutToStart(k, o) {
      InVainWhenDecided(k, o);
    } else if o in k.noted || PollerStopped(k) {
      forall b | Reaches(k, b) ensures !CanStart(b, o) {
        var steps :| NoRestart(steps) && Run(k, steps) == b;
        CannotStartStays(k, steps, o);
      }
    } else if o in k.active {
      InVainWhenActive(k, o);
    } else {
      InVainWhenOvertaken(k, o);
    }
  }

  /******* Sending *******/

  // A pipeline that can still send something.
  predicate CanGoOn(k: Kitchen, gen: int) {
    gen in k.pipes &&
    match k.pipes[gen].pc
    case Publishing(_) => true
    case Sleeping(_) => true
    case Starting => !ContextOver(k, gen)
    case _ => false
  }

  ghost predicate WillGoOn(k: Kitchen, o: int) {
    || (AboutToStart(k, o) && !k.shutdown && (k.orders.Storing? || k.orders.gen !in k.revoked))
    || exists gen :: PipeOf(k, gen, o) && CanGoOn(k, gen)
  }

  // Some run sends a further message about the order.
  ghost predicate CanSend(k: Kitchen, o: int) {
    exists steps :: NoRestart(steps) && |StatusesOf(Run(k, steps).topic, o)| > |StatusesOf(k.topic, o)|
  }

  lemma {:induction false} ReachedSend(k: Kitchen, b: Kitchen, o: int)
    requires Reaches(k, b) && |StatusesOf(b.topic, o)| > |StatusesOf(k.topic, o)|
    ensures CanSend(k, o)
  {
    var steps :| NoRestart(steps) && Run(k, steps) == b;
  }

  lemma {:induction false} PublishingSends(k: Kitchen, gen: int, rank: nat) returns (b: Kitchen)
    requires At(k, gen, Publishing(rank))
    ensures Reaches(k, b) && |StatusesOf(b.topic, k.pipes[gen].order)| > |StatusesOf(k.topic, k.pipes[gen].order)|
  {
    var m := StatusMessage(k.pipes[gen].order, KitchenStatus(rank));
    StatusesOfAppend(k.topic, m, 1, m.order);
    ReachStep(k, Publish(gen, 1, true));
    b := Do(k, Publish(gen, 1, true));
  }

  lemma {:induction false} GoesToPublish(k: Kitchen, gen: int) returns (b: Kitchen, rank: nat)
    requires CanGoOn(k, gen)
    ensures Reaches(k, b) && At(b, gen, Publishing(rank)) && b.topic == k.topic
    ensures b.pipes[gen].order == k.pipes[gen].order
  {
    match k.pipes[gen].pc
    case Publishing(r) =>
      ReachSelf(k);
      b, rank := k, r;
    case Sleeping(r) =>
      ReachStep(k, Sleep(gen, true));
      b, rank := Do(k, Sleep(gen, true)), r + 1;
    case Starting =>
      ReachStep(k, CheckContext(gen));
      b, rank := Do(k, CheckContext(gen)), 1;
  }

  lemma {:induction false} GoingOnSends(k: Kitchen, gen: int)
    requires CanGoOn(k, gen)
    ensures CanSend(k, k.pipes[gen].order)
  {
    var b, rank := GoesToPublish(k, gen);
    var c := PublishingSends(b, gen, rank);
    ReachTrans(k, b, c);
    ReachedSend(k, c, k.pipes[gen].order);
  }

  lemma {:induction false} StartingSends(k: Kitchen, o: int)
    requires KitchenOk(k) && AboutToStart(k, o) && !k.shutdown && (k.orders.Storing? || k.orders.gen !in k.revoked)
    ensures CanSend(k, o)
  {
    var b, gen := DecidedStarts(k, o);
    GoingOnSends(b, gen);
    var steps :| NoRestart(steps) && |StatusesOf(Run(b, steps).topic, o)| > |StatusesOf(b.topic, o)|;
    assert Reaches(b, Run(b, steps));
    ReachTrans(k, b, Run(b, steps));
    ReachedSend(k, Run(b, steps), o);
  }

  lemma {:induction false} QuietTopic(k: Kitchen, step: Step, o: int)
    requires !WillGoOn(k, o)
    ensures StatusesOf(Do(k, step).topic, o) == StatusesOf(k.topic, o)
  {
    if step.Publish? && CanPublish(k, step.gen, step.copies, step.ok) {
      var p := k.pipes[step.gen];
      StatusesOfAppend(k.topic, StatusMessage(p.order, KitchenStatus(p.pc.rank)), step.copies, o);
      assert PipeOf(k, step.gen, p.order) && CanGoOn(k, step.gen);
    }
  }

  lemma {:induction false} QuietPoll(k: Kitchen, step: Step, o: int)
    requires KitchenOk(k) && o in k.noted && !WillGoOn(k, o) && !step.Restart? && !OfPipe(step)
    ensures o in DoPoll(k, step).noted && !WillGoOn(DoPoll(k, step), o)
  {
    var b := DoPoll(k, step);
    forall gen | PipeOf(b, gen, o) ensures !CanGoOn(b, gen) {
      assert PipeOf(k, gen, o) ==> !CanGoOn(k, gen);
    }
  }

  lemma {:induction false} QuietPipe(k: Kitchen, step: Step, o: int)
    requires KitchenOk(k) && o in k.noted && !WillGoOn(k, o) && OfPipe(step)
    ensures o in DoPipe(k, step).noted && !WillGoOn(DoPipe(k, step), o)
  {
    var b := DoPipe(k, step);
    forall gen | PipeOf(b, gen, o) ensures !CanGoOn(b, gen) {
      assert PipeOf(k, gen, o) && !CanGoOn(k, gen);
    }
  }

  lemma {:induction false} QuietStep(k: Kitchen, step: Step, o: int)
    requires KitchenOk(k) && o in k.noted && !WillGoOn(k, o) && !step.Restart?
    ensures o in Do(k, step).noted && !WillGoOn(Do(k, step), o)
    ensures StatusesOf(Do(k, step).topic, o) == StatusesOf(k.topic, o)
  {
    QuietTopic(k, step, o);
    if OfPipe(step) {
      QuietPipe(k, step, o);
    } else {
      QuietPoll(k, step, o);
    }
  }

  lemma {:induction false} QuietForEver(k: Kitchen, steps: seq<Step>, o: int)
    requires KitchenOk(k) && o in k.noted && !WillGoOn(k, o) && NoRestart(steps)
    ensures o in Run(k, steps).noted && !WillGoOn(Run(k, steps), o)
    ensures StatusesOf(Run(k, steps).topic, o) == StatusesOf(k.topic, o)
  {
    if steps != [] {
      var n := |steps| - 1;
      QuietForEver(k, steps[..n], o);
      RunKeeps(k, steps[..n]);
      QuietStep(Run(k, steps[..n]), steps[n], o);
    }
  }

  /*
   "A noted cancel keeps the order from being cooked" is not true of single map operations. A noted order
   can still be mentioned exactly when the poller is about to start it with a live context, or a pipeline
   of it is publishing, waiting, or has not yet looked at its live context.
   */
  lemma {:induction false} NotedCancelSilencesIff(k: Kitchen, o: int)
    requires KitchenOk(k) && o in k.noted
    ensures !CanSend(k, o) <==> !WillGoOn(k, o)
  {
    if gen :| PipeOf(k, gen, o) && CanGoOn(k, gen) {
      GoingOnSends(k, gen);
    } else if WillGoOn(k, o) {
      StartingSends(k, o);
    } else if CanSend(k, o) {
      var steps :| NoRestart(steps) && |StatusesOf(Run(k, steps).topic, o)| > |StatusesOf(k.topic, o)|;
      QuietForEver(k, steps, o);
    }
  }

  lemma {:induction false} CancelIsNoted(k: Kitchen, before: seq<Step>, o: int) returns (steps: seq<Step>)
    requires Run(k, before).cancels == Waiting && o !in Run(k, before).active
    ensures GoesOn(before + [ReadCancel(o)], steps) && (NoRestart(before) ==> NoRestart(steps))
    ensures Run(k, steps) == Run(k, before).(noted := Run(k, before).noted + {o})
  {
    steps := before;
    RunStep(k, steps, ReadCancel(o));
    steps := steps + [ReadCancel(o)];
    RunStep(k, steps, LookUpForCancel);
    steps := steps + [LookUpForCancel];
    RunStep(k, steps, NoteCancel);
    steps := steps + [NoteCancel];
  }

  // steps goes on from before without reading a message.
  ghost predicate GoesOn(before: seq<Step>, steps: seq<Step>) {
    before <= steps && forall i :: |before| <= i < |steps| ==> !steps[i].ReadOrder? && !steps[i].ReadCancel?
  }

  // The poller starts an order it has decided to start.
  lemma {:induction false} StartsNow(k: Kitchen, before: seq<Step>, o: int) returns (steps: seq<Step>)
    requires Run(k, before).orders == Storing(o)
    ensures GoesOn(before, steps) && (NoRestart(before) ==> NoRestart(steps))
    ensures var a := Run(k, before);
      Run(k, steps) == a.(active := a.active[o := a.nextGen], nextGen := a.nextGen + 1, wg := a.wg + 1,
                          pipes := a.pipes[a.nextGen := Pipeline(o, Starting)], orders := Reading)
  {
    steps := before;
    RunStep(k, steps, StoreActive);
    steps := steps + [StoreActive];
    RunStep(k, steps, AddOne);
    steps := steps + [AddOne];
    RunStep(k, steps, Spawn);
    steps := steps + [Spawn];
  }

  lemma {:induction false} StartsAllTheSame(k: Kitchen, before: seq<Step>, o: int) returns (steps: seq<Step>)
    requires Run(k, before).orders == Storing(o) && !Run(k, before).shutdown
    requires Run(k, before).nextGen !in Run(k, before).revoked
    ensures GoesOn(before, steps) && (NoRestart(before) ==> NoRestart(steps))
    ensures var a, b := Run(k, before), Run(k, steps);
      && At(b, a.nextGen, Publishing(1)) && b.pipes[a.nextGen].order == o
      && b.topic == a.topic && b.noted == a.noted
  {
    var gen := Run(k, before).nextGen;
    steps := StartsNow(k, before, o);
    RunStep(k, steps, CheckContext(gen));
    steps := steps + [CheckContext(gen)];
  }

  lemma {:induction false} CooksOn(k: Kitchen, before: seq<Step>, gen: int) returns (steps: seq<Step>)
    requires At(Run(k, before), gen, Publishing(1))
    ensures NoRestart(before) ==> NoRestart(steps)
    ensures var a, b := Run(k, before), Run(k, steps);
      && b.noted == a.noted
      && b.topic == a.topic + [StatusMessage(a.pipes[gen].order, Accepted)] + [StatusMessage(a.pipes[gen].order, Cooking)]
  {
    steps := before;
    var o := Run(k, before).pipes[gen].order;
    assert Repeat(StatusMessage(o, Accepted), 1) == [StatusMessage(o, Accepted)];
    assert Repeat(StatusMessage(o, Cooking), 1) == [StatusMessage(o, Cooking)];
    RunStep(k, steps, Publish(gen, 1, true));
    steps := steps + [Publish(gen, 1, true)];
    RunStep(k, steps, Sleep(gen, true));
    steps := steps + [Sleep(gen, true)];
    RunStep(k, steps, Publish(gen, 1, true));
    steps := steps + [Publish(gen, 1, true)];
  }

  lemma {:induction false} CancelIsCalled(k: Kitchen, before: seq<Step>, o: int) returns (steps: seq<Step>)
    requires Run(k, before).cancels == Waiting && o in Run(k, before).active
    ensures NoRestart(before) ==> NoRestart(steps)
    ensures var a := Run(k, before); Run(k, steps) == a.(revoked := a.revoked + {a.active[o]})
  {
    steps := before;
    RunStep(k, steps, ReadCancel(o));
    steps := steps + [ReadCancel(o)];
    RunStep(k, steps, LookUpForCancel);
    steps := steps + [LookUpForCancel];
    RunStep(k, steps, CallCancel);
    steps := steps + [CallCancel];
  }

  /* A run from the start: the cancel finds order 7 in progress and is handled, and 7 can be started again. */
  lemma {:induction false} RevokedOrderCanStart() returns (steps: seq<Step>)
    ensures NoRestart(steps)
    ensures var k := Run(Started(0, []), steps);
      k.cancels == Waiting && PipeOf(k, 0, 7) && 0 in k.revoked && CanStart(k, 7)
  {
    var k := Started(0, []);
    ChecksRun(k, 7);
    steps := [ReadOrder(7)] + [LookUpActive] + [LookUpNoted];
    steps := StartsNow(k, steps, 7);
    steps := CancelIsCalled(k, steps, 7);
    KitchenRuns.InitiallyOk(0);
    RunKeeps(k, steps);
    CanStartIff(Run(k, steps), 7);
  }

  // The first look at the context, and accepted is sent.
  lemma {:induction false} AcceptsNow(k: Kitchen, before: seq<Step>, gen: int) returns (steps: seq<Step>)
    requires At(Run(k, before), gen, Starting) && !ContextOver(Run(k, before), gen)
    ensures before <= steps && (NoRestart(before) ==> NoRestart(steps))
    ensures var a, b := Run(k, before), Run(k, steps);
      b.noted == a.noted && b.cancels == a.cancels && b.topic == a.topic + [StatusMessage(a.pipes[gen].order, Accepted)]
  {
    steps := before;
    RunStep(k, steps, CheckContext(gen));
    steps := steps + [CheckContext(gen)];
    RunStep(k, steps, Publish(gen, 1, true));
    steps := steps + [Publish(gen, 1, true)];
    var m := StatusMessage(Run(k, before).pipes[gen].order, Accepted);
    assert Repeat(m, 1) == [m];
  }

  // The lookup of the cancel, then that of the order poller, then the note.
  lemma {:induction false} LookupsCross(k: Kitchen, before: seq<Step>, o: int) returns (steps: seq<Step>)
    requires var a := Run(k, before);
      a.orders == CheckingCancelled(o) && a.cancels == LookingUp(o) && o !in a.active && o !in a.noted
    ensures NoRestart(before) ==> NoRestart(steps)
    ensures before <= steps
    ensures var a := Run(k, before); Run(k, steps) == a.(orders := Storing(o), cancels := Waiting, noted := a.noted + {o})
  {
    steps := before;
    RunStep(k, steps, LookUpForCancel);
    steps := steps + [LookUpForCancel];
    RunStep(k, steps, LookUpNoted);
    steps := steps + [LookUpNoted];
    RunStep(k, steps, NoteCancel);
    steps := steps + [NoteCancel];
  }

  lemma {:induction false} BothLook(k: Kitchen, o: int) returns (steps: seq<Step>)
    requires k.orders == Reading && k.cancels == Waiting && o !in k.active
    ensures NoRestart(steps) && Run(k, steps) == k.(orders := CheckingCancelled(o), cancels := LookingUp(o))
  {
    RunTwo(k, ReadOrder(o), LookUpActive);
    steps := [ReadOrder(o)] + [LookUpActive];
    RunStep(k, steps, ReadCancel(o));
    steps := steps + [ReadCancel(o)];
  }

  /*
   Another: when the cancel of order 7 is looked up nobody has decided to start 7, yet the poller does so before
   the cancel is noted, and 7 is accepted after it was noted.
   */
  lemma {:induction false} OvertakenCancel() returns (before: seq<Step>, steps: seq<Step>)
    ensures NoRestart(steps) && before <= steps
    ensures var k := Run(Started(0, []), before); k.cancels == LookingUp(7) && !AboutToStart(k, 7) && 7 !in k.active
    ensures var k := Run(Started(0, []), steps);
      k.cancels == Waiting && 7 in k.noted && k.topic == [StatusMessage(7, Accepted)]
  {
    var k := Started(0, []);
    before := BothLook(k, 7);
    steps := LookupsCross(k, before, 7);
    steps := StartsNow(k, steps, 7);
    steps := AcceptsNow(k, steps, 0);
  }

  /* The race, in a run from the start: the cancel of order 7 is noted, and 7 is accepted and cooked all the same. */
  lemma {:induction false} CancelledOrderCooks() returns (steps: seq<Step>)
    ensures var k := Run(Started(0, []), steps);
      7 in k.noted && k.topic == [StatusMessage(7, Accepted), StatusMessage(7, Cooking)]
    ensures NoRestart(steps)
  {
    var k := Started(0, []);
    ChecksRun(k, 7);
    steps := [ReadOrder(7)] + [LookUpActive] + [LookUpNoted];
    steps := CancelIsNoted(k, steps, 7);
    steps := StartsAllTheSame(k, steps, 7);
    steps := CooksOn(k, steps, 0);
  }

  /******* A cancel that finds the order in progress *******/

  // The context was cancelled before the pipeline got past its first look at it.
  ghost predicate Doomed(k: Kitchen, gen: int) {
    && gen in k.revoked && gen < k.nextGen
    && (gen in k.pipes ==> !k.pipes[gen].pc.Publishing? && !k.pipes[gen].pc.Sleeping?)
  }

  lemma {:induction false} DoomedStep(k: Kitchen, step: Step, gen: int)
    requires ActiveOk(k) && Doomed(k, gen) && !step.Restart?
    ensures Doomed(Do(k, step), gen)
  {}

  /* A pipeline whose context is cancelled before it looks never sends anything. */
  lemma {:induction false} DoomedSendsNothing(k: Kitchen, steps: seq<Step>, gen: int)
    requires KitchenOk(k) && Doomed(k, gen) && NoRestart(steps)
    ensures Doomed(Run(k, steps), gen)
    ensures forall copies, ok :: !CanPublish(Run(k, steps), gen, copies, ok)
  {
    if steps != [] {
      var n := |steps| - 1;
      DoomedSendsNothing(k, steps[..n], gen);
      RunKeeps(k, steps[..n]);
      DoomedStep(Run(k, steps[..n]), steps[n], gen);
    }
  }
}
