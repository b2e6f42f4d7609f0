/**
 Runs of the restaurant's service: which orders are in progress, what the WaitGroup counts, what one
 order can see on the status topic, and what a cancel that comes first prevents.
 */
module KitchenRuns {
  import opened Common
  import opened Statuses
  import opened StatusTopic
  import opened Kitchen

  /******* One live pipeline per active order *******/

  // A pipeline that has not yet deleted its entry.
  predicate Live(pc: Pc) {
    !pc.Releasing? && !pc.Leaving?
  }

  // Generation gen works on order o: a live pipeline, or one that the poller is about to start.
  ghost predicate WorksOn(k: Kitchen, gen: int, o: int) {
    || (gen in k.pipes && k.pipes[gen].order == o && Live(k.pipes[gen].pc))
    || ((k.orders.Adding? || k.orders.Spawning?) && k.orders.order == o && k.orders.gen == gen)
  }

  ghost predicate ActiveOk(k: Kitchen) {
    && (forall o :: o in k.active ==> WorksOn(k, k.active[o], o))
    && (forall gen, o :: WorksOn(k, gen, o) ==> o in k.active && k.active[o] == gen)
    && (forall gen :: gen in k.pipes ==> gen < k.nextGen)
    && (k.orders.Adding? || k.orders.Spawning? ==> k.orders.gen < k.nextGen && k.orders.gen !in k.pipes)
    && (k.orders.CheckingCancelled? || k.orders.Storing? ==> k.orders.order !in k.active)
  }

  lemma {:induction false} ActiveStore(k: Kitchen)
    requires ActiveOk(k)
    ensures ActiveOk(DoStoreActive(k))
  {
    var b := DoStoreActive(k);
    forall gen, o | WorksOn(b, gen, o) ensures o in b.active && b.active[o] == gen {
      assert WorksOn(k, gen, o) || (k.orders.Storing? && gen == k.nextGen);
    }
    forall o | o in b.active ensures WorksOn(b, b.active[o], o) {
      if o in k.active {
        assert WorksOn(k, k.active[o], o);
      }
    }
  }

  lemma {:induction false} ActiveSpawn(k: Kitchen)
    requires ActiveOk(k)
    ensures ActiveOk(DoSpawn(k))
  {
    var b := DoSpawn(k);
    forall gen, o ensures WorksOn(b, gen, o) <==> WorksOn(k, gen, o) {}
  }

  lemma {:induction false} ActivePoll(k: Kitchen, step: Step)
    requires ActiveOk(k) && !OfPipe(step)
    ensures ActiveOk(DoPoll(k, step))
  {
    if step.StoreActive? {
      ActiveStore(k);
    } else if step.Spawn? {
      ActiveSpawn(k);
    } else if !step.Restart? {
      forall gen, o ensures WorksOn(DoPoll(k, step), gen, o) <==> WorksOn(k, gen, o) {}
    }
  }

  lemma {:induction false} ActivePipe(k: Kitchen, step: Step)
    requires ActiveOk(k) && OfPipe(step)
    ensures ActiveOk(DoPipe(k, step))
  {
    var b := DoPipe(k, step);
    if step.gen in k.pipes && k.pipes[step.gen].pc.Deleting? {
      assert WorksOn(k, step.gen, k.pipes[step.gen].order);
    }
    forall gen, o | WorksOn(b, gen, o) ensures o in b.active && b.active[o] == gen {
      assert WorksOn(k, gen, o);
    }
    forall o | o in b.active ensures WorksOn(b, b.active[o], o) {
      assert WorksOn(k, k.active[o], o);
    }
  }

  /******* Contexts *******/

  // A pipeline that ends releases its own context; contexts that do not exist yet are not cancelled;
  // the pollers stop only when the process shuts down.
  ghost predicate ContextsOk(k: Kitchen) {
    && (forall g :: g in k.revoked ==> g < k.nextGen)
    && (k.cancels.Calling? ==> k.cancels.gen < k.nextGen)
    && (forall g :: g in k.pipes ==>
          && (k.pipes[g].pc.Deleting? ==> k.pipes[g].pc.found == g)
          && (k.pipes[g].pc.Releasing? ==> k.pipes[g].pc.found == g))
    && (k.orders.Finishing? || k.orders.Finished? || k.cancels.Stopping? || k.cancels.Stopped? ==> k.shutdown)
  }

  lemma {:induction false} ActiveIsOld(k: Kitchen, o: int)
    requires ActiveOk(k) && o in k.active
    ensures k.active[o] < k.nextGen
  {
    assert WorksOn(k, k.active[o], o);
  }

  lemma {:induction false} ContextsPoll(k: Kitchen, step: Step)
    requires ContextsOk(k) && ActiveOk(k) && !OfPipe(step)
    ensures ContextsOk(DoPoll(k, step))
  {
    if step.LookUpForCancel? && k.cancels.LookingUp? && k.cancels.order in k.active {
      ActiveIsOld(k, k.cancels.order);
    }
  }

  lemma {:induction false} ContextsPipe(k: Kitchen, step: Step)
    requires ContextsOk(k) && ActiveOk(k) && OfPipe(step)
    ensures ContextsOk(DoPipe(k, step))
  {
    if At(k, step.gen, Loading) {
      assert WorksOn(k, step.gen, k.pipes[step.gen].order);
    }
  }

  /******* The WaitGroup *******/

  function LivePollers(k: Kitchen): nat {
    (if k.orders.Finished? then 0 else 1) + (if k.cancels.Stopped? then 0 else 1)
  }

  // Live pollers, live pipelines, and the one that was counted just before its go statement.
  ghost predicate WgOk(k: Kitchen) {
    k.wg == LivePollers(k) + |k.pipes| + if k.orders.Spawning? then 1 else 0
  }

  lemma {:induction false} OneLess(pipes: map<int, Pipeline>, gen: int)
    requires gen in pipes
    ensures |pipes - {gen}| == |pipes| - 1
  {
    assert (pipes - {gen}).Keys == pipes.Keys - {gen};
    assert |(pipes - {gen}).Keys| == |pipes.Keys| - 1;
  }

  lemma {:induction false} WgPoll(k: Kitchen, step: Step)
    requires WgOk(k) && ActiveOk(k) && !OfPipe(step)
    ensures WgOk(DoPoll(k, step))
  {}

  lemma {:induction false} WgPipe(k: Kitchen, step: Step)
    requires WgOk(k) && OfPipe(step)
    ensures WgOk(DoPipe(k, step))
  {
    if step.PipeDone? && At(k, step.gen, Leaving) {
      OneLess(k.pipes, step.gen);
    }
  }

  /******* The status topic *******/

  // What a pipeline has sent so far is the last thing on the topic about its order.
  ghost predicate Progressed(topic: seq<StatusMessage>, p: Pipeline) {
    match p.pc
    case Publishing(rank) => 1 <= rank <= LAST && (rank > 1 ==> Last(StatusesOf(topic, p.order)) == KitchenStatus(rank - 1))
    case Sleeping(rank) => 1 <= rank < LAST && Last(StatusesOf(topic, p.order)) == KitchenStatus(rank)
    case _ => true
  }

  ghost predicate TopicOk(k: Kitchen) {
    && (forall o :: Chained(StatusesOf(k.topic, o)))
    && (forall gen :: gen in k.pipes ==> Progressed(k.topic, k.pipes[gen]))
  }

  lemma {:induction false} TopicPoll(k: Kitchen, step: Step)
    requires TopicOk(k) && !OfPipe(step)
    ensures TopicOk(DoPoll(k, step))
  {}

  lemma {:induction false} SentFollows(topic: seq<StatusMessage>, p: Pipeline)
    requires p.pc.Publishing? && Progressed(topic, p)
    ensures Follows(Last(StatusesOf(topic, p.order)), KitchenStatus(p.pc.rank))
  {}

  lemma {:induction false} PublishChains(topic: seq<StatusMessage>, p: Pipeline, copies: nat, o: int)
    requires p.pc.Publishing? && Progressed(topic, p) && Chained(StatusesOf(topic, o))
    requires o == p.order ==> Follows(Last(StatusesOf(topic, o)), KitchenStatus(p.pc.rank))
    ensures var after := StatusesOf(topic + Repeat(StatusMessage(p.order, KitchenStatus(p.pc.rank)), copies), o);
      && Chained(after)
      && (o != p.order ==> after == StatusesOf(topic, o))
      && (o == p.order && copies > 0 ==> Last(after) == KitchenStatus(p.pc.rank))
  {
    StatusesOfAppend(topic, StatusMessage(p.order, KitchenStatus(p.pc.rank)), copies, o);
    if o == p.order {
      ChainedAppend(StatusesOf(topic, o), KitchenStatus(p.pc.rank), copies);
    } else {
      assert StatusesOf(topic, o) + [] == StatusesOf(topic, o);
    }
  }

  // Nobody else who still works has the order of gen.
  lemma {:induction false} OtherOrders(k: Kitchen, gen: int, g: int)
    requires ActiveOk(k) && gen in k.pipes && Live(k.pipes[gen].pc)
    requires g in k.pipes && g != gen && Live(k.pipes[g].pc)
    ensures k.pipes[g].order != k.pipes[gen].order
  {
    assert WorksOn(k, gen, k.pipes[gen].order) && WorksOn(k, g, k.pipes[g].order);
  }

  lemma {:induction false} PublishedProgresses(k: Kitchen, gen: int, copies: nat, ok: bool, g: int)
    requires TopicOk(k) && ActiveOk(k) && CanPublish(k, gen, copies, ok) && g in k.pipes
    ensures var b := Published(k, gen, copies, ok); Progressed(b.topic, b.pipes[g])
  {
    var p := k.pipes[gen];
    assert Progressed(k.topic, p) && Progressed(k.topic, k.pipes[g]);
    SentFollows(k.topic, p);
    PublishChains(k.topic, p, copies, k.pipes[g].order);
    if g != gen && Live(k.pipes[g].pc) {
      OtherOrders(k, gen, g);
    }
  }

  lemma {:induction false} PublishedChained(k: Kitchen, gen: int, copies: nat, ok: bool, o: int)
    requires TopicOk(k) && CanPublish(k, gen, copies, ok)
    ensures Chained(StatusesOf(Published(k, gen, copies, ok).topic, o))
  {
    assert Progressed(k.topic, k.pipes[gen]);
    SentFollows(k.topic, k.pipes[gen]);
    PublishChains(k.topic, k.pipes[gen], copies, o);
  }

  lemma {:induction false} TopicPublish(k: Kitchen, gen: int, copies: nat, ok: bool)
    requires TopicOk(k) && ActiveOk(k) && CanPublish(k, gen, copies, ok)
    ensures TopicOk(Published(k, gen, copies, ok))
  {
    var b := Published(k, gen, copies, ok);
    forall o ensures Chained(StatusesOf(b.topic, o)) {
      PublishedChained(k, gen, copies, ok, o);
    }
    forall g | g in b.pipes ensures Progressed(b.topic, b.pipes[g]) {
      PublishedProgresses(k, gen, copies, ok, g);
    }
  }

  lemma {:induction false} TopicPipe(k: Kitchen, step: Step)
    requires TopicOk(k) && ActiveOk(k) && OfPipe(step)
    ensures TopicOk(DoPipe(k, step))
  {
    if step.Publish? && CanPublish(k, step.gen, step.copies, step.ok) {
      TopicPublish(k, step.gen, step.copies, step.ok);
    }
  }

  /******* All runs *******/

  ghost predicate KitchenOk(k: Kitchen) {
    ActiveOk(k) && ContextsOk(k) && WgOk(k) && TopicOk(k)
  }

  lemma {:induction false} InitiallyOk(nextGen: int)
    ensures KitchenOk(Started(nextGen, []))
  {
    forall o ensures Chained(StatusesOf([], o)) {}
  }

  lemma {:induction false} StepKeeps(k: Kitchen, step: Step)
    requires KitchenOk(k)
    ensures KitchenOk(Do(k, step))
  {
    if OfPipe(step) {
      ActivePipe(k, step);
      ContextsPipe(k, step);
      WgPipe(k, step);
      TopicPipe(k, step);
    } else {
      ActivePoll(k, step);
      ContextsPoll(k, step);
      WgPoll(k, step);
      TopicPoll(k, step);
    }
  }

  lemma {:induction false} RunKeeps(k: Kitchen, steps: seq<Step>)
    requires KitchenOk(k)
    ensures KitchenOk(Run(k, steps))
  {
    if steps != [] {
      RunKeeps(k, steps[..|steps| - 1]);
      StepKeeps(Run(k, steps[..|steps| - 1]), steps[|steps| - 1]);
    }
  }

  /*
   In every reachable state the keys of activeOrders are exactly the orders somebody works on, nobody
   shares an order, and the topic shows each order a concatenation of prefixes of accepted, cooking,
   ready, completed.
   */
  lemma {:induction false} ReachableKitchen(nextGen: int, steps: seq<Step>, o: int)
    ensures var k := Run(Started(nextGen, []), steps);
      && (o in k.active <==> exists gen :: WorksOn(k, gen, o))
      && (forall g, h :: WorksOn(k, g, o) && WorksOn(k, h, o) ==> g == h)
      && (exists pieces :: PrefixesJoined(StatusesOf(k.topic, o), pieces))
      && k.wg == LivePollers(k) + |k.pipes| + if k.orders.Spawning? then 1 else 0
  {
    InitiallyOk(nextGen);
    RunKeeps(Started(nextGen, []), steps);
    var k := Run(Started(nextGen, []), steps);
    if o in k.active {
      assert WorksOn(k, k.active[o], o);
    }
    ChainedMeansPrefixes(StatusesOf(k.topic, o));
  }

  /* The deferred lookup of a pipeline always finds its own entry, so it always deletes and releases it. */
  lemma {:induction false} DeferredLookupFinds(k: Kitchen, gen: int)
    requires KitchenOk(k) && At(k, gen, Loading)
    ensures var o := k.pipes[gen].order; o in k.active && k.active[o] == gen
    ensures At(DoLoadOwn(k, gen), gen, Deleting(gen))
  {
    assert WorksOn(k, gen, k.pipes[gen].order);
  }

  /* The counter is never zero when it is incremented. */
  lemma {:induction false} AddIsNeverAtZero(k: Kitchen, step: Step)
    requires KitchenOk(k) && !step.Restart? && Do(k, step).wg > k.wg
    ensures k.wg >= 1 && Do(k, step).wg == k.wg + 1
  {}

  ghost predicate NoRestart(steps: seq<Step>) {
    forall i :: 0 <= i < |steps| ==> !steps[i].Restart?
  }

  predicate Deserted(k: Kitchen) {
    k.pipes == map[] && k.orders.Finished? && k.cancels.Stopped?
  }

  lemma {:induction false} NobodyLeft(k: Kitchen)
    requires KitchenOk(k)
    ensures k.wg == 0 <==> Deserted(k)
  {
    if k.wg == 0 {
      assert |k.pipes| == 0;
    }
  }

  lemma {:induction false} DesertedStep(k: Kitchen, step: Step)
    requires Deserted(k) && !step.Restart?
    ensures Deserted(Do(k, step)) && Do(k, step).topic == k.topic && Do(k, step).wg == k.wg && Do(k, step).active == k.active
  {}

  /* Once the counter is zero, nothing moves and nothing is ever sent again. */
  lemma {:induction false} SilenceAfterWait(k: Kitchen, steps: seq<Step>)
    requires KitchenOk(k) && k.wg == 0 && NoRestart(steps)
    ensures Deserted(Run(k, steps))
    ensures Run(k, steps).topic == k.topic && Run(k, steps).wg == 0 && Run(k, steps).active == k.active
  {
    if steps == [] {
      NobodyLeft(k);
    } else {
      var n := |steps| - 1;
      SilenceAfterWait(k, steps[..n]);
      DesertedStep(Run(k, steps[..n]), steps[n]);
    }
  }

  /******* Building runs *******/

  lemma {:induction false} RunStep(k: Kitchen, steps: seq<Step>, step: Step)
    ensures Run(k, steps + [step]) == Do(Run(k, steps), step)
  {
    assert (steps + [step])[..|steps|] == steps;
  }

  lemma {:induction false} RunTwo(k: Kitchen, x: Step, y: Step)
    ensures Run(k, [x]) == Do(k, x)
    ensures Run(k, [x] + [y]) == Do(Do(k, x), y)
  {
    assert [] + [x] == [x];
    RunStep(k, [], x);
    RunStep(k, [x], y);
  }

  // The poller looks a new order up in both maps.
  lemma {:induction false} ChecksRun(k: Kitchen, order: int)
    requires k.orders == Reading
    ensures Run(k, [ReadOrder(order)] + [LookUpActive] + [LookUpNoted]) ==
            if order in k.active || order in k.noted then k else k.(orders := Storing(order))
  {
    RunTwo(k, ReadOrder(order), LookUpActive);
    RunStep(k, [ReadOrder(order)] + [LookUpActive], LookUpNoted);
    var k1 := Do(k, ReadOrder(order));
    assert k1 == k.(orders := CheckingActive(order));
    var k2 := Do(k1, LookUpActive);
    assert k2 == if order in k.active then k else k.(orders := CheckingCancelled(order));
  }

  lemma {:induction false} RunsJoin(k: Kitchen, a: seq<Step>, b: seq<Step>)
    ensures Run(k, a + b) == Run(Run(k, a), b)
  {
    if b == [] {
      assert a + b == a;
    } else {
      var n := |b| - 1;
      RunsJoin(k, a, b[..n]);
      assert (a + b)[..|a| + n] == a + b[..n];
    }
  }
}
