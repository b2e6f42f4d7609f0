/**
 The restaurant's service as the program it is, one goroutine at a time, over the shared maps: the body of each
 poll loop, undisturbed, and processOrder with everything the others do between its statements. Each takes exactly
 the steps that the step system of Kitchen interleaves.
 */
module Restaurant {
  import opened Common
  import opened Statuses
  import opened StatusTopic
  import opened Kitchen
  import opened KitchenRuns
  import opened Pipelines

  // One message through the body of pollKafkaOrders; steps after a continue do nothing.
  function CreatedSteps(order: int): seq<Step> {
    [ReadOrder(order)] + [LookUpActive] + [LookUpNoted] + [StoreActive] + [AddOne] + [Spawn]
  }

  // One message through the body of pollKafkaCancelledOrders.
  function CancelSteps(order: int): seq<Step> {
    [ReadCancel(order)] + [LookUpForCancel] + [CallCancel] + [NoteCancel]
  }

  // What one created message amounts to.
  function Handled(k: Kitchen, order: int): Kitchen {
    if order in k.active || order in k.noted then k
    else
      k.(active := k.active[order := k.nextGen], nextGen := k.nextGen + 1, wg := k.wg + 1,
         pipes := k.pipes[k.nextGen := Pipeline(order, Starting)])
  }

  lemma {:induction false} StartRuns(k: Kitchen, before: seq<Step>)
    ensures var a, b := Run(k, before), Run(k, before + [StoreActive] + [AddOne] + [Spawn]);
      && (a.orders == Reading ==> b == a)
      && (a.orders.Storing? ==>
            b == a.(orders := Reading, active := a.active[a.orders.order := a.nextGen], nextGen := a.nextGen + 1,
                    wg := a.wg + 1, pipes := a.pipes[a.nextGen := Pipeline(a.orders.order, Starting)]))
  {
    var a := Run(k, before);
    var b := Do(a, StoreActive);
    var c := Do(b, AddOne);
    RunStep(k, before, StoreActive);
    RunStep(k, before + [StoreActive], AddOne);
    RunStep(k, before + [StoreActive] + [AddOne], Spawn);
    if a.orders.Storing? {
      assert b.orders == Adding(a.orders.order, a.nextGen);
      assert c.orders == Spawning(a.orders.order, a.nextGen);
    }
  }

  lemma {:induction false} CreatedRuns(k: Kitchen, order: int)
    requires k.orders == Reading
    ensures Run(k, CreatedSteps(order)) == Handled(k, order)
  {
    ChecksRun(k, order);
    StartRuns(k, [ReadOrder(order)] + [LookUpActive] + [LookUpNoted]);
  }

  // What one cancel message amounts to.
  function Revoked(k: Kitchen, order: int): Kitchen {
    if order in k.active then k.(revoked := k.revoked + {k.active[order]}) else k.(noted := k.noted + {order})
  }

  lemma {:induction false} CancelRuns(k: Kitchen, order: int)
    requires k.cancels == Waiting
    ensures Run(k, CancelSteps(order)) == Revoked(k, order)
  {
    var s := [ReadCancel(order)] + [LookUpForCancel];
    RunTwo(k, ReadCancel(order), LookUpForCancel);
    RunStep(k, s, CallCancel);
    RunStep(k, s + [CallCancel], NoteCancel);
    var k1 := Do(k, ReadCancel(order));
    assert k1 == k.(cancels := LookingUp(order));
    var k2 := Do(k1, LookUpForCancel);
    assert k2 == k.(cancels := if order in k.active then Calling(k.active[order]) else Noting(order));
    var k3 := Do(k2, CallCancel);
    assert k3 == if order in k.active then Revoked(k, order) else k2;
  }

  function DeferredSteps(gen: int): seq<Step> {
    [LoadOwn(gen)] + [DeleteOwn(gen)] + [ReleaseOwn(gen)] + [PipeDone(gen)]
  }

  function Gone(k: Kitchen, gen: int): Kitchen
    requires gen in k.pipes
  {
    var o := k.pipes[gen].order;
    var left := k.(pipes := k.pipes - {gen}, wg := k.wg - 1);
    if o in k.active then left.(active := k.active - {o}, revoked := k.revoked + {k.active[o]}) else left
  }

  lemma {:induction false} DeferredRuns(k: Kitchen, gen: int)
    requires At(k, gen, Loading)
    ensures Run(k, DeferredSteps(gen)) == Gone(k, gen)
  {
    var s, o := [LoadOwn(gen)] + [DeleteOwn(gen)], k.pipes[gen].order;
    RunTwo(k, LoadOwn(gen), DeleteOwn(gen));
    RunStep(k, s, ReleaseOwn(gen));
    RunStep(k, s + [ReleaseOwn(gen)], PipeDone(gen));
    var k1 := Do(k, LoadOwn(gen));
    assert k1 == MovePipe(k, gen, if o in k.active then Deleting(k.active[o]) else Leaving);
    var k2 := Do(k1, DeleteOwn(gen));
    var k3 := Do(k2, ReleaseOwn(gen));
    assert At(k3, gen, Leaving) && k3.pipes - {gen} == k.pipes - {gen};
  }

  lemma {:induction false} SleepIs(gen: int, rank: nat, over: bool, c: Conditions, slept: bool)
    requires Shaped(c) && 1 <= rank < LAST && (slept <==> c.elapsed[rank - 1] || !over)
    ensures Statement(Sleeping(rank), gen, over, c) == Sleep(gen, slept)
  {}

  // Nobody interferes with the deferred calls.
  predicate Quiet(c: Conditions)
    requires Shaped(c)
  {
    c.others[8] == [] && c.others[9] == [] && c.others[10] == [] && c.others[11] == []
  }

  lemma {:induction false} QuietTurn(a: Kitchen, gen: int, c: Conditions)
    requires Shaped(c) && Running(a, gen) && c.others[Number(a.pipes[gen].pc)] == []
    ensures Next(a, gen, c) == Do(a, Statement(a.pipes[gen].pc, gen, ContextOver(a, gen), c))
  {}

  lemma {:induction false} QuietTurns(a: Kitchen, gen: int, c: Conditions)
    requires KitchenOk(a) && At(a, gen, Loading) && Shaped(c) && Quiet(c)
    ensures Next(Next(Next(Next(a, gen, c), gen, c), gen, c), gen, c) == Run(a, DeferredSteps(gen))
  {
    var s := [LoadOwn(gen)] + [DeleteOwn(gen)];
    DeferredLookupFinds(a, gen);
    QuietTurn(a, gen, c);
    var a1 := Do(a, LoadOwn(gen));
    QuietTurn(a1, gen, c);
    var a2 := Do(a1, DeleteOwn(gen));
    QuietTurn(a2, gen, c);
    var a3 := Do(a2, ReleaseOwn(gen));
    QuietTurn(a3, gen, c);
    RunTwo(a, LoadOwn(gen), DeleteOwn(gen));
    RunStep(a, s, ReleaseOwn(gen));
    RunStep(a, s + [ReleaseOwn(gen)], PipeDone(gen));
  }

  lemma {:induction false} QuietDeferred(k: Kitchen, gen: int, c: Conditions, n: nat)
    requires Shaped(c) && Quiet(c) && KitchenOk(After(k, gen, c, n)) && At(After(k, gen, c, n), gen, Loading)
    ensures After(k, gen, c, n + 4) == Gone(After(k, gen, c, n), gen)
  {
    var a := After(k, gen, c, n);
    QuietTurns(a, gen, c);
    DeferredRuns(a, gen);
    OneTurn(k, gen, c, n, n + 1);
    OneTurn(k, gen, c, n + 1, n + 2);
    OneTurn(k, gen, c, n + 2, n + 3);
    OneTurn(k, gen, c, n + 3, n + 4);
  }

  class Process {
    var active: map<int, int>
    var noted: set<int>
    var pipes: map<int, Pipeline>
    var revoked: set<int>
    // Where the two pollers stand.
    var orders: OrderPoller
    var cancels: CancelPoller
    var wg: int
    var shutdown: bool
    var nextGen: int
    var topic: seq<StatusMessage>

    function State(): Kitchen
      reads this
    {
      Kitchen(active, noted, pipes, revoked, orders, cancels, wg, shutdown, nextGen, topic)
    }

    constructor ()
      ensures State() == Started(0, [])
    {
      active, noted, pipes, revoked := map[], {}, map[], {};
      orders, cancels := Reading, Waiting;
      wg, shutdown, nextGen, topic := 2, false, 0, [];
    }

    method HandleCreated(order: int)
      requires orders == Reading
      modifies this
      ensures State() == Run(old(State()), CreatedSteps(order))
      ensures orders == Reading
    {
      CreatedRuns(State(), order);
      if order in active { return; }
      if order in noted { return; }
      var gen := nextGen;
      nextGen := gen + 1;
      active := active[order := gen];
      wg := wg + 1;
      pipes := pipes[gen := Pipeline(order, Starting)];
    }

    method HandleCancelled(order: int)
      requires cancels == Waiting
      modifies this`revoked, this`noted
      ensures State() == Run(old(State()), CancelSteps(order))
    {
      CancelRuns(State(), order);
      if order in active {
        revoked := revoked + {active[order]};
        return;
      }
      noted := noted + {order};
    }

    // Everybody else, between two statements of a pipeline.
    method Others(steps: seq<Step>)
      modifies this
      ensures State() == Run(old(State()), steps)
    {
      var k := Run(State(), steps);
      active, noted, pipes, revoked := k.active, k.noted, k.pipes, k.revoked;
      orders, cancels := k.orders, k.cancels;
      wg, shutdown, nextGen, topic := k.wg, k.shutdown, k.nextGen, k.topic;
    }

    /*** The statements of processOrder ***/

    // The first look at the context.
    method CheckContext(gen: int) returns (over: bool)
      requires At(State(), gen, Starting)
      modifies this`pipes
      ensures over == old(ContextOver(State(), gen)) && State() == Do(old(State()), Step.CheckContext(gen))
      ensures At(State(), gen, if over then Loading else Publishing(1))
    {
      over := gen in revoked || shutdown;
      pipes := pipes[gen := pipes[gen].(pc := if over then Loading else Publishing(1))];
    }

    // sendOrderStatusUpdate.
    method Send(gen: int, rank: nat, sending: Sending) returns (ok: bool)
      requires At(State(), gen, Publishing(rank)) && Possible(sending)
      modifies this`pipes, this`topic
      ensures ok == sending.ok && State() == Do(old(State()), Publish(gen, sending.copies, sending.ok))
      ensures At(State(), gen, AfterPublish(rank, ok))
    {
      topic := topic + Repeat(StatusMessage(pipes[gen].order, KitchenStatus(rank)), sending.copies);
      ok := sending.ok;
      pipes := pipes[gen := pipes[gen].(pc := AfterPublish(rank, ok))];
    }

    // sleepContext; elapsed says which case its select takes when both are ready.
    method SleepContext(gen: int, rank: nat, elapsed: bool) returns (slept: bool)
      requires At(State(), gen, Sleeping(rank))
      modifies this`pipes
      ensures slept <==> elapsed || !old(ContextOver(State(), gen))
      ensures State() == Do(old(State()), Sleep(gen, slept))
      ensures At(State(), gen, if slept then Publishing(rank + 1) else Loading)
    {
      slept := elapsed || !(gen in revoked || shutdown);
      pipes := pipes[gen := pipes[gen].(pc := if slept then Publishing(rank + 1) else Loading)];
    }

    // activeOrders.Load in the deferred function.
    method Load(gen: int) returns (found: Option<int>)
      requires At(State(), gen, Loading)
      modifies this`pipes
      ensures found == if old(pipes[gen].order) in active then Some(active[old(pipes[gen].order)]) else None
      ensures State() == Do(old(State()), LoadOwn(gen))
      ensures At(State(), gen, if found.Some? then Deleting(found.value) else Leaving)
    {
      var order := pipes[gen].order;
      found := if order in active then Some(active[order]) else None;
      pipes := pipes[gen := pipes[gen].(pc := if order in active then Deleting(active[order]) else Leaving)];
    }

    method Delete(gen: int, cancel: int)
      requires At(State(), gen, Deleting(cancel))
      modifies this`pipes, this`active
      ensures State() == Do(old(State()), DeleteOwn(gen)) && old(pipes[gen].order) !in active
      ensures At(State(), gen, Releasing(cancel)) && pipes[gen].order == old(pipes[gen].order)
    {
      active := active - {pipes[gen].order};
      pipes := pipes[gen := pipes[gen].(pc := Releasing(cancel))];
    }

    method Release(gen: int, cancel: int)
      requires At(State(), gen, Releasing(cancel))
      modifies this`pipes, this`revoked
      ensures State() == Do(old(State()), ReleaseOwn(gen)) && cancel in revoked
      ensures At(State(), gen, Leaving)
    {
      revoked := revoked + {cancel};
      pipes := pipes[gen := pipes[gen].(pc := Leaving)];
    }

    method Done(gen: int)
      requires At(State(), gen, Leaving)
      modifies this`pipes, this`wg
      ensures State() == Do(old(State()), PipeDone(gen)) && gen !in pipes
    {
      pipes := pipes - {gen};
      wg := wg - 1;
    }

    /*** The same, after whatever the others do before them; n turns were taken since start ***/

    // The pipeline is at pc after n turns.
    ghost predicate Taken(gen: int, c: Conditions, start: Kitchen, n: nat, pc: Pc)
      reads this
    {
      KitchenOk(State()) && Fits(c, gen) && At(State(), gen, pc) && State() == After(start, gen, c, n)
    }

    // The others do what they do before the statement at pc; next is what the statement makes of that.
    method OthersFirst(
      gen: int, c: Conditions, ghost pc: Pc, number: nat, ghost start: Kitchen, ghost n: nat, ghost m: nat)
      returns (ghost next: Kitchen)
      requires Taken(gen, c, start, n, pc) && InProgram(pc) && number == Number(pc) && m == n + 1
      modifies this
      ensures KitchenOk(State()) && At(State(), gen, pc) && old(revoked) <= revoked
      ensures next == Do(State(), Statement(pc, gen, ContextOver(State(), gen), c))
      ensures next == After(start, gen, c, m) && KitchenOk(next)
    {
      ghost var a := State();
      TurnAt(a, gen, c, pc, c.others[number]);
      OneTurn(start, gen, c, n, m);
      Others(c.others[number]);
      next := Next(a, gen, c);
    }

    method CheckTurn(gen: int, c: Conditions, ghost start: Kitchen, ghost n: nat, ghost m: nat) returns (over: bool)
      requires Taken(gen, c, start, n, Starting) && m == n + 1
      modifies this
      ensures Taken(gen, c, start, m, if over then Loading else Publishing(1))
    {
      ghost var next := OthersFirst(gen, c, Starting, 0, start, n, m);
      over := CheckContext(gen);
    }

    method SendTurn(gen: int, rank: nat, c: Conditions, ghost start: Kitchen, ghost n: nat, ghost m: nat)
      returns (ok: bool)
      requires 1 <= rank <= LAST && Taken(gen, c, start, n, Publishing(rank)) && m == n + 1
      modifies this
      ensures Taken(gen, c, start, m, AfterPublish(rank, ok))
    {
      ghost var next := OthersFirst(gen, c, Publishing(rank), 2 * rank - 1, start, n, m);
      ok := Send(gen, rank, c.sendings[rank - 1]);
    }

    method SleepTurn(gen: int, rank: nat, c: Conditions, ghost start: Kitchen, ghost n: nat, ghost m: nat)
      returns (slept: bool)
      requires 1 <= rank < LAST && Taken(gen, c, start, n, Sleeping(rank)) && m == n + 1
      modifies this
      ensures Taken(gen, c, start, m, if slept then Publishing(rank + 1) else Loading)
    {
      ghost var next := OthersFirst(gen, c, Sleeping(rank), 2 * rank, start, n, m);
      ghost var over := ContextOver(State(), gen);
      slept := SleepContext(gen, rank, c.elapsed[rank - 1]);
      SleepIs(gen, rank, over, c, slept);
    }

    // One status and the wait after it; processOrder returns unless both succeed.
    method Stage(gen: int, rank: nat, c: Conditions, ghost start: Kitchen, ghost n: nat)
      returns (goOn: bool, ghost m: nat)
      requires 1 <= rank < LAST && Taken(gen, c, start, n, Publishing(rank))
      modifies this
      ensures n < m <= n + 2 && Taken(gen, c, start, m, if goOn then Publishing(rank + 1) else Loading)
    {
      m := n + 1;
      goOn := SendTurn(gen, rank, c, start, n, m);
      if !goOn { return; }
      goOn := SleepTurn(gen, rank, c, start, m, m + 1);
      m := m + 1;
    }

    method AcceptAndCook(gen: int, c: Conditions, ghost start: Kitchen, ghost n: nat) returns (goOn: bool, ghost m: nat)
      requires Taken(gen, c, start, n, Publishing(1))
      modifies this
      ensures n < m <= n + 4 && Taken(gen, c, start, m, if goOn then Publishing(3) else Loading)
    {
      goOn, m := Stage(gen, 1, c, start, n);
      if goOn {
        goOn, m := Stage(gen, 2, c, start, m);
      }
    }

    // After completed there is nothing to wait for.
    method ReadyAndComplete(gen: int, c: Conditions, ghost start: Kitchen, ghost n: nat) returns (ghost m: nat)
      requires Taken(gen, c, start, n, Publishing(3))
      modifies this
      ensures n < m <= n + 3 && Taken(gen, c, start, m, Loading)
    {
      var goOn;
      goOn, m := Stage(gen, 3, c, start, n);
      if goOn {
        ghost var last := m + 1;
        goOn := SendTurn(gen, 4, c, start, m, last);
        m := last;
      }
    }

    // The body up to its return, wherever that is.
    method Cook(gen: int, c: Conditions, ghost start: Kitchen, ghost n: nat) returns (ghost m: nat)
      requires Taken(gen, c, start, n, Starting)
      modifies this
      ensures n < m <= n + 8 && Taken(gen, c, start, m, Loading)
    {
      m := n + 1;
      var over := CheckTurn(gen, c, start, n, m);
      if over { return; }
      var goOn;
      goOn, m := AcceptAndCook(gen, c, start, m);
      if !goOn { return; }
      m := ReadyAndComplete(gen, c, start, m);
    }

    method LoadTurn(gen: int, c: Conditions, ghost start: Kitchen, ghost n: nat, ghost m: nat)
      returns (found: Option<int>)
      requires Taken(gen, c, start, n, Loading) && m == n + 1
      modifies this
      ensures found == Some(gen) && Taken(gen, c, start, m, Deleting(gen))
    {
      ghost var next := OthersFirst(gen, c, Loading, 8, start, n, m);
      DeferredLookupFinds(State(), gen);
      found := Load(gen);
    }

    method DeleteTurn(gen: int, c: Conditions, ghost start: Kitchen, ghost n: nat, ghost m: nat)
      requires Taken(gen, c, start, n, Deleting(gen)) && m == n + 1
      modifies this
      ensures Taken(gen, c, start, m, Releasing(gen)) && pipes[gen].order !in active
    {
      ghost var next := OthersFirst(gen, c, Deleting(gen), 9, start, n, m);
      Delete(gen, gen);
    }

    method ReleaseTurn(gen: int, c: Conditions, ghost start: Kitchen, ghost n: nat, ghost m: nat)
      requires Taken(gen, c, start, n, Releasing(gen)) && m == n + 1
      modifies this
      ensures Taken(gen, c, start, m, Leaving) && gen in revoked
    {
      ghost var next := OthersFirst(gen, c, Releasing(gen), 10, start, n, m);
      Release(gen, gen);
    }

    method DoneTurn(gen: int, c: Conditions, ghost start: Kitchen, ghost n: nat, ghost m: nat)
      requires Taken(gen, c, start, n, Leaving) && m == n + 1
      modifies this
      ensures KitchenOk(State()) && State() == After(start, gen, c, m) && gen !in pipes
      ensures old(revoked) <= revoked
    {
      ghost var next := OthersFirst(gen, c, Leaving, 11, start, n, m);
      Done(gen);
    }

    // The deferred calls: load, delete, release, and wg.Done.
    method Deferred(gen: int, c: Conditions, ghost start: Kitchen, ghost n: nat) returns (ghost m: nat)
      requires Taken(gen, c, start, n, Loading)
      modifies this
      ensures m == n + 4 && KitchenOk(State()) && State() == After(start, gen, c, m)
      ensures gen !in pipes && gen in revoked
      ensures Quiet(c) ==> State() == Gone(old(State()), gen)
    {
      if Quiet(c) {
        QuietDeferred(start, gen, c, n);
      }
      ghost var l := n + 1;
      var found := LoadTurn(gen, c, start, n, l);
      if found.Some? {
        m := l + 1;
        DeleteTurn(gen, c, start, l, m);
        l := m + 1;
        ReleaseTurn(gen, c, start, m, l);
      }
      m := l + 1;
      DoneTurn(gen, c, start, l, m);
    }

    /*
     processOrder, with anything the pollers, the other pipelines and a shutdown do between its statements: it
     takes its statements and nothing else, and returns at turn m. By then it has sent its first r statuses, where r
     is the last publish it gets to. It leaves neither itself nor a live context behind.
     */
    method ProcessOrder(gen: int, c: Conditions) returns (ghost n: nat, ghost m: nat, ghost r: nat)
      requires KitchenOk(State()) && At(State(), gen, Starting) && Fits(c, gen)
      modifies this
      ensures n <= STATEMENTS && State() == Run(old(State()), Turns(old(State()), gen, c, n))
      ensures m < n && At(After(old(State()), gen, c, m), gen, Loading) && IsFurthest(old(State()), gen, c, r)
      ensures var order := old(pipes[gen].order);
        StatusesOf(After(old(State()), gen, c, m).topic, order) == StatusesOf(old(topic), order) + SentBy(c.sendings, r)
      ensures KitchenOk(State()) && gen !in pipes && gen in revoked
    {
      ghost var start := State();
      m := 0;
      m := Cook(gen, c, start, m);
      n := Deferred(gen, c, start, m);
      TurnsRun(start, gen, c, n);
      r := ReturnedHavingSent(start, gen, c, m);
    }
  }
}
