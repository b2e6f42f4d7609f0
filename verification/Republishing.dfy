/**
 The relay publishes a message at least once, and again whenever a row is fetched before its mark: exactly
 when a message can still be published again, and a run that publishes one twice.
 */
module Republishing {
  import opened Common
  import opened Menu
  import opened FirstOrder
  import opened Tables
  import opened Platform
  import opened PlatformRuns
  import StoreRuns
  import S = Store
  import Guarantees
  import Progress

  function Copies(log: seq<Message>, m: Message): nat {
    multiset(log)[m]
  }

  // Every row with the message is processed.
  ghost predicate WorkedOff(outbox: seq<OutboxRow>, m: Message) {
    forall i :: 0 <= i < |outbox| && MessageOf(outbox[i]) == m ==> outbox[i].processed
  }

  // No worker is about to publish the message.
  ghost predicate NobodyCarries(jobs: map<int, Job>, m: Message) {
    forall j :: j in jobs && MessageOf(jobs[j].row) == m ==> jobs[j].sent
  }

  ghost predicate Over(p: Platform, m: Message) {
    WorkedOff(p.store.db.outbox, m) && NobodyCarries(p.jobs, m)
  }

  /******* Over for good *******/

  lemma {:induction false} ListedTwice(outbox: seq<OutboxRow>, i: nat, j: nat)
    requires i < j < |outbox| && outbox[i].topic == outbox[j].topic && outbox[i].key == outbox[j].key
    ensures |PayloadsOf(outbox, outbox[j].topic, outbox[j].key)| >= 2
  {
    var n := |outbox| - 1;
    if j < n {
      ListedTwice(outbox[..n], i, j);
    } else {
      PayloadListed(outbox[..n], i);
    }
  }

  lemma {:induction false} AtMostOneListed(db: Db, topic: Topic, order: int)
    requires DbOk(db)
    ensures |PayloadsOf(db.outbox, topic, order)| <= 1
  {
    if order in db.orders {
      assert OrderOk(db, order);
    } else {
      assert Untouched(db, order);
    }
  }

  // A message has one row.
  lemma {:induction false} OneRowEach(db: Db, i: nat, j: nat)
    requires DbOk(db) && i < j < |db.outbox|
    ensures MessageOf(db.outbox[i]) != MessageOf(db.outbox[j])
  {
    AtMostOneListed(db, db.outbox[j].topic, db.outbox[j].key);
    if MessageOf(db.outbox[i]) == MessageOf(db.outbox[j]) {
      ListedTwice(db.outbox, i, j);
    }
  }

  lemma {:induction false} StaysWorkedOff(a: seq<OutboxRow>, b: Db, m: Message)
    requires DbOk(b) && OutboxGrows(a, b.outbox) && Backed(a, m) && WorkedOff(a, m)
    ensures Backed(b.outbox, m) && WorkedOff(b.outbox, m)
  {
    var k :| 0 <= k < |a| && MessageOf(a[k]) == m;
    assert MessageOf(b.outbox[k]) == m;
    forall i | 0 <= i < |b.outbox| && MessageOf(b.outbox[i]) == m ensures b.outbox[i].processed {
      if i < k {
        OneRowEach(b, i, k);
      } else if k < i {
        OneRowEach(b, k, i);
      }
    }
  }

  lemma {:induction false} CopiesRepeat(log: seq<Message>, x: Message, n: nat, m: Message)
    requires x != m
    ensures Copies(log + Repeat(x, n), m) == Copies(log, m)
  {
    assert multiset(log + Repeat(x, n)) == multiset(log) + multiset(Repeat(x, n));
    assert m !in Repeat(x, n);
  }

  lemma {:induction false} PublishOther(p: Platform, m: Message, job: int, copies: nat, ok: bool)
    requires NobodyCarries(p.jobs, m) && CanPublish(p, job, copies, ok)
    ensures var q := JobPublished(p, job, copies, ok); NobodyCarries(q.jobs, m) && Copies(q.log, m) == Copies(p.log, m)
  {
    CopiesRepeat(p.log, MessageOf(p.jobs[job].row), copies, m);
  }

  lemma {:induction false} RelayMoves(p: Platform, m: Message, step: Step)
    requires Over(p, m)
    ensures NobodyCarries(Do(p, step).jobs, m) && Copies(Do(p, step).log, m) == Copies(p.log, m)
  {
    if step.PublishJob? && CanPublish(p, step.job, step.copies, step.ok) {
      PublishOther(p, m, step.job, step.copies, step.ok);
    }
  }

  lemma {:induction false} OverForGood(p: SoundPlatform, steps: seq<Step>, m: Message)
    requires Backed(p.store.db.outbox, m) && Over(p, m)
    ensures Backed(Run(p, steps).store.db.outbox, m) && Over(Run(p, steps), m)
    ensures Copies(Run(p, steps).log, m) == Copies(p.log, m)
  {
    if steps != [] {
      var n := |steps| - 1;
      OverForGood(p, steps[..n], m);
      var before := RunKeeps(p, steps[..n]);
      var after := StepKeeps(before, steps[n]);
      Guarantees.StepGrows(before, steps[n]);
      StaysWorkedOff(before.store.db.outbox, after.store.db, m);
      RelayMoves(before, m, steps[n]);
    }
  }

  /******* Once more *******/

  lemma {:induction false} RunTwo(p: Platform, x: Step, y: Step)
    ensures Run(p, [x]) == Do(p, x)
    ensures Run(p, [x] + [y]) == Do(Do(p, x), y)
  {
    assert [x][..0] == [] && ([x] + [y])[..1] == [x];
  }

  lemma {:induction false} RunOneMore(p: Platform, steps: seq<Step>, step: Step)
    ensures Run(p, steps + [step]) == Do(Run(p, steps), step)
  {
    assert (steps + [step])[..|steps|] == steps;
  }

  lemma {:induction false} RunsJoin(p: Platform, a: seq<Step>, b: seq<Step>)
    ensures Run(p, a + b) == Run(Run(p, a), b)
  {
    if b == [] {
      assert a + b == a;
    } else {
      var before, last := b[..|b| - 1], b[|b| - 1];
      RunsJoin(p, a, before);
      RunOneMore(p, a + before, last);
      assert a + b == a + before + [last];
    }
  }

  lemma {:induction false} OneCopy(log: seq<Message>, m: Message)
    ensures log + Repeat(m, 1) == log + [m]
    ensures Copies(log + [m], m) == Copies(log, m) + 1
  {}

  // The worker publishes what it carries.
  lemma {:induction false} Publishes(p: Platform, job: int)
    requires job in p.jobs && !p.jobs[job].sent
    ensures Do(p, PublishJob(job, 1, true)) ==
            p.(log := p.log + [MessageOf(p.jobs[job].row)], jobs := p.jobs[job := Job(p.jobs[job].row, true)])
  {
    OneCopy(p.log, MessageOf(p.jobs[job].row));
  }

  // An unprocessed row is fetched and published.
  lemma {:induction false} FetchesAndPublishes(p: Platform, job: int, i: nat)
    requires job !in p.jobs && i < |p.store.db.outbox| && !p.store.db.outbox[i].processed
    ensures var row := p.store.db.outbox[i];
      Run(p, [Fetch(job, i)] + [PublishJob(job, 1, true)]) ==
      p.(log := p.log + [MessageOf(row)], jobs := p.jobs[job := Job(row, true)])
  {
    var row := p.store.db.outbox[i];
    var q := p.(jobs := p.jobs[job := Job(row, false)]);
    assert Do(p, Fetch(job, i)) == q;
    Publishes(q, job);
    assert q.jobs[job := Job(row, true)] == p.jobs[job := Job(row, true)];
    RunTwo(p, Fetch(job, i), PublishJob(job, 1, true));
  }

  lemma {:induction false} CanComeAgain(p: Platform, m: Message) returns (steps: seq<Step>)
    requires !Over(p, m)
    ensures Run(p, steps).log == p.log + [m]
  {
    if !WorkedOff(p.store.db.outbox, m) {
      var i :| 0 <= i < |p.store.db.outbox| && MessageOf(p.store.db.outbox[i]) == m && !p.store.db.outbox[i].processed;
      var job := Progress.UnusedId(p.jobs.Keys);
      FetchesAndPublishes(p, job, i);
      steps := [Fetch(job, i)] + [PublishJob(job, 1, true)];
    } else {
      var job :| job in p.jobs && MessageOf(p.jobs[job].row) == m && !p.jobs[job].sent;
      Publishes(p, job);
      RunTwo(p, PublishJob(job, 1, true), PublishJob(job, 1, true));
      steps := [PublishJob(job, 1, true)];
    }
  }

  /*
   "Exactly once" ends here: in any reachable state some run publishes a message of the outbox once more if
   and only if its row is not marked yet, or some worker still carries it unsent.
   */
  lemma {:induction false} ComesAgainIff(p: SoundPlatform, m: Message)
    requires Backed(p.store.db.outbox, m)
    ensures (exists steps :: Copies(Run(p, steps).log, m) > Copies(p.log, m)) <==> !Over(p, m)
  {
    if Over(p, m) {
      forall steps ensures Copies(Run(p, steps).log, m) == Copies(p.log, m) {
        OverForGood(p, steps, m);
      }
    } else {
      var steps := CanComeAgain(p, m);
      OneCopy(p.log, m);
    }
  }

  /******* A run that publishes twice *******/

  function InStores(steps: seq<S.Step>): (lifted: seq<Step>)
    ensures |lifted| == |steps|
  {
    seq(|steps|, i requires 0 <= i < |steps| => InStore(steps[i]))
  }

  // What clients do leaves the relay alone.
  lemma {:induction false} ClientsRun(p: Platform, steps: seq<S.Step>)
    requires p.consuming == None && ByClients(steps)
    ensures var q := Run(p, InStores(steps));
      q.store == S.Run(p.store, steps) && q.consuming == None && q.jobs == p.jobs && q.log == p.log
  {
    if steps != [] {
      var n := |steps| - 1;
      ClientsRun(p, steps[..n]);
      assert InStores(steps)[..n] == InStores(steps[..n]);
    }
  }

  // Publish, fail to mark, fetch the row again.
  function TwiceSteps(job: int, i: nat): seq<Step> {
    [Fetch(job, i)] + [PublishJob(job, 1, true)] + [MarkJob(job, false)] + [Fetch(job, i)] + [PublishJob(job, 1, true)]
  }

  lemma {:induction false} TwiceRuns(p: Platform, job: int, i: nat)
    requires job !in p.jobs && i < |p.store.db.outbox| && !p.store.db.outbox[i].processed
    ensures var m := MessageOf(p.store.db.outbox[i]);
      Run(p, TwiceSteps(job, i)).store == p.store && Run(p, TwiceSteps(job, i)).log == p.log + [m] + [m]
  {
    var row := p.store.db.outbox[i];
    var once := [Fetch(job, i)] + [PublishJob(job, 1, true)];
    FetchesAndPublishes(p, job, i);
    var a := Run(p, once);
    RunTwo(a, MarkJob(job, false), MarkJob(job, false));
    var b := Do(a, MarkJob(job, false));
    assert b == p.(log := p.log + [MessageOf(row)], jobs := b.jobs) && job !in b.jobs;
    FetchesAndPublishes(b, job, i);
    RunsJoin(p, once, [MarkJob(job, false)]);
    RunsJoin(p, once + [MarkJob(job, false)], once);
    assert TwiceSteps(job, i) == once + [MarkJob(job, false)] + once;
  }

  // Every publish of the run appends at most one copy.
  ghost predicate OneCopyEach(steps: seq<Step>) {
    forall i :: 0 <= i < |steps| && steps[i].PublishJob? ==> steps[i].copies <= 1
  }

  lemma {:induction false} TwiceAfter(p: Platform, first: seq<S.Step>)
    requires p.consuming == None && ByClients(first) && p.jobs == map[] && p.log == []
    requires HasOneOrder(S.Run(p.store, first).db)
    ensures var q := Run(p, InStores(first) + TwiceSteps(0, 0));
      var m := MessageOf(S.Run(p.store, first).db.outbox[0]);
      q.store.db.orders.Keys == {m.key} && m.topic == OrdersTopic && q.log == [m] + [m]
  {
    ClientsRun(p, first);
    TwiceRuns(Run(p, InStores(first)), 0, 0);
    RunsJoin(p, InStores(first), TwiceSteps(0, 0));
    assert [] + [MessageOf(S.Run(p.store, first).db.outbox[0])] == [MessageOf(S.Run(p.store, first).db.outbox[0])];
  }

  lemma {:induction false} TwiceCopies(first: seq<S.Step>)
    ensures OneCopyEach(InStores(first) + TwiceSteps(0, 0))
  {}

  /* One order, no copy made by the broker, and its created message is published twice. */
  lemma {:induction false} PublishedTwice(restaurants: map<int, bool>, rid: int) returns (steps: seq<Step>, m: Message)
    requires rid in restaurants && restaurants[rid]
    ensures OneCopyEach(steps)
    ensures var p := Run(Fresh(restaurants), steps);
      p.store.db.orders.Keys == {m.key} && m.topic == OrdersTopic && p.log == [m] + [m]
  {
    var first := FirstOrderPlaced(restaurants, rid, "u", MenuInput("1", "dish", 500, true));
    TwiceAfter(Fresh(restaurants), first);
    TwiceCopies(first);
    m := MessageOf(S.Run(Fresh(restaurants).store, first).db.outbox[0]);
    steps := InStores(first) + TwiceSteps(0, 0);
  }
}
