/**
 The outbox relay: a tick fetches a batch of unprocessed rows, oldest first, hands it to a pool of
 workers through a channel, and waits for them. Every worker step may fail; rows of other transactions
 arrive while the tick runs. A step that is not possible leaves the state as it is.
 */
module Relay {
  import opened Common
  import opened Tables

  const BATCH: nat := 50

  /******* The fetch *******/

  function Pending(rows: seq<OutboxRow>): set<nat> {
    set i: nat | i < |rows| && !rows[i].processed
  }

  function SetOf(batch: seq<nat>): set<nat> {
    set i | i in batch
  }

  function Min(a: nat, b: nat): nat {
    if a < b then a else b
  }

  // GetOutboxEvents: ORDER BY created_at LIMIT limit over the unprocessed rows; ties come in any order.
  ghost predicate IsFetch(rows: seq<OutboxRow>, limit: nat, batch: seq<nat>) {
    && (forall k :: 0 <= k < |batch| ==> batch[k] < |rows| && !rows[batch[k]].processed)
    && (forall k, l :: 0 <= k < l < |batch| ==> batch[k] != batch[l])
    && |batch| == Min(limit, |Pending(rows)|)
    && (forall k, l :: 0 <= k < l < |batch| ==> rows[batch[k]].createdAt <= rows[batch[l]].createdAt)
    && (forall k, j :: 0 <= k < |batch| && j in Pending(rows) && j !in batch ==> rows[batch[k]].createdAt <= rows[j].createdAt)
  }

  lemma {:induction false} SetOfSize(batch: seq<nat>)
    requires forall k, l :: 0 <= k < l < |batch| ==> batch[k] != batch[l]
    ensures |SetOf(batch)| == |batch|
  {
    if batch != [] {
      var n := |batch| - 1;
      SetOfSize(batch[..n]);
      assert SetOf(batch) == SetOf(batch[..n]) + {batch[n]};
    }
  }

  /******* One tick *******/

  datatype Worker = Free | Holding(i: nat) | Delivered(i: nat) | Gone

  /* sent lists the rows whose message was appended, copy by copy; over says that ctx is done. */
  datatype Tick = Tick(rows: seq<OutboxRow>, queue: seq<nat>, workers: seq<Worker>, sent: seq<nat>, over: bool)

  datatype Step =
    | Take(w: nat)
    | GiveUp(w: nat)
    | Publish(w: nat, copies: nat, ok: bool)
    | Mark(w: nat, ok: bool)
    | Leave(w: nat)
    | Arrive(row: OutboxRow)
    | CancelContext

  function Beginning(rows: seq<OutboxRow>, batch: seq<nat>, numWorkers: nat): Tick {
    Tick(rows, batch, seq(numWorkers, _ => Free), [], false)
  }

  predicate IsAt(t: Tick, w: nat, worker: Worker) {
    w < |t.workers| && t.workers[w] == worker
  }

  predicate Holds(t: Tick, w: nat) {
    w < |t.workers| && t.workers[w].Holding?
  }

  predicate HasDelivered(t: Tick, w: nat) {
    w < |t.workers| && t.workers[w].Delivered? && t.workers[w].i < |t.rows|
  }

  function Put(t: Tick, w: nat, worker: Worker): Tick
    requires w < |t.workers|
  {
    t.(workers := t.workers[w := worker])
  }

  ghost predicate Arrivable(rows: seq<OutboxRow>, row: OutboxRow) {
    FreshRow(rows, row.id) && !row.processed
  }

  ghost function Do(t: Tick, step: Step): Tick {
    match step
    case Take(w) =>
      if IsAt(t, w, Free) && t.queue != [] then Put(t, w, Holding(t.queue[0])).(queue := t.queue[1..]) else t
    case GiveUp(w) => if Holds(t, w) && t.over then Put(t, w, Gone) else t
    case Publish(w, copies, ok) =>
      if Holds(t, w) && (ok ==> copies > 0) then
        var i := t.workers[w].i;
        Put(t, w, if ok then Delivered(i) else Free).(sent := t.sent + Repeat(i, copies))
      else t
    case Mark(w, ok) =>
      if HasDelivered(t, w) then
        Put(t, w, Free).(rows := if ok then MarkRows(t.rows, t.rows[t.workers[w].i].id) else t.rows)
      else t
    case Leave(w) => if IsAt(t, w, Free) && t.queue == [] then Put(t, w, Gone) else t
    case Arrive(row) => if Arrivable(t.rows, row) then t.(rows := t.rows + [row]) else t
    case CancelContext => t.(over := true)
  }

  ghost function Run(t: Tick, steps: seq<Step>): Tick {
    if steps == [] then t else Do(Run(t, steps[..|steps| - 1]), steps[|steps| - 1])
  }

  // wg.Wait has returned.
  predicate Joined(t: Tick) {
    forall w :: 0 <= w < |t.workers| ==> t.workers[w] == Gone
  }

  predicate Faultless(step: Step) {
    !step.GiveUp? && !step.CancelContext? && (step.Publish? ==> step.ok) && (step.Mark? ==> step.ok)
  }

  ghost predicate AllFaultless(steps: seq<Step>) {
    forall i :: 0 <= i < |steps| ==> Faultless(steps[i])
  }

  /******* What a tick keeps, whatever fails *******/

  predicate InHand(t: Tick, w: nat, i: nat) {
    w < |t.workers| && (t.workers[w] == Holding(i) || t.workers[w] == Delivered(i))
  }

  // Row i as the tick found it, marked or not.
  ghost predicate RowOk(before: seq<OutboxRow>, t: Tick, batch: seq<nat>, i: nat)
    requires i < |before| <= |t.rows|
  {
    || t.rows[i] == before[i]
    || (t.rows[i] == before[i].(processed := true) && i in batch && i in t.sent)
  }

  ghost predicate TickOk(before: seq<OutboxRow>, batch: seq<nat>, t: Tick) {
    && |before| <= |t.rows| && RowIdsDistinct(t.rows)
    && (forall i :: i in batch ==> i < |before|)
    && (forall i :: i in t.queue ==> i in batch)
    && (forall w, i :: InHand(t, w, i) ==> i in batch)
    && (forall w :: 0 <= w < |t.workers| && t.workers[w].Delivered? ==> t.workers[w].i in t.sent)
    && (forall i :: 0 <= i < |before| ==> RowOk(before, t, batch, i))
    && (forall i :: |before| <= i < |t.rows| ==> !t.rows[i].processed)
  }

  lemma {:induction false} BeginningOk(rows: seq<OutboxRow>, batch: seq<nat>, numWorkers: nat)
    requires RowIdsDistinct(rows) && IsFetch(rows, BATCH, batch)
    ensures TickOk(rows, batch, Beginning(rows, batch, numWorkers))
  {}

  lemma {:induction false} MarkOk(before: seq<OutboxRow>, batch: seq<nat>, t: Tick, w: nat)
    requires TickOk(before, batch, t) && HasDelivered(t, w)
    ensures TickOk(before, batch, Do(t, Mark(w, true)))
  {
    var b := Do(t, Mark(w, true));
    var i := t.workers[w].i;
    assert InHand(t, w, i);
    forall j | 0 <= j < |before| ensures RowOk(before, b, batch, j) {
      assert RowOk(before, t, batch, j);
    }
    forall v, j | InHand(b, v, j) ensures j in batch {
      assert InHand(t, v, j);
    }
  }

  lemma {:induction false} StepKeeps(before: seq<OutboxRow>, batch: seq<nat>, t: Tick, step: Step)
    requires TickOk(before, batch, t)
    ensures TickOk(before, batch, Do(t, step))
  {
    var b := Do(t, step);
    if step.Mark? && step.ok && HasDelivered(t, step.w) {
      MarkOk(before, batch, t, step.w);
    } else {
      forall i | 0 <= i < |before| ensures RowOk(before, b, batch, i) {
        assert RowOk(before, t, batch, i);
      }
      forall w, i | InHand(b, w, i) ensures i in batch {
        assert InHand(t, w, i) || (step.Take? && i == t.queue[0]);
      }
      forall w | 0 <= w < |b.workers| && b.workers[w].Delivered? ensures b.workers[w].i in b.sent {
        if step.Publish? && step.w == w && b.workers[w] != t.workers[w] {
          assert b.sent[|t.sent|] == b.workers[w].i;
        } else {
          assert t.workers[w].i in t.sent;
        }
      }
    }
  }

  lemma {:induction false} RunKeeps(before: seq<OutboxRow>, batch: seq<nat>, t: Tick, steps: seq<Step>)
    requires TickOk(before, batch, t)
    ensures TickOk(before, batch, Run(t, steps))
  {
    if steps != [] {
      RunKeeps(before, batch, t, steps[..|steps| - 1]);
      StepKeeps(before, batch, Run(t, steps[..|steps| - 1]), steps[|steps| - 1]);
    }
  }

  /* Whatever fails, a row is only marked after its message was appended, and no row is lost. */
  lemma {:induction false} MarkedWereSent(rows: seq<OutboxRow>, batch: seq<nat>, numWorkers: nat, steps: seq<Step>)
    requires RowIdsDistinct(rows) && IsFetch(rows, BATCH, batch)
    ensures var t := Run(Beginning(rows, batch, numWorkers), steps);
      && OutboxGrows(rows, t.rows)
      && (forall i :: i in Pending(rows) && i !in Pending(t.rows) ==> i in batch && i in t.sent)
  {
    BeginningOk(rows, batch, numWorkers);
    RunKeeps(rows, batch, Beginning(rows, batch, numWorkers), steps);
    var t := Run(Beginning(rows, batch, numWorkers), steps);
    forall i: nat | i < |rows|
      ensures t.rows[i] == rows[i] || (t.rows[i] == rows[i].(processed := true) && i in batch && i in t.sent)
    {
      assert RowOk(rows, t, batch, i);
    }
  }

  /******* A tick without failures *******/

  // Where each row of the batch is: waiting, with a worker, or done.
  ghost predicate Accounted(batch: seq<nat>, t: Tick) {
    && (forall i :: i in batch ==> i < |t.rows| && (i in t.queue || t.rows[i].processed || exists w :: InHand(t, w, i)))
    && (forall w :: IsAt(t, w, Gone) ==> t.queue == [])
  }

  lemma {:induction false} StepAccounts(before: seq<OutboxRow>, batch: seq<nat>, t: Tick, step: Step)
    requires TickOk(before, batch, t) && Accounted(batch, t) && Faultless(step)
    ensures Accounted(batch, Do(t, step))
  {
    var b := Do(t, step);
    forall i | i in batch ensures i in b.queue || b.rows[i].processed || exists w :: InHand(b, w, i) {
      if w :| InHand(t, w, i) {
        assert InHand(b, w, i) || b.rows[i].processed;
      } else if i in t.queue && i !in b.queue {
        assert InHand(b, step.w, i);
      }
    }
    forall w | IsAt(b, w, Gone) ensures b.queue == [] {
      assert IsAt(t, w, Gone) || step.Leave?;
    }
  }

  lemma {:induction false} RunAccounts(before: seq<OutboxRow>, batch: seq<nat>, t: Tick, steps: seq<Step>)
    requires TickOk(before, batch, t) && Accounted(batch, t) && AllFaultless(steps)
    ensures Accounted(batch, Run(t, steps))
  {
    if steps != [] {
      var n := |steps| - 1;
      RunAccounts(before, batch, t, steps[..n]);
      RunKeeps(before, batch, t, steps[..n]);
      StepAccounts(before, batch, Run(t, steps[..n]), steps[n]);
    }
  }

  // The rows after a tick that went well: the batch is marked, later rows may have arrived.
  ghost predicate Drained(a: seq<OutboxRow>, batch: seq<nat>, b: seq<OutboxRow>) {
    && |a| <= |b|
    && (forall i :: 0 <= i < |a| ==> b[i] == if i in batch then a[i].(processed := true) else a[i])
    && (forall i :: |a| <= i < |b| ==> !b[i].processed)
  }

  lemma {:induction false} NoWorkerNoMark(t: Tick, steps: seq<Step>)
    requires t.workers == []
    ensures var b := Run(t, steps); b.workers == [] && |t.rows| <= |b.rows| && b.rows[..|t.rows|] == t.rows
  {
    if steps != [] {
      NoWorkerNoMark(t, steps[..|steps| - 1]);
    }
  }

  /*
   When publishes and marks succeed and all workers have returned, the whole batch is marked and
   nothing else, for any interleaving: if and only if there is at least one worker (or nothing to do).
   */
  lemma {:induction false} CleanTickDrains(rows: seq<OutboxRow>, batch: seq<nat>, numWorkers: nat, steps: seq<Step>)
    requires RowIdsDistinct(rows) && IsFetch(rows, BATCH, batch) && AllFaultless(steps)
    requires Joined(Run(Beginning(rows, batch, numWorkers), steps))
    ensures Drained(rows, batch, Run(Beginning(rows, batch, numWorkers), steps).rows) <==> numWorkers > 0 || batch == []
  {
    var t0 := Beginning(rows, batch, numWorkers);
    var t := Run(t0, steps);
    BeginningOk(rows, batch, numWorkers);
    RunKeeps(rows, batch, t0, steps);
    RunAccounts(rows, batch, t0, steps);
    WorkersStay(t0, steps);
    if numWorkers > 0 {
      assert IsAt(t, 0, Gone);
    } else if batch != [] {
      NoWorkerNoMark(t0, steps);
      assert t.rows[..|rows|][batch[0]] == rows[batch[0]];
    }
    forall i: nat | i < |rows|
      ensures t.rows[i] == rows[i] || (t.rows[i] == rows[i].(processed := true) && i in batch)
    {
      assert RowOk(rows, t, batch, i);
    }
  }

  lemma {:induction false} WorkersStay(t: Tick, steps: seq<Step>)
    ensures |Run(t, steps).workers| == |t.workers|
  {
    if steps != [] {
      WorkersStay(t, steps[..|steps| - 1]);
    }
  }

  /******* Every tick ends *******/

  function WorkLeft(w: Worker): nat {
    match w
    case Holding(_) => 3
    case Delivered(_) => 2
    case Free => 1
    case Gone => 0
  }

  function WorkersLeft(workers: seq<Worker>): nat {
    if workers == [] then 0 else WorkersLeft(workers[..|workers| - 1]) + WorkLeft(workers[|workers| - 1])
  }

  function TickLeft(t: Tick): nat {
    3 * |t.queue| + WorkersLeft(t.workers)
  }

  lemma {:induction false} PutLeft(workers: seq<Worker>, w: nat, worker: Worker)
    requires w < |workers|
    ensures WorkersLeft(workers[w := worker]) == WorkersLeft(workers) - WorkLeft(workers[w]) + WorkLeft(worker)
  {
    var n := |workers| - 1;
    if w < n {
      PutLeft(workers[..n], w, worker);
      assert workers[w := worker][..n] == workers[..n][w := worker];
    } else {
      assert workers[w := worker][..n] == workers[..n];
    }
  }

  predicate OfWorker(step: Step) {
    !step.Arrive? && !step.CancelContext?
  }

  lemma {:induction false} StepsWork(t: Tick, step: Step)
    requires OfWorker(step)
    ensures Do(t, step) == t || TickLeft(Do(t, step)) < TickLeft(t)
  {
    if step.w < |t.workers| && Do(t, step).workers != t.workers {
      PutLeft(t.workers, step.w, Do(t, step).workers[step.w]);
    }
  }

  // A worker that has not returned can always go on.
  lemma {:induction false} SomebodyCanStep(before: seq<OutboxRow>, batch: seq<nat>, t: Tick) returns (step: Step)
    requires TickOk(before, batch, t) && !Joined(t)
    ensures OfWorker(step) && Do(t, step) != t && (!t.over ==> Faultless(step))
  {
    var w :| 0 <= w < |t.workers| && t.workers[w] != Gone;
    match t.workers[w]
    case Free =>
      step := if t.queue == [] then Leave(w) else Take(w);
      assert Do(t, step).workers[w] != Free;
    case Holding(i) =>
      step := if t.over then GiveUp(w) else Publish(w, 1, true);
      assert Do(t, step).workers[w] != Holding(i);
    case Delivered(i) =>
      assert InHand(t, w, i);
      step := Mark(w, true);
      assert Do(t, step).workers[w] == Free;
  }

  /*
   A tick cannot hang: from every state of it some continuation, faultless unless the context is over,
   lets wg.Wait return, and every effective worker step brings that nearer.
   */
  lemma {:induction false} TickCanEnd(before: seq<OutboxRow>, batch: seq<nat>, t: Tick) returns (steps: seq<Step>)
    requires TickOk(before, batch, t)
    ensures Joined(Run(t, steps)) && |steps| <= TickLeft(t)
    ensures !t.over ==> AllFaultless(steps)
    decreases TickLeft(t)
  {
    steps := [];
    if !Joined(t) {
      var step := SomebodyCanStep(before, batch, t);
      StepsWork(t, step);
      StepKeeps(before, batch, t, step);
      var rest := TickCanEnd(before, batch, Do(t, step));
      RunFirst(t, step, rest);
      steps := [step] + rest;
    }
  }

  lemma {:induction false} RunFirst(t: Tick, step: Step, rest: seq<Step>)
    ensures Run(t, [step] + rest) == Run(Do(t, step), rest)
  {
    var all := [step] + rest;
    if rest == [] {
      assert all == [step] && all[..0] == [];
      assert Run(t, all[..0]) == t;
    } else {
      var n := |rest| - 1;
      RunFirst(t, step, rest[..n]);
      assert all[..|all| - 1] == [step] + rest[..n];
    }
  }
}
