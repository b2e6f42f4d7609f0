/** How fast the relay drains the outbox when publishes and marks succeed. */
module Drain {
  import opened Tables
  import opened Relay

  // From one fetch to the next: a batch was marked, rows may have arrived.
  ghost predicate CleanTick(a: seq<OutboxRow>, b: seq<OutboxRow>) {
    exists batch :: IsFetch(a, BATCH, batch) && Drained(a, batch, b)
  }

  ghost predicate CleanTicks(trace: seq<seq<OutboxRow>>) {
    forall k :: 0 < k < |trace| ==> CleanTick(trace[k - 1], trace[k])
  }

  /* What the worker pool makes of a batch, with any number of workers and any interleaving, is a clean tick. */
  lemma {:induction false} PoolTicks(rows: seq<OutboxRow>, batch: seq<nat>, numWorkers: nat, steps: seq<Step>)
    requires RowIdsDistinct(rows) && IsFetch(rows, BATCH, batch) && AllFaultless(steps) && numWorkers > 0
    requires Joined(Run(Beginning(rows, batch, numWorkers), steps))
    ensures CleanTick(rows, Run(Beginning(rows, batch, numWorkers), steps).rows)
  {
    CleanTickDrains(rows, batch, numWorkers, steps);
  }

  lemma {:induction false} Earliest(rows: seq<OutboxRow>, left: set<nat>) returns (i: nat)
    requires left != {} && forall j :: j in left ==> j < |rows|
    ensures i in left && forall j :: j in left ==> rows[i].createdAt <= rows[j].createdAt
    decreases |left|
  {
    i :| i in left;
    var rest := left - {i};
    assert forall j :: j in left && j != i ==> j in rest;
    if rest != {} {
      var k := Earliest(rows, rest);
      if rows[k].createdAt < rows[i].createdAt {
        i := k;
      }
    }
  }

  lemma {:induction false} FetchOneMore(rows: seq<OutboxRow>, limit: nat, batch: seq<nat>, i: nat)
    requires IsFetch(rows, limit, batch) && i in Pending(rows) - SetOf(batch)
    requires forall j :: j in Pending(rows) - SetOf(batch) ==> rows[i].createdAt <= rows[j].createdAt
    ensures IsFetch(rows, limit + 1, batch + [i])
  {
    BatchTakes(rows, limit, batch);
    assert |Pending(rows) - SetOf(batch)| > 0;
  }

  lemma {:induction false} NothingMore(rows: seq<OutboxRow>, limit: nat, batch: seq<nat>)
    requires IsFetch(rows, limit, batch) && |Pending(rows) - SetOf(batch)| == 0
    ensures IsFetch(rows, limit + 1, batch)
  {
    BatchTakes(rows, limit, batch);
  }

  /* There always is a batch to fetch. */
  lemma {:induction false} FetchExists(rows: seq<OutboxRow>, limit: nat) returns (batch: seq<nat>)
    ensures IsFetch(rows, limit, batch)
  {
    if limit == 0 {
      batch := [];
    } else {
      batch := FetchExists(rows, limit - 1);
      var left := Pending(rows) - SetOf(batch);
      if left == {} {
        NothingMore(rows, limit - 1, batch);
      } else {
        var i := Earliest(rows, left);
        FetchOneMore(rows, limit - 1, batch, i);
        batch := batch + [i];
      }
    }
  }

  lemma {:induction false} BatchTakes(rows: seq<OutboxRow>, limit: nat, batch: seq<nat>)
    requires IsFetch(rows, limit, batch)
    ensures SetOf(batch) <= Pending(rows) && |Pending(rows) - SetOf(batch)| == |Pending(rows)| - |batch|
  {
    SetOfSize(batch);
  }

  lemma {:induction false} DrainedPending(a: seq<OutboxRow>, batch: seq<nat>, b: seq<OutboxRow>)
    requires IsFetch(a, BATCH, batch) && Drained(a, batch, b) && |b| == |a|
    ensures Pending(b) == Pending(a) - SetOf(batch)
  {}

  function Remaining(n: nat, ticks: nat): nat {
    if 50 * ticks >= n then 0 else n - 50 * ticks
  }

  /* Without arrivals, n unprocessed rows become max(0, n - 50 k) after k ticks. */
  lemma {:induction false} PendingAfter(trace: seq<seq<OutboxRow>>, k: nat)
    requires CleanTicks(trace) && k < |trace|
    requires forall i :: 0 <= i < |trace| ==> |trace[i]| == |trace[0]|
    ensures |Pending(trace[k])| == Remaining(|Pending(trace[0])|, k)
  {
    if k > 0 {
      PendingAfter(trace, k - 1);
      var a, b := trace[k - 1], trace[k];
      assert CleanTick(a, b);
      var batch :| IsFetch(a, BATCH, batch) && Drained(a, batch, b);
      DrainedPending(a, batch, b);
      BatchTakes(a, BATCH, batch);
    }
  }

  /* The outbox is empty after exactly ceil(n / 50) ticks: not earlier, and from then on. */
  lemma {:induction false} DrainsInCeil(trace: seq<seq<OutboxRow>>, k: nat)
    requires CleanTicks(trace) && k < |trace|
    requires forall i :: 0 <= i < |trace| ==> |trace[i]| == |trace[0]|
    ensures Pending(trace[k]) == {} <==> k >= (|Pending(trace[0])| + 49) / 50
  {
    PendingAfter(trace, k);
    CeilMeaning(|Pending(trace[0])|, k);
  }

  lemma {:induction false} CeilMeaning(n: nat, k: nat)
    ensures Remaining(n, k) == 0 <==> k >= (n + 49) / 50
  {}

  /******* With arrivals *******/

  // The unprocessed rows that may be fetched before row r; rows with the same stamp count.
  ghost function Ahead(rows: seq<OutboxRow>, r: nat): set<nat>
    requires r < |rows|
  {
    set i | i in Pending(rows) && i != r && rows[i].createdAt <= rows[r].createdAt
  }

  lemma {:induction false} FullBatchAhead(a: seq<OutboxRow>, batch: seq<nat>, r: nat)
    requires IsFetch(a, BATCH, batch) && r in Pending(a) && r !in batch
    ensures |batch| == BATCH && SetOf(batch) <= Ahead(a, r)
  {
    BatchTakes(a, BATCH, batch);
    assert r in Pending(a) - SetOf(batch);
    assert |Pending(a) - SetOf(batch)| > 0;
    forall i | i in SetOf(batch) ensures i in Ahead(a, r) {
      var k :| 0 <= k < |batch| && batch[k] == i;
    }
  }

  lemma {:induction false} AheadShrinks(a: seq<OutboxRow>, batch: seq<nat>, b: seq<OutboxRow>, r: nat)
    requires IsFetch(a, BATCH, batch) && Drained(a, batch, b) && r in Pending(a) && r !in batch
    requires forall i :: |a| <= i < |b| ==> b[i].createdAt > a[r].createdAt
    ensures |Ahead(b, r)| == |Ahead(a, r)| - BATCH
  {
    FullBatchAhead(a, batch, r);
    SetOfSize(batch);
    assert Ahead(b, r) == Ahead(a, r) - SetOf(batch);
  }

  // The row keeps its place and stamp, and everything that arrives is stamped later.
  ghost predicate LaterArrivals(trace: seq<seq<OutboxRow>>, r: nat) {
    forall k :: 0 <= k < |trace| ==>
      && r < |trace[0]| <= |trace[k]|
      && (forall i :: |trace[0]| <= i < |trace[k]| ==> trace[k][i].createdAt > trace[0][r].createdAt)
  }

  lemma {:induction false} StillWaiting(trace: seq<seq<OutboxRow>>, r: nat, k: nat)
    requires CleanTicks(trace) && LaterArrivals(trace, r) && k < |trace|
    requires r in Pending(trace[0])
    ensures trace[k][r].createdAt == trace[0][r].createdAt
    ensures !trace[k][r].processed ==> |Ahead(trace[k], r)| == |Ahead(trace[0], r)| - 50 * k
  {
    if k > 0 {
      StillWaiting(trace, r, k - 1);
      var a, b := trace[k - 1], trace[k];
      assert CleanTick(a, b);
      var batch :| IsFetch(a, BATCH, batch) && Drained(a, batch, b);
      if !b[r].processed {
        assert r !in batch;
        AheadShrinks(a, batch, b, r);
      }
    }
  }

  /* With k rows ahead of it, and only later-stamped arrivals, a row is sent within floor(k / 50) + 1 ticks. */
  lemma {:induction false} SentInTime(trace: seq<seq<OutboxRow>>, r: nat)
    requires CleanTicks(trace) && |trace| > 0 && LaterArrivals(trace, r) && r in Pending(trace[0])
    requires |trace| > |Ahead(trace[0], r)| / 50 + 1
    ensures trace[|Ahead(trace[0], r)| / 50 + 1][r].processed
  {
    StillWaiting(trace, r, |Ahead(trace[0], r)| / 50 + 1);
  }
}
