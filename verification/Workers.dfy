/**
 The worker loops of the service as the program they are, run by a single worker as the service starts
 them: the relay's tick and the status consumer. What may go wrong comes as a list of outcomes, one for
 every turn of the loop.
 */
module Workers {
  import opened Common
  import opened Statuses
  import opened StatusTopic
  import opened Delivery
  import opened Tables
  import opened Repository
  import Relay

  /******* outboxWorkers *******/

  // How publishing and marking one row goes; copies is how often the message was appended. A mark may take
  // effect and be reported as failed all the same.
  datatype Outcome =
    | PublishFailed(copies: nat)
    | MarkFailed(copies: nat)
    | Unacknowledged(copies: nat)
    | Acknowledged(copies: nat)

  predicate Marks(o: Outcome) {
    o.Unacknowledged? || o.Acknowledged?
  }

  function MarkFault(o: Outcome): Option<Call> {
    if o.MarkFailed? then Some(MarkRow) else if o.Unacknowledged? then Some(MarkUnacked) else None
  }

  predicate Plausible(o: Outcome) {
    o.PublishFailed? || o.copies > 0
  }

  // The outbox after the first n rows of the batch were worked on.
  ghost predicate WorkedOff(before: seq<OutboxRow>, batch: seq<nat>, outcomes: seq<Outcome>, n: nat, after: seq<OutboxRow>)
    requires n <= |batch| == |outcomes|
  {
    && |after| == |before|
    && forall i :: 0 <= i < |before| ==>
         after[i] == if Succeeded(batch, outcomes, n, i) then before[i].(processed := true) else before[i]
  }

  ghost predicate Succeeded(batch: seq<nat>, outcomes: seq<Outcome>, n: nat, i: nat)
    requires n <= |batch| == |outcomes|
  {
    exists k :: 0 <= k < n && batch[k] == i && Marks(outcomes[k])
  }

  function SentBy(batch: seq<nat>, outcomes: seq<Outcome>): seq<nat>
    requires |batch| == |outcomes|
  {
    if batch == [] then []
    else
      var n := |batch| - 1;
      SentBy(batch[..n], outcomes[..n]) + Repeat(batch[n], outcomes[n].copies)
  }

  lemma {:induction false} OneMoreWorkedOff(
    before: seq<OutboxRow>, batch: seq<nat>, outcomes: seq<Outcome>, n: nat, after: seq<OutboxRow>)
    requires n < |batch| == |outcomes| && WorkedOff(before, batch, outcomes, n, after)
    requires RowIdsDistinct(before) && batch[n] < |before|
    ensures WorkedOff(before, batch, outcomes, n + 1,
                      if Marks(outcomes[n]) then MarkRows(after, before[batch[n]].id) else after)
  {
    forall i | 0 <= i < |before|
      ensures Succeeded(batch, outcomes, n + 1, i) <==>
              Succeeded(batch, outcomes, n, i) || (batch[n] == i && Marks(outcomes[n]))
      ensures after[i].id == before[i].id
    {
      if Succeeded(batch, outcomes, n, i) {
        var k :| 0 <= k < n && batch[k] == i && Marks(outcomes[k]);
        assert 0 <= k < n + 1;
      }
    }
  }

  // The tables after the batch was worked off.
  function MarkAll(db: Db, batch: seq<nat>, outcomes: seq<Outcome>): Db
    requires |batch| == |outcomes| && forall k :: 0 <= k < |batch| ==> batch[k] < |db.outbox|
  {
    if batch == [] then db
    else
      var n := |batch| - 1;
      var before := MarkAll(db, batch[..n], outcomes[..n]);
      if Marks(outcomes[n]) then MarkProcessed(before, db.outbox[batch[n]].id) else before
  }

  lemma {:induction false} MarkAllWorksOff(db: Db, batch: seq<nat>, outcomes: seq<Outcome>, n: nat)
    requires n <= |batch| == |outcomes| && RowIdsDistinct(db.outbox)
    requires forall k :: 0 <= k < |batch| ==> batch[k] < |db.outbox|
    ensures WorkedOff(db.outbox, batch, outcomes, n, MarkAll(db, batch[..n], outcomes[..n]).outbox)
  {
    if n > 0 {
      MarkAllWorksOff(db, batch, outcomes, n - 1);
      assert batch[..n][..n - 1] == batch[..n - 1] && outcomes[..n][..n - 1] == outcomes[..n - 1];
      OneMoreWorkedOff(db.outbox, batch, outcomes, n - 1, MarkAll(db, batch[..n - 1], outcomes[..n - 1]).outbox);
    }
  }

  lemma {:induction false} TickOneMore(db: Db, batch: seq<nat>, outcomes: seq<Outcome>, k: nat)
    requires k < |batch| == |outcomes| && forall j :: 0 <= j < |batch| ==> batch[j] < |db.outbox|
    ensures MarkAll(db, batch[..k + 1], outcomes[..k + 1]) ==
            var before := MarkAll(db, batch[..k], outcomes[..k]);
            if Marks(outcomes[k]) then MarkProcessed(before, db.outbox[batch[k]].id) else before
    ensures SentBy(batch[..k + 1], outcomes[..k + 1]) ==
            SentBy(batch[..k], outcomes[..k]) + Repeat(batch[k], outcomes[k].copies)
  {
    assert batch[..k + 1][..k] == batch[..k] && outcomes[..k + 1][..k] == outcomes[..k];
  }

  /* One tick: every row of the batch is published, and marked when that succeeded; errors are skipped. */
  method Tick(repo: Repo, batch: seq<nat>, outcomes: seq<Outcome>) returns (sent: seq<nat>)
    requires repo.Valid() && Relay.IsFetch(repo.db.outbox, Relay.BATCH, batch)
    requires |outcomes| == |batch|
    modifies repo`db
    ensures repo.Valid() && (old(repo.Sound()) ==> repo.Sound()) && repo.db == MarkAll(old(repo.db), batch, outcomes)
    ensures sent == SentBy(batch, outcomes)
  {
    var before: Db := repo.db;
    sent := [];
    assert batch[..0] == [] && outcomes[..0] == [];
    for k := 0 to |batch|
      invariant repo.Valid() && (old(repo.Sound()) ==> repo.Sound()) && repo.db == MarkAll(before, batch[..k], outcomes[..k])
      invariant sent == SentBy(batch[..k], outcomes[..k])
    {
      TickOneMore(before, batch, outcomes, k);
      sent := sent + Repeat(batch[k], outcomes[k].copies);
      if outcomes[k].PublishFailed? { continue; }
      var _ := repo.MarkOutboxEventProcessed(before.outbox[batch[k]].id, MarkFault(outcomes[k]));
    }
    assert batch[..|batch|] == batch && outcomes[..|batch|] == outcomes;
  }

  /* When nothing fails, the tick of one worker drains its batch as any pool of workers does. */
  lemma {:induction false} CleanTickDrains(db: Db, batch: seq<nat>, outcomes: seq<Outcome>)
    requires |outcomes| == |batch| && RowIdsDistinct(db.outbox) && Relay.IsFetch(db.outbox, Relay.BATCH, batch)
    requires forall k :: 0 <= k < |batch| ==> Marks(outcomes[k])
    ensures Relay.Drained(db.outbox, batch, MarkAll(db, batch, outcomes).outbox)
  {
    MarkAllWorksOff(db, batch, outcomes, |batch|);
    assert batch[..|batch|] == batch && outcomes[..|batch|] == outcomes;
    forall i | 0 <= i < |db.outbox| ensures Succeeded(batch, outcomes, |batch|, i) <==> i in batch {
      if i in batch {
        var k :| 0 <= k < |batch| && batch[k] == i;
        assert Marks(outcomes[k]);
      }
    }
  }

  /* Whatever fails, a row the tick has marked was sent. */
  lemma {:induction false} SucceededWasSent(batch: seq<nat>, outcomes: seq<Outcome>, k: nat)
    requires |outcomes| == |batch| && k < |batch| && Plausible(outcomes[k]) && Marks(outcomes[k])
    ensures batch[k] in SentBy(batch, outcomes)
  {
    var n := |batch| - 1;
    if k < n {
      SucceededWasSent(batch[..n], outcomes[..n], k);
    } else {
      assert Repeat(batch[n], outcomes[n].copies)[0] == batch[n];
    }
  }

  /******* ordersWorkers *******/

  // One turn: UpdateOrderStatus is asked, its error is logged and forgotten. received says that the message was
  // offered to its order, whatever was answered.
  method ConsumeOne(repo: Repo, m: StatusMessage, now: int, fault: Option<Call>)
    returns (answer: Answer, ghost received: bool)
    requires repo.Valid()
    modifies repo
    ensures repo.Valid() && (old(repo.Sound()) ==> repo.Sound())
    ensures fault == None || fault == Some(CommitUnacked) || answer != Failed(DatabaseFailure) ==> received
    ensures repo.db.orders == if received then ReceiveInto(old(repo.db.orders), m) else old(repo.db.orders)
  {
    ghost var orders := repo.db.orders;
    UpdateReceives(repo.db, m, repo.nextId, now);
    answer := repo.UpdateOrderStatus(m.order, m.status, now, fault);
    received := repo.db.orders == ReceiveInto(orders, m);
  }

  lemma {:induction false} ReceiveIntoOneMore(orders: map<int, OrderRow>, messages: seq<StatusMessage>, m: StatusMessage)
    ensures ReceiveAllInto(orders, messages + [m]) == ReceiveInto(ReceiveAllInto(orders, messages), m)
  {
    assert (messages + [m])[..|messages|] == messages;
  }

  // Of the first |received| messages, those that were received.
  function Picked(messages: seq<StatusMessage>, received: seq<bool>): seq<StatusMessage>
    requires |received| <= |messages|
  {
    if received == [] then []
    else
      var n := |received| - 1;
      Picked(messages, received[..n]) + if received[n] then [messages[n]] else []
  }

  lemma {:induction false} PickedOneMore(
    orders: map<int, OrderRow>, messages: seq<StatusMessage>, received: seq<bool>, r: bool)
    requires |received| < |messages|
    ensures var before := ReceiveAllInto(orders, Picked(messages, received));
      ReceiveAllInto(orders, Picked(messages, received + [r])) ==
      if r then ReceiveInto(before, messages[|received|]) else before
  {
    assert (received + [r])[..|received|] == received;
    assert Picked(messages, received) + [] == Picked(messages, received);
    ReceiveIntoOneMore(orders, Picked(messages, received), messages[|received|]);
  }

  // Nothing but a failure of the database keeps a message from being received.
  predicate Spared(fault: Option<Call>) {
    fault == None || fault == Some(CommitUnacked)
  }

  /* The consumer loop folds the topic into the orders, except exactly the messages whose update failed without effect. */
  method Consume(repo: Repo, messages: seq<StatusMessage>, now: int, faults: seq<Option<Call>>)
    returns (ghost received: seq<bool>)
    requires repo.Valid() && |faults| == |messages|
    modifies repo
    ensures repo.Valid() && (old(repo.Sound()) ==> repo.Sound()) && |received| == |messages|
    ensures forall k :: 0 <= k < |messages| && Spared(faults[k]) ==> received[k]
    ensures repo.db.orders == ReceiveAllInto(old(repo.db.orders), Picked(messages, received))
  {
    ghost var orders := repo.db.orders;
    received := [];
    for k := 0 to |messages|
      invariant repo.Valid() && (old(repo.Sound()) ==> repo.Sound()) && |received| == k
      invariant repo.db.orders == ReceiveAllInto(orders, Picked(messages, received))
      invariant forall j :: 0 <= j < k && Spared(faults[j]) ==> received[j]
    {
      var _, r := ConsumeOne(repo, messages[k], now, faults[k]);
      PickedOneMore(orders, messages, received, r);
      received := received + [r];
    }
  }

  /* Without failures of the database the whole topic is folded in. */
  lemma {:induction false} AllPicked(messages: seq<StatusMessage>, received: seq<bool>)
    requires |received| <= |messages| && forall k :: 0 <= k < |received| ==> received[k]
    ensures Picked(messages, received) == messages[..|received|]
  {
    if received != [] {
      AllPicked(messages, received[..|received| - 1]);
    }
  }
}
