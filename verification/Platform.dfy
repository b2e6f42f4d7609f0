/**
 Everything together: the order store with its concurrent transactions, the outbox relay, the topics,
 the restaurant, and the one consumer that carries the status topic back into the store. A step that
 is not possible leaves the state as it is, so every sequence of steps is a run.
 */
module Platform {
  import opened Common
  import opened Delivery
  import opened Statuses
  import opened StatusTopic
  import opened Tables
  import S = Store
  import K = Kitchen
  import StoreRuns

  datatype Message = Message(topic: Topic, key: int, payload: Payload)

  // A fetched row on its way through a worker of some replica; sent once its publish succeeded.
  datatype Job = Job(row: OutboxRow, sent: bool)

  // The transaction of the consumer, and the message it is for.
  datatype Underway = Underway(t: int, m: StatusMessage)

  /*
   log is everything published on the created and cancelled topics. The status topic has partitions and
   keeps the messages of one order in order, so the consumer is described order by order: offsets says how
   many messages about an order it has read, seen how many it has ever read. lost collects the orders of
   which it dropped an update, partnered those a partner tried to move.
   */
  datatype Platform = Platform(
    store: S.Store,
    jobs: map<int, Job>,
    log: seq<Message>,
    kitchen: K.Kitchen,
    offsets: map<int, nat>,
    seen: map<int, nat>,
    consuming: Option<Underway>,
    lost: set<int>,
    partnered: set<int>)

  datatype Step =
    // clients, partners, and the statements of every transaction
    | InStore(store: S.Step)
    // outboxWorkers, of any number of replicas with any number of workers
    | Fetch(job: int, i: nat)
    | PublishJob(job: int, copies: nat, ok: bool)
    | MarkJob(job: int, ok: bool)
    | DropJob(job: int)
    // the restaurant
    | InKitchen(kitchen: K.Step)
    // ordersWorkers; a rebalance may take the consumer back
    | Consume(t: int, order: int)
    | Rewind(order: int, offset: nat)

  function MessageOf(row: OutboxRow): Message {
    Message(row.topic, row.key, row.payload)
  }

  // The message has the columns of the row.
  predicate Tells(m: Message, row: OutboxRow) {
    m.topic == row.topic && m.key == row.key && m.payload == row.payload
  }

  // Some message of the topic is about the order; it may be read at any time, and read again.
  ghost predicate Announced(log: seq<Message>, topic: Topic, order: int) {
    exists i :: 0 <= i < |log| && log[i].topic == topic && log[i].payload.orderId == order
  }

  function Count(counts: map<int, nat>, order: int): nat {
    if order in counts then counts[order] else 0
  }

  // What the status topic has about the order.
  function MessagesOf(p: Platform, order: int): seq<Status> {
    StatusesOf(p.kitchen.topic, order)
  }

  // The consumer is through with the message under way.
  function Consumed(p: Platform, dropped: bool): Platform
    requires p.consuming.Some?
  {
    var o := p.consuming.value.m.order;
    var offset := Count(p.offsets, o);
    p.(offsets := p.offsets[o := offset + 1],
       seen := p.seen[o := Advanced(offset, Count(p.seen, o))],
       consuming := None,
       lost := if dropped then p.lost + {o} else p.lost)
  }

  ghost function DoInStore(p: Platform, step: S.Step): Platform {
    if step.Mark? || step.ConsumerRequest? then p
    else
      var q := p.(store := S.Do(p.store, step),
                  partnered := if step.PartnerRequest? then p.partnered + {step.order} else p.partnered);
      if p.consuming.Some? && p.consuming.value.t !in q.store.txs then Consumed(q, step.Abort?) else q
  }

  function DoFetch(p: Platform, job: int, i: nat): Platform {
    if job in p.jobs || i >= |p.store.db.outbox| || p.store.db.outbox[i].processed then p
    else p.(jobs := p.jobs[job := Job(p.store.db.outbox[i], false)])
  }

  predicate CanPublish(p: Platform, job: int, copies: nat, ok: bool) {
    job in p.jobs && !p.jobs[job].sent && (ok ==> copies > 0)
  }

  // A failed publish leaves the row unprocessed; it may have been appended all the same.
  function JobPublished(p: Platform, job: int, copies: nat, ok: bool): Platform
    requires job in p.jobs
  {
    var row := p.jobs[job].row;
    p.(log := p.log + Repeat(MessageOf(row), copies),
       jobs := if ok then p.jobs[job := Job(row, true)] else p.jobs - {job})
  }

  function DoMarkJob(p: Platform, job: int, ok: bool): Platform {
    if job !in p.jobs || !p.jobs[job].sent then p
    else
      p.(store := if ok then S.DoMark(p.store, p.jobs[job].row.id) else p.store, jobs := p.jobs - {job})
  }

  ghost predicate Deliverable(p: Platform, step: K.Step) {
    && (step.ReadOrder? ==> Announced(p.log, OrdersTopic, step.order))
    && (step.ReadCancel? ==> Announced(p.log, CancelTopic, step.order))
  }

  predicate CanConsume(p: Platform, t: int, order: int) {
    p.consuming == None && Count(p.offsets, order) < |MessagesOf(p, order)| && t !in p.store.txs
  }

  // ReadMessage commits the offset before the update is tried: whatever ends the update without effect,
  // a failure or a crash, drops it. That is an abort of the transaction under way.
  function DoConsume(p: Platform, t: int, order: int): Platform {
    if !CanConsume(p, t, order) then p
    else
      var m := StatusMessage(order, MessagesOf(p, order)[Count(p.offsets, order)]);
      p.(store := S.DoConsumerRequest(p.store, t, m.order, m.status), consuming := Some(Underway(t, m)))
  }

  // A rebalance takes the consumer back to an offset that was committed earlier, partition by partition.
  function DoRewind(p: Platform, order: int, offset: nat): Platform {
    if offset > Count(p.offsets, order) || (p.consuming.Some? && p.consuming.value.m.order == order) then p
    else p.(offsets := p.offsets[order := offset])
  }

  ghost function Do(p: Platform, step: Step): Platform {
    match step
    case InStore(st) => DoInStore(p, st)
    case Fetch(job, i) => DoFetch(p, job, i)
    case PublishJob(job, copies, ok) => if CanPublish(p, job, copies, ok) then JobPublished(p, job, copies, ok) else p
    case MarkJob(job, ok) => DoMarkJob(p, job, ok)
    case DropJob(job) => p.(jobs := p.jobs - {job})
    case InKitchen(k) => if Deliverable(p, k) then p.(kitchen := K.Do(p.kitchen, k)) else p
    case Consume(t, order) => DoConsume(p, t, order)
    case Rewind(order, offset) => DoRewind(p, order, offset)
  }

  ghost function Run(p: Platform, steps: seq<Step>): Platform {
    if steps == [] then p else Do(Run(p, steps[..|steps| - 1]), steps[|steps| - 1])
  }

  function Fresh(restaurants: map<int, bool>): Platform {
    Platform(StoreRuns.EmptyStore(restaurants), map[], [], K.Started(0, []), map[], map[], None, {}, {})
  }
}
