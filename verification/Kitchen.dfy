/**
 The restaurant's own service: two pollers and one goroutine per order that share two maps and a
 WaitGroup. Every step is one operation on a map, the WaitGroup, a context or the broker, so runs
 interleave as freely as goroutines do. A step that is not possible leaves the state as it is.
 */
module Kitchen {
  import opened Common
  import opened Statuses
  import opened StatusTopic

  // Where processOrder stands. Loading to Leaving are its deferred calls.
  datatype Pc =
    | Starting
    | Publishing(rank: nat)
    | Sleeping(rank: nat)
    | Loading
    | Deleting(found: int)
    | Releasing(found: int)
    | Leaving

  datatype Pipeline = Pipeline(order: int, pc: Pc)

  // gen identifies a context together with its cancel function.
  datatype OrderPoller =
    | Reading
    | CheckingActive(order: int)
    | CheckingCancelled(order: int)
    | Storing(order: int)
    | Adding(order: int, gen: int)
    | Spawning(order: int, gen: int)
    | Finishing
    | Finished

  datatype CancelPoller =
    | Waiting
    | LookingUp(order: int)
    | Calling(gen: int)
    | Noting(order: int)
    | Stopping
    | Stopped

  /*
   active is activeOrders, noted is cancelledOrders; revoked holds the contexts whose cancel function
   was called; shutdown says that the pollers' context, the parent of all others, is cancelled;
   topic is the status topic, which outlives the process.
   */
  datatype Kitchen = Kitchen(
    active: map<int, int>,
    noted: set<int>,
    pipes: map<int, Pipeline>,
    revoked: set<int>,
    orders: OrderPoller,
    cancels: CancelPoller,
    wg: int,
    shutdown: bool,
    nextGen: int,
    topic: seq<StatusMessage>)

  // The process right after it has started both pollers.
  function Started(nextGen: int, topic: seq<StatusMessage>): Kitchen {
    Kitchen(map[], {}, map[], {}, Reading, Waiting, 2, false, nextGen, topic)
  }

  datatype Step =
    // pollKafkaOrders
    | ReadOrder(order: int)
    | StopReading
    | LookUpActive
    | LookUpNoted
    | StoreActive
    | AddOne
    | Spawn
    | OrdersDone
    // pollKafkaCancelledOrders
    | ReadCancel(order: int)
    | StopWaiting
    | LookUpForCancel
    | CallCancel
    | NoteCancel
    | CancelsDone
    // processOrder; a publish may append several copies, or some and still report an error
    | CheckContext(gen: int)
    | Publish(gen: int, copies: nat, ok: bool)
    | Sleep(gen: int, elapsed: bool)
    | LoadOwn(gen: int)
    | DeleteOwn(gen: int)
    | ReleaseOwn(gen: int)
    | PipeDone(gen: int)
    // the whole process
    | ShutDown
    | Restart

  // ctx.Err() of the context of a pipeline.
  predicate ContextOver(k: Kitchen, gen: int) {
    gen in k.revoked || k.shutdown
  }

  function MovePipe(k: Kitchen, gen: int, pc: Pc): Kitchen
    requires gen in k.pipes
  {
    k.(pipes := k.pipes[gen := k.pipes[gen].(pc := pc)])
  }

  /*** pollKafkaOrders ***/

  function DoLookUpActive(k: Kitchen): Kitchen {
    if !k.orders.CheckingActive? then k
    else k.(orders := if k.orders.order in k.active then Reading else CheckingCancelled(k.orders.order))
  }

  function DoLookUpNoted(k: Kitchen): Kitchen {
    if !k.orders.CheckingCancelled? then k
    else k.(orders := if k.orders.order in k.noted then Reading else Storing(k.orders.order))
  }

  function DoStoreActive(k: Kitchen): Kitchen {
    if !k.orders.Storing? then k
    else
      var o := k.orders.order;
      k.(active := k.active[o := k.nextGen], orders := Adding(o, k.nextGen), nextGen := k.nextGen + 1)
  }

  function DoAddOne(k: Kitchen): Kitchen {
    if !k.orders.Adding? then k
    else k.(wg := k.wg + 1, orders := Spawning(k.orders.order, k.orders.gen))
  }

  function DoSpawn(k: Kitchen): Kitchen {
    if !k.orders.Spawning? then k
    else k.(pipes := k.pipes[k.orders.gen := Pipeline(k.orders.order, Starting)], orders := Reading)
  }

  /*** pollKafkaCancelledOrders ***/

  function DoLookUpForCancel(k: Kitchen): Kitchen {
    if !k.cancels.LookingUp? then k
    else
      var o := k.cancels.order;
      k.(cancels := if o in k.active then Calling(k.active[o]) else Noting(o))
  }

  function DoCallCancel(k: Kitchen): Kitchen {
    if !k.cancels.Calling? then k else k.(revoked := k.revoked + {k.cancels.gen}, cancels := Waiting)
  }

  function DoNoteCancel(k: Kitchen): Kitchen {
    if !k.cancels.Noting? then k else k.(noted := k.noted + {k.cancels.order}, cancels := Waiting)
  }

  /*** processOrder ***/

  predicate At(k: Kitchen, gen: int, pc: Pc) {
    gen in k.pipes && k.pipes[gen].pc == pc
  }

  function DoCheckContext(k: Kitchen, gen: int): Kitchen {
    if !At(k, gen, Starting) then k
    else MovePipe(k, gen, if ContextOver(k, gen) then Loading else Publishing(1))
  }

  predicate CanPublish(k: Kitchen, gen: int, copies: nat, ok: bool) {
    gen in k.pipes && k.pipes[gen].pc.Publishing? && (ok ==> copies > 0)
  }

  function AfterPublish(rank: nat, ok: bool): Pc {
    if ok && rank < LAST then Sleeping(rank) else Loading
  }

  function Published(k: Kitchen, gen: int, copies: nat, ok: bool): Kitchen
    requires CanPublish(k, gen, copies, ok)
  {
    var rank := k.pipes[gen].pc.rank;
    var m := StatusMessage(k.pipes[gen].order, KitchenStatus(rank));
    MovePipe(k, gen, AfterPublish(rank, ok)).(topic := k.topic + Repeat(m, copies))
  }

  // sleepContext: false only when the context is over; when both are ready the select picks either.
  function DoSleep(k: Kitchen, gen: int, elapsed: bool): Kitchen {
    if gen !in k.pipes || !k.pipes[gen].pc.Sleeping? || !(elapsed || ContextOver(k, gen)) then k
    else MovePipe(k, gen, if elapsed then Publishing(k.pipes[gen].pc.rank + 1) else Loading)
  }

  // The deferred function works with whatever cancel function the map holds for the order.
  function DoLoadOwn(k: Kitchen, gen: int): Kitchen {
    if !At(k, gen, Loading) then k
    else
      var o := k.pipes[gen].order;
      MovePipe(k, gen, if o in k.active then Deleting(k.active[o]) else Leaving)
  }

  function DoDeleteOwn(k: Kitchen, gen: int): Kitchen {
    if gen !in k.pipes || !k.pipes[gen].pc.Deleting? then k
    else MovePipe(k, gen, Releasing(k.pipes[gen].pc.found)).(active := k.active - {k.pipes[gen].order})
  }

  function DoReleaseOwn(k: Kitchen, gen: int): Kitchen {
    if gen !in k.pipes || !k.pipes[gen].pc.Releasing? then k
    else MovePipe(k, gen, Leaving).(revoked := k.revoked + {k.pipes[gen].pc.found})
  }

  function DoPipeDone(k: Kitchen, gen: int): Kitchen {
    if !At(k, gen, Leaving) then k else k.(pipes := k.pipes - {gen}, wg := k.wg - 1)
  }

  function DoPoll(k: Kitchen, step: Step): Kitchen
    requires !OfPipe(step)
  {
    match step
    case ReadOrder(o) => if k.orders.Reading? then k.(orders := CheckingActive(o)) else k
    case StopReading => if k.orders.Reading? && k.shutdown then k.(orders := Finishing) else k
    case LookUpActive => DoLookUpActive(k)
    case LookUpNoted => DoLookUpNoted(k)
    case StoreActive => DoStoreActive(k)
    case AddOne => DoAddOne(k)
    case Spawn => DoSpawn(k)
    case OrdersDone => if k.orders.Finishing? then k.(orders := Finished, wg := k.wg - 1) else k
    case ReadCancel(o) => if k.cancels.Waiting? then k.(cancels := LookingUp(o)) else k
    case StopWaiting => if k.cancels.Waiting? && k.shutdown then k.(cancels := Stopping) else k
    case LookUpForCancel => DoLookUpForCancel(k)
    case CallCancel => DoCallCancel(k)
    case NoteCancel => DoNoteCancel(k)
    case CancelsDone => if k.cancels.Stopping? then k.(cancels := Stopped, wg := k.wg - 1) else k
    case ShutDown => k.(shutdown := true)
    case Restart => Started(k.nextGen, k.topic)
  }

  predicate OfPipe(step: Step) {
    step.CheckContext? || step.Publish? || step.Sleep? || step.LoadOwn? || step.DeleteOwn? || step.ReleaseOwn? || step.PipeDone?
  }

  function DoPipe(k: Kitchen, step: Step): Kitchen
    requires OfPipe(step)
  {
    match step
    case CheckContext(g) => DoCheckContext(k, g)
    case Publish(g, copies, ok) => if CanPublish(k, g, copies, ok) then Published(k, g, copies, ok) else k
    case Sleep(g, elapsed) => DoSleep(k, g, elapsed)
    case LoadOwn(g) => DoLoadOwn(k, g)
    case DeleteOwn(g) => DoDeleteOwn(k, g)
    case ReleaseOwn(g) => DoReleaseOwn(k, g)
    case PipeDone(g) => DoPipeDone(k, g)
  }

  function Do(k: Kitchen, step: Step): Kitchen {
    if OfPipe(step) then DoPipe(k, step) else DoPoll(k, step)
  }

  function Run(k: Kitchen, steps: seq<Step>): Kitchen {
    if steps == [] then k else Do(Run(k, steps[..|steps| - 1]), steps[|steps| - 1])
  }
}
