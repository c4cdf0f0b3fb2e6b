/**
 Event delivery as a transition system. Every critical section, channel operation and wait-group operation of a
 producer (a command or tick), of a delivery worker and of CloseDelivery is one atomic step, so a run is any
 interleaving of any number of them over any number of lanes. Expiry of a context is a step that may happen at any time.
 */
module Delivery {
  import opened Wrappers
  import opened Domain

  type ProducerID = nat
  type WorkerID = nat
  type CloserID = nat

  const Capacity: nat := 64

  /** The events one producer hands over; a producer hands over at most one batch. */
  datatype Batch = Batch(owner: ProducerID, events: seq<Event>)

  /**
   The lane of one configuration: occupied slots, queue and worker flag; and its history: the batches enqueued and the
   batches finished, in order, and the events a publication was attempted for.
   */
  datatype Lane = Lane(slots: nat, pending: seq<Batch>, running: bool,
                       sent: seq<Batch>, finished: seq<Batch>, attempts: seq<Event>)
  {
    function Enqueue(b: Batch): Lane {
      this.(pending := pending + [b], sent := sent + [b])
    }

    function TakeSlot(): Lane {
      this.(slots := slots + 1)
    }

    function ReturnSlot(): Lane
      requires slots > 0
    {
      this.(slots := slots - 1)
    }

    function Pop(): Lane
      requires pending != []
    {
      this.(pending := pending[1..])
    }

    function Attempt(e: Event): Lane {
      this.(attempts := attempts + [e])
    }

    function Finish(b: Batch): Lane {
      this.(finished := finished + [b])
    }
  }

  const IdleLane := Lane(0, [], false, [], [], [])

  /** Where a producer is between reserveDelivery and the end of releaseAndFlush. */
  datatype Phase =
    | Waiting(lane: ConfigurationName) // for a slot
    | HasSlot(lane: ConfigurationName)
    | Refunding(lane: ConfigurationName) // found delivery closed, has to give the slot back
    | Reserved(lane: ConfigurationName) // registered as a producer
    | InCommand(lane: ConfigurationName) // holds the configuration's command lock
    | Enqueued(lane: ConfigurationName) // still holds it
    | Skipped(lane: ConfigurationName) // still holds it, generated no event
    | Unlocked(lane: ConfigurationName)
    | SkippedUnlocked(lane: ConfigurationName)
    | Started(lane: ConfigurationName)
    | Draining(lane: ConfigurationName) // has to give the slot of an empty batch back
    | Awaiting(lane: ConfigurationName) // its batch
    | Gone
  {
    /** Holds a slot that is not yet tied to an enqueued batch. */
    predicate Holds(c: ConfigurationName) {
      (HasSlot? || Refunding? || Reserved? || InCommand? || Skipped? || SkippedUnlocked? || Draining?) && lane == c
    }

    /** Counted by the producers' wait group. */
    predicate Counted() {
      Reserved? || InCommand? || Enqueued? || Skipped? || Unlocked? || SkippedUnlocked? || Started?
    }

    predicate Locks(c: ConfigurationName) {
      (InCommand? || Enqueued? || Skipped?) && lane == c
    }

    /** Has enqueued a batch and will still make sure that a worker runs. */
    predicate WillStart(c: ConfigurationName) {
      (Enqueued? || Unlocked?) && lane == c
    }

    predicate HasSent() {
      Enqueued? || Unlocked? || Started? || Awaiting? || Gone?
    }
  }

  datatype WorkerPhase =
    | Looking(lane: ConfigurationName) // at the top of its loop
    | Delivering(lane: ConfigurationName, batch: Batch, attempted: nat)
    | Returning(lane: ConfigurationName) // its batch is done, has to give the slot back
    | Exiting(lane: ConfigurationName)
    | Ended
  {
    predicate Loops(c: ConfigurationName) {
      (Looking? || Delivering? || Returning?) && lane == c
    }

    predicate Carries(c: ConfigurationName) {
      (Delivering? || Returning?) && lane == c
    }
  }

  datatype CloserPhase = AwaitingProducers | AwaitingWorkers | Cancelling | Drained | Unused | Expired

  datatype System = System(
    lanes: map<ConfigurationName, Lane>,
    initialised: bool,
    closed: bool,
    producers: nat,
    workers: nat,
    locks: map<ConfigurationName, ProducerID>,
    procs: map<ProducerID, Phase>,
    works: map<WorkerID, WorkerPhase>,
    closers: map<CloserID, CloserPhase>,
    done: set<ProducerID>)
  {
    function LaneOf(c: ConfigurationName): Lane {
      if c in lanes then lanes[c] else IdleLane
    }

    function SetLane(c: ConfigurationName, l: Lane): System {
      this.(lanes := lanes[c := l])
    }

    function SetProc(p: ProducerID, ph: Phase): System {
      this.(procs := procs[p := ph])
    }

    function SetCloser(k: CloserID, ph: CloserPhase): System {
      this.(closers := closers[k := ph])
    }
  }

  const Start := System(map[], false, false, 0, 0, map[], map[], map[], map[], {})

  datatype Action =
    | Arrive(p: ProducerID, c: ConfigurationName)
    | Acquire(p: ProducerID)
    | GiveUp(p: ProducerID)
    | SeeClosing(p: ProducerID)
    | Confirm(p: ProducerID)
    | Refund(p: ProducerID)
    | Lock(p: ProducerID)
    | Generate(p: ProducerID, events: seq<Event>)
    | Unlock(p: ProducerID)
    | Wake(p: ProducerID, w: WorkerID)
    | Leave(p: ProducerID)
    | Drain(p: ProducerID)
    | SeeDone(p: ProducerID)
    | Abandon(p: ProducerID)
    | Look(w: WorkerID)
    | Publish(w: WorkerID)
    | Finish(w: WorkerID)
    | Return(w: WorkerID)
    | Exit(w: WorkerID)
    | Close(k: CloserID)
    | ProducersDone(k: CloserID)
    | WorkersDone(k: CloserID)
    | Expire(k: CloserID)

  // ----- one step of a producer

  datatype LockUse = Keep | Take | Release

  /** What a step does: the producer's next phase, its lane, the producers' wait group, the command lock, a new worker. */
  datatype Effect = Effect(phase: Phase, lane: Lane, registered: int, lock: LockUse, spawn: bool)

  predicate IsProducer(a: Action) {
    a.Acquire? || a.GiveUp? || a.SeeClosing? || a.Confirm? || a.Refund? || a.Lock? || a.Generate? || a.Unlock? || a.Wake?
    || a.Leave? || a.Drain? || a.SeeDone? || a.Abandon?
  }

  /**
   The step of a producer in phase `ph` whose lane is `l`; `None` if it is not at that step or would block. The rest of
   the system bears on it only through the closed flag, whether the command lock is free, and whether its batch is done.
   */
  function ProducerMove(a: Action, ph: Phase, l: Lane, closed: bool, free: bool, done: bool): Option<Effect>
    requires IsProducer(a) && !ph.Gone?
  {
    var c := ph.lane;
    match a
    case Acquire(_) =>
      if ph.Waiting? && l.slots < Capacity then Some(Effect(HasSlot(c), l.TakeSlot(), 0, Keep, false)) else None
    case GiveUp(_) => if ph.Waiting? then Some(Effect(Gone, l, 0, Keep, false)) else None
    case SeeClosing(_) => if ph.Waiting? && closed then Some(Effect(Gone, l, 0, Keep, false)) else None
    case Confirm(_) =>
      if !ph.HasSlot? then None
      else if closed then Some(Effect(Refunding(c), l, 0, Keep, false))
      else Some(Effect(Reserved(c), l, 1, Keep, false))
    case Refund(_) =>
      if ph.Refunding? && l.slots > 0 then Some(Effect(Gone, l.ReturnSlot(), 0, Keep, false)) else None
    case Lock(_) => if ph.Reserved? && free then Some(Effect(InCommand(c), l, 0, Take, false)) else None
    case Generate(p, events) =>
      if !ph.InCommand? then None
      else if events == [] then Some(Effect(Skipped(c), l, 0, Keep, false))
      else Some(Effect(Enqueued(c), l.Enqueue(Batch(p, events)), 0, Keep, false))
    case Unlock(_) =>
      if ph.Enqueued? then Some(Effect(Unlocked(c), l, 0, Release, false))
      else if ph.Skipped? then Some(Effect(SkippedUnlocked(c), l, 0, Release, false))
      else None
    case Wake(_, _) =>
      if ph.Unlocked? then Some(Effect(Started(c), l.(running := true), 0, Keep, !l.running)) else None
    case Leave(_) =>
      if ph.Started? then Some(Effect(Awaiting(c), l, -1, Keep, false))
      else if ph.SkippedUnlocked? then Some(Effect(Draining(c), l, -1, Keep, false))
      else None
    case Drain(_) =>
      if ph.Draining? && l.slots > 0 then Some(Effect(Gone, l.ReturnSlot(), 0, Keep, false)) else None
    case SeeDone(_) => if ph.Awaiting? && done then Some(Effect(Gone, l, 0, Keep, false)) else None
    case Abandon(_) => if ph.Awaiting? then Some(Effect(Gone, l, 0, Keep, false)) else None
  }

  function UseLock(locks: map<ConfigurationName, ProducerID>, c: ConfigurationName, p: ProducerID, use: LockUse):
    map<ConfigurationName, ProducerID>
  {
    match use
    case Keep => locks
    case Take => locks[c := p]
    case Release => locks - {c}
  }

  /** A wait group below zero panics; the proofs show that this never blocks a step. */
  function ProducerStep(s: System, a: Action): Option<System>
    requires IsProducer(a)
  {
    if a.p !in s.procs || s.procs[a.p].Gone? then None
    else
      var c := s.procs[a.p].lane;
      match ProducerMove(a, s.procs[a.p], s.LaneOf(c), s.closed, c !in s.locks, a.p in s.done)
      case None => None
      case Some(e) =>
        if s.producers + e.registered < 0 || (e.spawn && a.w in s.works) then None
        else Some(s.(lanes := s.lanes[c := e.lane], procs := s.procs[a.p := e.phase],
                     producers := s.producers + e.registered, locks := UseLock(s.locks, c, a.p, e.lock),
                     workers := if e.spawn then s.workers + 1 else s.workers,
                     works := if e.spawn then s.works[a.w := Looking(c)] else s.works))
  }

  // ----- one step of a worker

  datatype WorkEffect = WorkEffect(phase: WorkerPhase, lane: Lane, ended: bool, done: set<ProducerID>)

  predicate IsWorker(a: Action) {
    a.Look? || a.Publish? || a.Finish? || a.Return? || a.Exit?
  }

  /** The step of a worker in phase `ph` whose lane is `l`. */
  function WorkerMove(a: Action, ph: WorkerPhase, l: Lane): Option<WorkEffect>
    requires IsWorker(a) && !ph.Ended?
  {
    var c := ph.lane;
    match a
    case Look(_) =>
      if !ph.Looking? then None
      else if l.pending == [] then Some(WorkEffect(Exiting(c), l.(running := false), false, {}))
      else Some(WorkEffect(Delivering(c, l.pending[0], 0), l.Pop(), false, {}))
    case Publish(_) =>
      if ph.Delivering? && ph.attempted < |ph.batch.events|
      then Some(WorkEffect(Delivering(c, ph.batch, ph.attempted + 1), l.Attempt(ph.batch.events[ph.attempted]), false, {}))
      else None
    case Finish(_) =>
      if ph.Delivering? && ph.attempted >= |ph.batch.events|
      then Some(WorkEffect(Returning(c), l.Finish(ph.batch), false, {ph.batch.owner}))
      else None
    case Return(_) =>
      if ph.Returning? && l.slots > 0 then Some(WorkEffect(Looking(c), l.ReturnSlot(), false, {})) else None
    case Exit(_) => if ph.Exiting? then Some(WorkEffect(Ended, l, true, {})) else None
  }

  function WorkerStep(s: System, a: Action): Option<System>
    requires IsWorker(a)
  {
    if a.w !in s.works || s.works[a.w].Ended? then None
    else
      var c := s.works[a.w].lane;
      match WorkerMove(a, s.works[a.w], s.LaneOf(c))
      case None => None
      case Some(e) =>
        if e.ended && s.workers == 0 then None
        else Some(s.(lanes := s.lanes[c := e.lane], works := s.works[a.w := e.phase], done := s.done + e.done,
                     workers := if e.ended then s.workers - 1 else s.workers))
  }

  // ----- one step of CloseDelivery

  predicate IsCloser(a: Action) {
    a.Close? || a.ProducersDone? || a.WorkersDone? || a.Expire?
  }

  function CloserStep(s: System, a: Action): Option<System>
    requires IsCloser(a)
  {
    match a
    case Close(k) =>
      if k in s.closers then None
      else if !s.initialised then Some(s.SetCloser(k, Unused))
      else Some(s.(closed := true).SetCloser(k, AwaitingProducers))
    case ProducersDone(k) =>
      if k in s.closers && s.closers[k].AwaitingProducers? && s.producers == 0 then Some(s.SetCloser(k, AwaitingWorkers))
      else None
    case WorkersDone(k) =>
      if k !in s.closers || s.workers != 0 then None
      else if s.closers[k].AwaitingWorkers? then Some(s.SetCloser(k, Drained))
      else if s.closers[k].Cancelling? then Some(s.SetCloser(k, Expired))
      else None
    case Expire(k) =>
      if k !in s.closers then None
      else if s.closers[k].AwaitingProducers? then Some(s.SetCloser(k, Expired))
      else if s.closers[k].AwaitingWorkers? then Some(s.SetCloser(k, Cancelling))
      else None
  }

  /** The first critical section of reserveDelivery. */
  function ArriveStep(s: System, p: ProducerID, c: ConfigurationName): Option<System> {
    if p in s.procs then None
    else if s.closed then Some(s.(initialised := true).SetProc(p, Gone))
    else Some(s.(initialised := true).SetProc(p, Waiting(c)))
  }

  function Next(s: System, a: Action): Option<System> {
    match a
    case Arrive(p, c) => ArriveStep(s, p, c)
    case Look(_) | Publish(_) | Finish(_) | Return(_) | Exit(_) => WorkerStep(s, a)
    case Close(_) | ProducersDone(_) | WorkersDone(_) | Expire(_) => CloserStep(s, a)
    case _ => ProducerStep(s, a)
  }

  ghost predicate Reachable(s: System) {
    exists actions: seq<Action> :: Run(Start, actions) == Some(s)
  }

  function Run(s: System, actions: seq<Action>): Option<System>
    decreases |actions|
  {
    if actions == [] then Some(s)
    else match Next(s, actions[0])
      case None => None
      case Some(t) => Run(t, actions[1..])
  }
}
