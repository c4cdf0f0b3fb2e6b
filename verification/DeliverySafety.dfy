/**
 What every reachable state of event delivery satisfies: slots are conserved, each lane has at most one looping worker,
 no batch is left without someone who will deliver it, batches are delivered in order and each exactly once, and
 nothing is added to a wait group that is being waited for.
 */
module DeliverySafety {
  import opened Wrappers
  import opened Domain
  import opened Delivery

  // ----- counting processes

  function Holders(procs: map<ProducerID, Phase>, c: ConfigurationName): set<ProducerID> {
    set p | p in procs && procs[p].Holds(c)
  }

  function Carriers(works: map<WorkerID, WorkerPhase>, c: ConfigurationName): set<WorkerID> {
    set w | w in works && works[w].Carries(c)
  }

  function Registered(procs: map<ProducerID, Phase>): set<ProducerID> {
    set p | p in procs && procs[p].Counted()
  }

  function Alive(works: map<WorkerID, WorkerPhase>): set<WorkerID> {
    set w | w in works && !works[w].Ended?
  }

  function Resize(n: nat, before: bool, after: bool): int {
    n + (if after then 1 else 0) - (if before then 1 else 0)
  }

  lemma HoldersMove(procs: map<ProducerID, Phase>, p: ProducerID, ph: Phase, c: ConfigurationName)
    ensures |Holders(procs[p := ph], c)| == Resize(|Holders(procs, c)|, p in procs && procs[p].Holds(c), ph.Holds(c))
  {
    var a, b := Holders(procs, c), Holders(procs[p := ph], c);
    assert b == if ph.Holds(c) then a + {p} else a - {p};
  }

  lemma RegisteredMove(procs: map<ProducerID, Phase>, p: ProducerID, ph: Phase)
    ensures |Registered(procs[p := ph])| == Resize(|Registered(procs)|, p in procs && procs[p].Counted(), ph.Counted())
  {
    var a, b := Registered(procs), Registered(procs[p := ph]);
    assert b == if ph.Counted() then a + {p} else a - {p};
  }

  lemma CarriersMove(works: map<WorkerID, WorkerPhase>, w: WorkerID, ph: WorkerPhase, c: ConfigurationName)
    ensures |Carriers(works[w := ph], c)| == Resize(|Carriers(works, c)|, w in works && works[w].Carries(c), ph.Carries(c))
  {
    var a, b := Carriers(works, c), Carriers(works[w := ph], c);
    assert b == if ph.Carries(c) then a + {w} else a - {w};
  }

  lemma AliveMove(works: map<WorkerID, WorkerPhase>, w: WorkerID, ph: WorkerPhase)
    ensures |Alive(works[w := ph])| == Resize(|Alive(works)|, w in works && !works[w].Ended?, !ph.Ended?)
  {
    var a, b := Alive(works), Alive(works[w := ph]);
    assert b == if !ph.Ended? then a + {w} else a - {w};
  }

  // ----- the shape of a step

  /** A step of CloseDelivery touches only the closers and the closed flag. */
  lemma CloserEffect(s: System, a: Action, t: System)
    requires IsCloser(a) && CloserStep(s, a) == Some(t)
    ensures t == s.(closed := t.closed, closers := t.closers) && (s.closed ==> t.closed)
  {
    hide System.SetCloser;
    if a.Close? {
      ClosersOnly(s, a.k, Unused);
      ClosersOnly(s.(closed := true), a.k, AwaitingProducers);
    } else if a.ProducersDone? {
      ClosersOnly(s, a.k, AwaitingWorkers);
    } else if a.WorkersDone? {
      ClosersOnly(s, a.k, Drained);
      ClosersOnly(s, a.k, Expired);
    } else {
      ClosersOnly(s, a.k, Expired);
      ClosersOnly(s, a.k, Cancelling);
    }
  }

  lemma ClosersOnly(s: System, k: CloserID, ph: CloserPhase)
    ensures var t := s.SetCloser(k, ph); t == s.(closers := t.closers)
  {
  }

  /** An arrival adds one producer, which waits for a slot or, once delivery is closed, is turned away. */
  lemma ArriveEffect(s: System, p: ProducerID, c: ConfigurationName, t: System)
    requires ArriveStep(s, p, c) == Some(t)
    ensures p !in s.procs
    ensures t == s.(initialised := true, procs := s.procs[p := if s.closed then Gone else Waiting(c)])
  {
  }

  /** A step of a producer or worker changes one lane. */
  lemma OneLane(s: System, d: ConfigurationName, l: Lane, t: System, c: ConfigurationName)
    requires t.lanes == s.lanes[d := l]
    ensures t.LaneOf(c) == if c == d then l else s.LaneOf(c)
  {
  }

  lemma SameLane(s: System, t: System, c: ConfigurationName)
    requires t.lanes == s.lanes
    ensures t.LaneOf(c) == s.LaneOf(c)
  {
  }

  // ----- slots

  /** The occupied slots are those of the producers holding one, of the queued batches, and of the batch in delivery. */
  predicate SlotsAt(s: System, c: ConfigurationName) {
    s.LaneOf(c).slots == |Holders(s.procs, c)| + |s.LaneOf(c).pending| + |Carriers(s.works, c)| <= Capacity
  }

  lemma ProducerMoveSlots(a: Action, ph: Phase, l: Lane, closed: bool, free: bool, done: bool)
    requires IsProducer(a) && !ph.Gone? && l.slots <= Capacity && ProducerMove(a, ph, l, closed, free, done).Some?
    ensures var e := ProducerMove(a, ph, l, closed, free, done).value;
            && e.lane.slots <= Capacity
            && e.lane.slots - |e.lane.pending|
               == Resize(l.slots, ph.Holds(ph.lane), e.phase.Holds(ph.lane)) - |l.pending|
            && (e.phase.Gone? || e.phase.lane == ph.lane) && (e.spawn ==> a.Wake?)
  {
  }

  /** How a producer's step changes the system, in the terms of its effect. */
  ghost predicate Affected(s: System, p: ProducerID, w: WorkerID, e: Effect, t: System) {
    && p in s.procs && !s.procs[p].Gone?
    && var c := s.procs[p].lane;
       && s.producers + e.registered >= 0 && (e.spawn ==> w !in s.works)
       && t == s.(lanes := s.lanes[c := e.lane], procs := s.procs[p := e.phase], producers := s.producers + e.registered,
                  locks := UseLock(s.locks, c, p, e.lock), workers := if e.spawn then s.workers + 1 else s.workers,
                  works := if e.spawn then s.works[w := Looking(c)] else s.works)
  }

  lemma ProducerEffect(s: System, a: Action, t: System) returns (e: Effect, w: WorkerID)
    requires IsProducer(a) && ProducerStep(s, a) == Some(t)
    ensures Affected(s, a.p, w, e, t)
    ensures ProducerMove(a, s.procs[a.p], s.LaneOf(s.procs[a.p].lane), s.closed, s.procs[a.p].lane !in s.locks, a.p in s.done)
         == Some(e)
  {
    hide ProducerMove, UseLock, System.LaneOf;
    var c := s.procs[a.p].lane;
    e := ProducerMove(a, s.procs[a.p], s.LaneOf(c), s.closed, c !in s.locks, a.p in s.done).value;
    w := if a.Wake? then a.w else 0;
    assert e.spawn ==> a.Wake? by { ProducerMoveSpawn(a, s.procs[a.p], s.LaneOf(c), s.closed, c !in s.locks, a.p in s.done); }
  }

  lemma ProducerMoveSpawn(a: Action, ph: Phase, l: Lane, closed: bool, free: bool, done: bool)
    requires IsProducer(a) && !ph.Gone? && ProducerMove(a, ph, l, closed, free, done).Some?
    ensures ProducerMove(a, ph, l, closed, free, done).value.spawn ==> a.Wake?
  {
  }

  lemma ProducerSlots(s: System, a: Action, t: System, c: ConfigurationName)
    requires IsProducer(a) && SlotsAt(s, c) && (a.p in s.procs && !s.procs[a.p].Gone? ==> SlotsAt(s, s.procs[a.p].lane))
    requires ProducerStep(s, a) == Some(t)
    ensures SlotsAt(t, c)
  {
    hide ProducerStep, ProducerMove, Holders, Carriers, UseLock, System.LaneOf;
    var e, w := ProducerEffect(s, a, t);
    var ph := s.procs[a.p];
    ProducerMoveSlots(a, ph, s.LaneOf(ph.lane), s.closed, ph.lane !in s.locks, a.p in s.done);
    HoldersMove(s.procs, a.p, e.phase, c);
    CarriersMove(s.works, w, Looking(ph.lane), c);
    OneLane(s, ph.lane, e.lane, t, c);
  }

  lemma WorkerMoveSlots(a: Action, ph: WorkerPhase, l: Lane)
    requires IsWorker(a) && !ph.Ended? && WorkerMove(a, ph, l).Some?
    ensures var e := WorkerMove(a, ph, l).value;
            && e.lane.slots <= l.slots
            && e.lane.slots - |e.lane.pending|
               == Resize(l.slots, ph.Carries(ph.lane), e.phase.Carries(ph.lane)) - |l.pending|
            && (e.phase.Ended? || e.phase.lane == ph.lane)
  {
  }

  lemma WorkerSlots(s: System, a: Action, t: System, c: ConfigurationName)
    requires IsWorker(a) && SlotsAt(s, c) && WorkerStep(s, a) == Some(t)
    ensures SlotsAt(t, c)
  {
    var ph := s.works[a.w];
    WorkerMoveSlots(a, ph, s.LaneOf(ph.lane));
    hide WorkerMove;
    CarriersMove(s.works, a.w, t.works[a.w], c);
    hide Holders, Carriers;
  }

  lemma SlotsStep(s: System, a: Action, t: System, c: ConfigurationName)
    requires (forall d :: SlotsAt(s, d)) && Next(s, a) == Some(t)
    ensures SlotsAt(t, c)
  {
    hide ProducerStep, WorkerStep, CloserStep, ArriveStep, Holders, Carriers;
    assert SlotsAt(s, c);
    if IsWorker(a) {
      WorkerSlots(s, a, t, c);
    } else if IsCloser(a) {
      CloserEffect(s, a, t);
    } else if a.Arrive? {
      ArriveEffect(s, a.p, a.c, t);
      HoldersMove(s.procs, a.p, t.procs[a.p], c);
    } else {
      ProducerSlots(s, a, t, c);
    }
  }

  // ----- wait groups

  predicate GroupsOk(s: System) {
    s.producers == |Registered(s.procs)| && s.workers == |Alive(s.works)|
  }

  lemma ProducerMoveGroup(a: Action, ph: Phase, l: Lane, closed: bool, free: bool, done: bool)
    requires IsProducer(a) && !ph.Gone? && ProducerMove(a, ph, l, closed, free, done).Some?
    ensures var e := ProducerMove(a, ph, l, closed, free, done).value;
            e.registered == Resize(0, ph.Counted(), e.phase.Counted())
  {
  }

  lemma ProducerGroups(s: System, a: Action, t: System)
    requires IsProducer(a) && GroupsOk(s) && ProducerStep(s, a) == Some(t)
    ensures GroupsOk(t)
  {
    hide ProducerStep, ProducerMove, Registered, Alive, UseLock;
    var e, w := ProducerEffect(s, a, t);
    var ph := s.procs[a.p];
    ProducerMoveGroup(a, ph, s.LaneOf(ph.lane), s.closed, ph.lane !in s.locks, a.p in s.done);
    RegisteredMove(s.procs, a.p, e.phase);
    AliveMove(s.works, w, Looking(ph.lane));
  }

  lemma WorkerGroups(s: System, a: Action, t: System)
    requires IsWorker(a) && GroupsOk(s) && WorkerStep(s, a) == Some(t)
    ensures GroupsOk(t)
  {
    AliveMove(s.works, a.w, t.works[a.w]);
    hide Registered, Alive;
  }

  lemma GroupsStep(s: System, a: Action, t: System)
    requires GroupsOk(s) && Next(s, a) == Some(t)
    ensures GroupsOk(t)
  {
    hide ProducerStep, CloserStep, ArriveStep, WorkerStep, Registered, Alive;
    if IsWorker(a) {
      WorkerGroups(s, a, t);
    } else if IsCloser(a) {
      CloserEffect(s, a, t);
    } else if a.Arrive? {
      ArriveEffect(s, a.p, a.c, t);
      RegisteredMove(s.procs, a.p, t.procs[a.p]);
    } else {
      ProducerGroups(s, a, t);
    }
  }

  /** How a worker's step changes the system, in the terms of its effect. */
  ghost predicate WorkAffected(s: System, w: WorkerID, e: WorkEffect, t: System) {
    && w in s.works && !s.works[w].Ended?
    && t == s.(lanes := s.lanes[s.works[w].lane := e.lane], works := s.works[w := e.phase], done := s.done + e.done,
               workers := t.workers)
  }

  lemma WorkerEffect(s: System, a: Action, t: System) returns (e: WorkEffect)
    requires IsWorker(a) && WorkerStep(s, a) == Some(t)
    ensures WorkAffected(s, a.w, e, t) && WorkerMove(a, s.works[a.w], s.LaneOf(s.works[a.w].lane)) == Some(e)
  {
    e := WorkerMove(a, s.works[a.w], s.LaneOf(s.works[a.w].lane)).value;
    hide WorkerMove;
  }

  // ----- the command lock

  /** A configuration's command lock is held by the one producer that is inside its command. */
  ghost predicate LocksOk(s: System) {
    forall c, p :: HoldsLock(s, c, p) <==> p in s.procs && s.procs[p].Locks(c)
  }

  predicate HoldsLock(s: System, c: ConfigurationName, p: ProducerID) {
    c in s.locks && s.locks[c] == p
  }

  lemma ProducerMoveLock(a: Action, ph: Phase, l: Lane, closed: bool, free: bool, done: bool)
    requires IsProducer(a) && !ph.Gone? && ProducerMove(a, ph, l, closed, free, done).Some?
    ensures var e := ProducerMove(a, ph, l, closed, free, done).value;
            && (e.phase.Gone? || e.phase.lane == ph.lane)
            && match e.lock
               case Keep => ph.Locks(ph.lane) == e.phase.Locks(ph.lane)
               case Take => free && e.phase.Locks(ph.lane)
               case Release => ph.Locks(ph.lane) && !e.phase.Locks(ph.lane)
  {
  }

  lemma LocksStep(s: System, a: Action, t: System)
    requires LocksOk(s) && Next(s, a) == Some(t)
    ensures LocksOk(t)
  {
    hide ProducerStep, CloserStep, ArriveStep, WorkerStep, ProducerMove, WorkerMove;
    if IsWorker(a) {
      var e := WorkerEffect(s, a, t);
      SameLocks(s, t);
    } else if IsCloser(a) {
      CloserEffect(s, a, t);
      SameLocks(s, t);
    } else if a.Arrive? {
      ArriveEffect(s, a.p, a.c, t);
      forall c, p ensures HoldsLock(t, c, p) <==> p in t.procs && t.procs[p].Locks(c) {
        assert HoldsLock(t, c, p) <==> HoldsLock(s, c, p);
      }
    } else {
      var e, w := ProducerEffect(s, a, t);
      var ph := s.procs[a.p];
      ProducerMoveLock(a, ph, s.LaneOf(ph.lane), s.closed, ph.lane !in s.locks, a.p in s.done);
      LocksOfProducer(s, a.p, w, e, t);
    }
  }

  lemma LocksOfProducer(s: System, p: ProducerID, w: WorkerID, e: Effect, t: System)
    requires LocksOk(s) && Affected(s, p, w, e, t)
    requires var ph := s.procs[p];
             && (e.phase.Gone? || e.phase.lane == ph.lane)
             && match e.lock
                case Keep => ph.Locks(ph.lane) == e.phase.Locks(ph.lane)
                case Take => ph.lane !in s.locks && e.phase.Locks(ph.lane)
                case Release => ph.Locks(ph.lane) && !e.phase.Locks(ph.lane)
    ensures LocksOk(t)
  {
    var ph := s.procs[p];
    assert HoldsLock(s, ph.lane, p) <==> s.procs[p].Locks(ph.lane);
    forall c, q ensures HoldsLock(t, c, q) <==> q in t.procs && t.procs[q].Locks(c) {
      assert HoldsLock(s, c, q) <==> q in s.procs && s.procs[q].Locks(c);
    }
  }

  lemma SameLocks(s: System, t: System)
    requires LocksOk(s) && t.locks == s.locks && t.procs == s.procs
    ensures LocksOk(t)
  {
    forall c, p ensures HoldsLock(t, c, p) <==> p in t.procs && t.procs[p].Locks(c) {
      assert HoldsLock(t, c, p) <==> HoldsLock(s, c, p);
    }
  }

  // ----- workers

  predicate Looper(s: System, c: ConfigurationName, w: WorkerID) {
    w in s.works && s.works[w].Loops(c)
  }

  /** A lane is marked running exactly while a worker is in its loop, and there is at most one. */
  ghost predicate WorkersAt(s: System, c: ConfigurationName) {
    && (s.LaneOf(c).running <==> exists w :: Looper(s, c, w))
    && (forall w, v :: Looper(s, c, w) && Looper(s, c, v) ==> w == v)
  }

  lemma ProducerMoveLoop(a: Action, ph: Phase, l: Lane, closed: bool, free: bool, done: bool)
    requires IsProducer(a) && !ph.Gone? && ProducerMove(a, ph, l, closed, free, done).Some?
    ensures var e := ProducerMove(a, ph, l, closed, free, done).value;
            && e.lane.running == (l.running || e.spawn) && (e.spawn ==> !l.running)
            && e.lane.finished == l.finished && e.lane.attempts == l.attempts
            && (e.phase.Gone? || e.phase.lane == ph.lane)
            && if e.lane.pending == l.pending then e.lane.sent == l.sent
               else
                 && ph.InCommand? && e.phase.Enqueued? && a.Generate? && a.events != []
                 && e.lane.pending == l.pending + [Batch(a.p, a.events)] && e.lane.sent == l.sent + [Batch(a.p, a.events)]
    ensures var e := ProducerMove(a, ph, l, closed, free, done).value;
            && (ph.WillStart(ph.lane) && !e.phase.WillStart(ph.lane) ==> e.lane.running)
            && (ph.HasSent() ==> e.phase.HasSent())
  {
  }

  lemma WorkerMoveLoop(a: Action, ph: WorkerPhase, l: Lane)
    requires IsWorker(a) && !ph.Ended? && WorkerMove(a, ph, l).Some?
    ensures var e := WorkerMove(a, ph, l).value;
            && (e.phase.Ended? || e.phase.lane == ph.lane)
            && (ph.Loops(ph.lane) ==> if e.phase.Loops(ph.lane) then e.lane.running == l.running
                                      else !e.lane.running && e.lane.pending == [] == l.pending)
            && (!ph.Loops(ph.lane) ==> e.lane == l && !e.phase.Loops(ph.lane) && !e.phase.Delivering? && !ph.Delivering?)
            && e.lane.sent == l.sent
            && (e.lane.pending == [] || l.pending != [])
  {
  }

  lemma WorkersStep(s: System, a: Action, t: System, c: ConfigurationName)
    requires WorkersAt(s, c) && Next(s, a) == Some(t)
    ensures WorkersAt(t, c)
  {
    hide ProducerStep, CloserStep, ArriveStep, WorkerStep, ProducerMove, WorkerMove;
    if IsWorker(a) {
      var e := WorkerEffect(s, a, t);
      WorkerMoveLoop(a, s.works[a.w], s.LaneOf(s.works[a.w].lane));
      WorkersOfWorker(s, a.w, e, t, c);
    } else if IsCloser(a) {
      CloserEffect(s, a, t);
      SameWorkers(s, t, c);
    } else if a.Arrive? {
      ArriveEffect(s, a.p, a.c, t);
      SameWorkers(s, t, c);
    } else {
      var e, w := ProducerEffect(s, a, t);
      var ph := s.procs[a.p];
      ProducerMoveLoop(a, ph, s.LaneOf(ph.lane), s.closed, ph.lane !in s.locks, a.p in s.done);
      WorkersOfProducer(s, a.p, w, e, t, c);
    }
  }

  lemma SameWorkers(s: System, t: System, c: ConfigurationName)
    requires WorkersAt(s, c) && t.LaneOf(c).running == s.LaneOf(c).running && t.works == s.works
    ensures WorkersAt(t, c)
  {
    assert forall w :: Looper(t, c, w) <==> Looper(s, c, w);
  }

  lemma WorkersOfWorker(s: System, w: WorkerID, e: WorkEffect, t: System, c: ConfigurationName)
    requires WorkersAt(s, c) && WorkAffected(s, w, e, t)
    requires var ph, l := s.works[w], s.LaneOf(s.works[w].lane);
             && (e.phase.Ended? || e.phase.lane == ph.lane)
             && (ph.Loops(ph.lane) ==> if e.phase.Loops(ph.lane) then e.lane.running == l.running else !e.lane.running)
             && (!ph.Loops(ph.lane) ==> e.lane == l && !e.phase.Loops(ph.lane))
    ensures WorkersAt(t, c)
  {
    forall v ensures v != w ==> (Looper(t, c, v) <==> Looper(s, c, v)) {
    }
    if c == s.works[w].lane && s.works[w].Loops(c) {
      assert Looper(s, c, w);
      assert Looper(t, c, w) <==> e.phase.Loops(c);
    }
  }

  lemma WorkersOfProducer(s: System, p: ProducerID, w: WorkerID, e: Effect, t: System, c: ConfigurationName)
    requires WorkersAt(s, c) && Affected(s, p, w, e, t)
    requires var l := s.LaneOf(s.procs[p].lane); e.lane.running == (l.running || e.spawn) && (e.spawn ==> !l.running)
    ensures WorkersAt(t, c)
  {
    hide UseLock;
    if e.spawn {
      assert Looper(t, s.procs[p].lane, w);
      forall v ensures v != w ==> (Looper(t, c, v) <==> Looper(s, c, v)) {
      }
      assert !Looper(s, c, w);
    } else {
      assert forall v :: Looper(t, c, v) <==> Looper(s, c, v);
    }
  }

  // ----- no lost wakeup

  predicate Waker(s: System, c: ConfigurationName, p: ProducerID) {
    p in s.procs && s.procs[p].WillStart(c)
  }

  /** A queued batch has a worker in its loop, or a producer between enqueue and start. */
  ghost predicate NoLostWakeup(s: System, c: ConfigurationName) {
    s.LaneOf(c).pending != [] ==> s.LaneOf(c).running || exists p :: Waker(s, c, p)
  }

  lemma WakeupStep(s: System, a: Action, t: System, c: ConfigurationName)
    requires NoLostWakeup(s, c) && Next(s, a) == Some(t)
    ensures NoLostWakeup(t, c)
  {
    hide ProducerStep, CloserStep, ArriveStep, WorkerStep, ProducerMove, WorkerMove;
    if IsWorker(a) {
      var e := WorkerEffect(s, a, t);
      WorkerMoveLoop(a, s.works[a.w], s.LaneOf(s.works[a.w].lane));
      assert forall p :: Waker(t, c, p) <==> Waker(s, c, p);
    } else if IsCloser(a) {
      CloserEffect(s, a, t);
      assert forall p :: Waker(t, c, p) <==> Waker(s, c, p);
    } else if a.Arrive? {
      ArriveEffect(s, a.p, a.c, t);
      forall p ensures Waker(s, c, p) ==> Waker(t, c, p) {
      }
    } else {
      var e, w := ProducerEffect(s, a, t);
      var ph := s.procs[a.p];
      ProducerMoveLoop(a, ph, s.LaneOf(ph.lane), s.closed, ph.lane !in s.locks, a.p in s.done);
      WakeupOfProducer(s, a.p, w, e, t, c);
    }
  }

  lemma WakeupOfProducer(s: System, p: ProducerID, w: WorkerID, e: Effect, t: System, c: ConfigurationName)
    requires NoLostWakeup(s, c) && Affected(s, p, w, e, t)
    requires var ph, l := s.procs[p], s.LaneOf(s.procs[p].lane);
             && (l.running ==> e.lane.running) && (e.phase.Gone? || e.phase.lane == ph.lane)
             && (e.lane.pending != l.pending ==> e.phase.Enqueued?)
             && (ph.WillStart(ph.lane) && !e.phase.WillStart(ph.lane) ==> e.lane.running)
    ensures NoLostWakeup(t, c)
  {
    hide UseLock;
    forall q ensures q != p ==> (Waker(t, c, q) <==> Waker(s, c, q)) {
    }
    if e.phase.Enqueued? && c == s.procs[p].lane {
      assert Waker(t, c, p);
    }
    if Waker(s, c, p) && !t.LaneOf(c).running {
      assert Waker(t, c, p);
    }
  }

  // ----- order

  /** The events of a list of batches, in order. */
  function Flatten(batches: seq<Batch>): seq<Event> {
    if batches == [] then [] else Flatten(batches[..|batches| - 1]) + batches[|batches| - 1].events
  }

  lemma FlattenOne(batches: seq<Batch>, b: Batch)
    ensures Flatten(batches + [b]) == Flatten(batches) + b.events
  {
    assert (batches + [b])[..|batches|] == batches;
  }

  predicate Busy(s: System, c: ConfigurationName, w: WorkerID) {
    w in s.works && s.works[w].Delivering? && s.works[w].lane == c
  }

  /** Finished, then the batch being delivered, then queued: these are the batches in the order they were enqueued. */
  ghost predicate OrderAt(s: System, c: ConfigurationName) {
    var l := s.LaneOf(c);
    && (forall w | Busy(s, c, w) ::
          var (b, k) := (s.works[w].batch, s.works[w].attempted);
          && k <= |b.events| && l.sent == l.finished + [b] + l.pending
          && l.attempts == Flatten(l.finished) + b.events[..k])
    && ((forall w :: !Busy(s, c, w)) ==> l.sent == l.finished + l.pending && l.attempts == Flatten(l.finished))
  }

  lemma OrderOfProducer(s: System, p: ProducerID, w: WorkerID, e: Effect, t: System, c: ConfigurationName)
    requires OrderAt(s, c) && Affected(s, p, w, e, t)
    requires var l := s.LaneOf(s.procs[p].lane);
             && e.lane.finished == l.finished && e.lane.attempts == l.attempts
             && (if e.lane.pending == l.pending then e.lane.sent == l.sent
                 else exists b :: e.lane.pending == l.pending + [b] && e.lane.sent == l.sent + [b])
    ensures OrderAt(t, c)
  {
    hide UseLock, Flatten;
    forall v ensures (Busy(t, c, v) <==> Busy(s, c, v)) && (Busy(s, c, v) ==> t.works[v] == s.works[v]) {
    }
    if c == s.procs[p].lane && e.lane.pending != s.LaneOf(c).pending {
      var l := s.LaneOf(c);
      var b :| e.lane.pending == l.pending + [b] && e.lane.sent == l.sent + [b];
      assert forall f: seq<Batch> :: f + (l.pending + [b]) == (f + l.pending) + [b];
    }
  }

  lemma SameOrder(s: System, t: System, c: ConfigurationName)
    requires OrderAt(s, c) && t.LaneOf(c) == s.LaneOf(c) && t.works == s.works
    ensures OrderAt(t, c)
  {
    assert forall v :: Busy(t, c, v) <==> Busy(s, c, v);
  }

  /** A worker's step, as far as the order of its lane is concerned: it takes the first batch, works on it, or finishes it. */
  lemma WorkerMoveOrder(a: Action, ph: WorkerPhase, l: Lane)
    requires IsWorker(a) && !ph.Ended? && WorkerMove(a, ph, l).Some?
    ensures var e := WorkerMove(a, ph, l).value;
            && (e.phase.Ended? || e.phase.lane == ph.lane) && e.lane.sent == l.sent
            && match (ph, e.phase)
               case (Looking(_), Delivering(_, b, k)) =>
                 l.pending != [] && b == l.pending[0] && k == 0 && e.lane.pending == l.pending[1..]
                 && e.lane.finished == l.finished && e.lane.attempts == l.attempts && e.done == {}
               case (Delivering(_, b, k), Delivering(_, d, j)) =>
                 k < |b.events| && d == b && j == k + 1 && e.lane.pending == l.pending && e.lane.finished == l.finished
                 && e.lane.attempts == l.attempts + [b.events[k]] && e.done == {}
               case (Delivering(_, b, k), _) =>
                 k >= |b.events| && e.phase.Returning? && e.lane.pending == l.pending && e.lane.finished == l.finished + [b]
                 && e.lane.attempts == l.attempts && e.done == {b.owner}
               case _ =>
                 !e.phase.Delivering? && e.lane.pending == l.pending && e.lane.finished == l.finished
                 && e.lane.attempts == l.attempts && e.done == {}
  {
  }

  lemma OrderOfWorker(s: System, a: Action, e: WorkEffect, t: System)
    requires IsWorker(a) && WorkAffected(s, a.w, e, t)
    requires WorkerMove(a, s.works[a.w], s.LaneOf(s.works[a.w].lane)) == Some(e)
    requires OrderAt(s, s.works[a.w].lane) && WorkersAt(s, s.works[a.w].lane)
    ensures OrderAt(t, s.works[a.w].lane)
  {
    hide WorkerMove, Flatten, System.LaneOf;
    var c := s.works[a.w].lane;
    var l := s.LaneOf(c);
    WorkerMoveOrder(a, s.works[a.w], l);
    OneLane(s, c, e.lane, t, c);
    OthersBusy(s, a.w, e, t, c);
    if s.works[a.w].Looking? && e.phase.Delivering? {
      assert Looper(s, c, a.w);
      assert Busy(t, c, a.w) && l.finished + [l.pending[0]] + l.pending[1..] == l.finished + l.pending;
      assert forall v :: Busy(t, c, v) ==> v == a.w;
    } else if s.works[a.w].Delivering? {
      var b, k := s.works[a.w].batch, s.works[a.w].attempted;
      assert Looper(s, c, a.w) && Busy(s, c, a.w);
      assert forall v :: Busy(t, c, v) ==> v == a.w;
      assert k <= |b.events| && l.sent == l.finished + [b] + l.pending && l.attempts == Flatten(l.finished) + b.events[..k];
      OrderOfDelivery(b, k, l);
      assert Busy(t, c, a.w) <==> e.phase.Delivering?;
    } else {
      assert !Busy(s, c, a.w) && !Busy(t, c, a.w);
      assert forall v :: Busy(t, c, v) <==> Busy(s, c, v);
    }
  }

  lemma OthersBusy(s: System, w: WorkerID, e: WorkEffect, t: System, c: ConfigurationName)
    requires WorkAffected(s, w, e, t)
    ensures forall v | v != w :: (Busy(t, c, v) <==> Busy(s, c, v)) && (Busy(s, c, v) ==> t.works[v] == s.works[v])
    ensures forall v :: Busy(s, c, v) ==> Looper(s, c, v)
  {
  }

  lemma OrderOfDelivery(b: Batch, k: nat, l: Lane)
    requires k <= |b.events| && l.attempts == Flatten(l.finished) + b.events[..k]
    ensures k < |b.events| ==> l.attempts + [b.events[k]] == Flatten(l.finished) + b.events[..k + 1]
    ensures k == |b.events| ==> l.attempts == Flatten(l.finished + [b])
  {
    FlattenOne(l.finished, b);
    hide Flatten;
    if k < |b.events| {
      assert b.events[..k] + [b.events[k]] == b.events[..k + 1];
    } else {
      assert b.events[..k] == b.events;
    }
  }

  lemma OrderStep(s: System, a: Action, t: System, c: ConfigurationName)
    requires OrderAt(s, c) && WorkersAt(s, c) && Next(s, a) == Some(t)
    ensures OrderAt(t, c)
  {
    hide ProducerStep, CloserStep, ArriveStep, WorkerStep, ProducerMove, WorkerMove, Flatten;
    if IsWorker(a) {
      var e := WorkerEffect(s, a, t);
      if s.works[a.w].lane == c {
        OrderOfWorker(s, a, e, t);
      } else {
        OtherLane(s, a, e, t, c);
      }
    } else if IsCloser(a) {
      CloserEffect(s, a, t);
      SameOrder(s, t, c);
    } else if a.Arrive? {
      ArriveEffect(s, a.p, a.c, t);
      SameOrder(s, t, c);
    } else {
      var e, w := ProducerEffect(s, a, t);
      var ph := s.procs[a.p];
      ProducerMoveLoop(a, ph, s.LaneOf(ph.lane), s.closed, ph.lane !in s.locks, a.p in s.done);
      OrderOfProducer(s, a.p, w, e, t, c);
    }
  }

  lemma OtherLane(s: System, a: Action, e: WorkEffect, t: System, c: ConfigurationName)
    requires OrderAt(s, c) && IsWorker(a) && WorkAffected(s, a.w, e, t) && s.works[a.w].lane != c
    requires WorkerMove(a, s.works[a.w], s.LaneOf(s.works[a.w].lane)) == Some(e)
    ensures OrderAt(t, c)
  {
    WorkerMoveOrder(a, s.works[a.w], s.LaneOf(s.works[a.w].lane));
    hide WorkerMove, Flatten;
    forall v ensures (Busy(t, c, v) <==> Busy(s, c, v)) && (Busy(s, c, v) ==> t.works[v] == s.works[v]) {
    }
  }

  // ----- each batch once

  /** Batch `i` of lane `c` was enqueued by `p`. */
  predicate SentBy(s: System, c: ConfigurationName, i: nat, p: ProducerID) {
    i < |s.LaneOf(c).sent| && s.LaneOf(c).sent[i].owner == p
  }

  /** A batch is non-empty, its owner is past the point of enqueueing, and no other batch has the same owner. */
  ghost predicate OwnersOk(s: System) {
    && (forall c, i: nat, p | SentBy(s, c, i, p) ::
          p in s.procs && s.procs[p].HasSent() && s.LaneOf(c).sent[i].events != [])
    && (forall c, i: nat, d, j: nat, p | SentBy(s, c, i, p) && SentBy(s, d, j, p) :: c == d && i == j)
  }

  lemma OwnersStep(s: System, a: Action, t: System)
    requires OwnersOk(s) && Next(s, a) == Some(t)
    ensures OwnersOk(t)
  {
    hide ProducerStep, CloserStep, ArriveStep, WorkerStep, ProducerMove, WorkerMove;
    if IsWorker(a) {
      var e := WorkerEffect(s, a, t);
      WorkerMoveLoop(a, s.works[a.w], s.LaneOf(s.works[a.w].lane));
      SameSent(s, t);
    } else if IsCloser(a) {
      CloserEffect(s, a, t);
      SameSent(s, t);
    } else if a.Arrive? {
      ArriveEffect(s, a.p, a.c, t);
      SameSent(s, t);
    } else {
      var e, w := ProducerEffect(s, a, t);
      var ph := s.procs[a.p];
      ProducerMoveLoop(a, ph, s.LaneOf(ph.lane), s.closed, ph.lane !in s.locks, a.p in s.done);
      OwnersOfProducer(s, a, w, e, t);
    }
  }

  lemma SameSent(s: System, t: System)
    requires OwnersOk(s) && (forall c :: t.LaneOf(c).sent == s.LaneOf(c).sent)
    requires forall p <- s.procs :: p in t.procs && t.procs[p] == s.procs[p]
    ensures OwnersOk(t)
  {
    assert forall c, i: nat, p :: SentBy(t, c, i, p) <==> SentBy(s, c, i, p);
  }

  lemma OwnersOfProducer(s: System, a: Action, w: WorkerID, e: Effect, t: System)
    requires IsProducer(a) && OwnersOk(s) && Affected(s, a.p, w, e, t)
    requires var ph, l := s.procs[a.p], s.LaneOf(s.procs[a.p].lane);
             && (ph.HasSent() ==> e.phase.HasSent())
             && if e.lane.pending == l.pending then e.lane.sent == l.sent
                else
                  && ph.InCommand? && e.phase.Enqueued? && a.Generate? && a.events != []
                  && e.lane.sent == l.sent + [Batch(a.p, a.events)]
    ensures OwnersOk(t)
  {
    hide UseLock;
    var c0 := s.procs[a.p].lane;
    var l := s.LaneOf(c0);
    var n := |l.sent|;
    forall c, i: nat, p | SentBy(t, c, i, p)
      ensures SentBy(s, c, i, p) || (c == c0 && i == n && p == a.p && s.procs[p].InCommand?)
      ensures p in t.procs && t.procs[p].HasSent() && t.LaneOf(c).sent[i].events != []
    {
      if SentBy(s, c, i, p) { assert s.LaneOf(c).sent[i].events != []; }
    }
    forall c, i: nat ensures s.procs[a.p].InCommand? ==> !SentBy(s, c, i, a.p) {
    }
  }

  /** A batch is announced as done exactly when it is among the finished ones. */
  ghost predicate DoneOk(s: System) {
    forall p :: p in s.done <==> exists c, i: nat :: FinishedBy(s, c, i, p)
  }

  predicate FinishedBy(s: System, c: ConfigurationName, i: nat, p: ProducerID) {
    i < |s.LaneOf(c).finished| && s.LaneOf(c).finished[i].owner == p
  }

  lemma SameFinished(s: System, t: System)
    requires DoneOk(s) && t.done == s.done && forall c :: t.LaneOf(c).finished == s.LaneOf(c).finished
    ensures DoneOk(t)
  {
    assert forall c, i: nat, p :: FinishedBy(t, c, i, p) <==> FinishedBy(s, c, i, p);
  }

  lemma DoneOfWorker(s: System, a: Action, e: WorkEffect, t: System)
    requires IsWorker(a) && DoneOk(s) && WorkAffected(s, a.w, e, t)
    requires WorkerMove(a, s.works[a.w], s.LaneOf(s.works[a.w].lane)) == Some(e)
    ensures DoneOk(t)
  {
    var c0 := s.works[a.w].lane;
    var l := s.LaneOf(c0);
    WorkerMoveOrder(a, s.works[a.w], l);
    hide WorkerMove;
    if s.works[a.w].Delivering? && !e.phase.Delivering? {
      var b, n := s.works[a.w].batch, |l.finished|;
      assert FinishedBy(t, c0, n, b.owner);
      forall c, i: nat, p
        ensures FinishedBy(t, c, i, p) <==> FinishedBy(s, c, i, p) || (c == c0 && i == n && p == b.owner) {
      }
    } else {
      SameFinished(s, t);
    }
  }

  lemma DoneStep(s: System, a: Action, t: System)
    requires DoneOk(s) && Next(s, a) == Some(t)
    ensures DoneOk(t)
  {
    hide ProducerStep, CloserStep, ArriveStep, WorkerStep, ProducerMove, WorkerMove, DoneOk, UseLock, System.LaneOf;
    if IsWorker(a) {
      var e := WorkerEffect(s, a, t);
      DoneOfWorker(s, a, e, t);
    } else if IsCloser(a) {
      CloserEffect(s, a, t);
      forall c ensures t.LaneOf(c) == s.LaneOf(c) { SameLane(s, t, c); }
      SameFinished(s, t);
    } else if a.Arrive? {
      ArriveEffect(s, a.p, a.c, t);
      forall c ensures t.LaneOf(c) == s.LaneOf(c) { SameLane(s, t, c); }
      SameFinished(s, t);
    } else {
      var e, w := ProducerEffect(s, a, t);
      var ph := s.procs[a.p];
      ProducerMoveLoop(a, ph, s.LaneOf(ph.lane), s.closed, ph.lane !in s.locks, a.p in s.done);
      forall c ensures t.LaneOf(c).finished == s.LaneOf(c).finished { OneLane(s, ph.lane, e.lane, t, c); }
      SameFinished(s, t);
    }
  }

  // ----- nobody waits for a batch that was never enqueued

  predicate HasBatch(ph: Phase) {
    ph.Enqueued? || ph.Unlocked? || ph.Started? || ph.Awaiting?
  }

  ghost predicate SentSomething(s: System, p: ProducerID) {
    exists c, i: nat :: SentBy(s, c, i, p)
  }

  ghost predicate SendersOk(s: System) {
    forall p <- s.procs :: HasBatch(s.procs[p]) ==> SentSomething(s, p)
  }

  lemma StillSent(s: System, t: System, p: ProducerID)
    requires SentSomething(s, p) && forall c :: s.LaneOf(c).sent <= t.LaneOf(c).sent
    ensures SentSomething(t, p)
  {
    var c, i: nat :| SentBy(s, c, i, p);
    assert SentBy(t, c, i, p);
  }

  lemma ProducerMoveSends(a: Action, ph: Phase, l: Lane, closed: bool, free: bool, done: bool)
    requires IsProducer(a) && !ph.Gone? && ProducerMove(a, ph, l, closed, free, done).Some?
    ensures var e := ProducerMove(a, ph, l, closed, free, done).value;
            && l.sent <= e.lane.sent
            && (HasBatch(e.phase) && !HasBatch(ph) ==> e.lane.sent != [] && e.lane.sent[|e.lane.sent| - 1].owner == a.p)
  {
  }

  lemma SendersStep(s: System, a: Action, t: System)
    requires SendersOk(s) && Next(s, a) == Some(t)
    ensures SendersOk(t)
  {
    hide ProducerStep, CloserStep, ArriveStep, WorkerStep, ProducerMove, WorkerMove;
    if IsWorker(a) {
      var e := WorkerEffect(s, a, t);
      WorkerMoveLoop(a, s.works[a.w], s.LaneOf(s.works[a.w].lane));
      forall p <- t.procs | HasBatch(t.procs[p]) ensures SentSomething(t, p) { StillSent(s, t, p); }
    } else if IsCloser(a) {
      CloserEffect(s, a, t);
      forall p <- t.procs | HasBatch(t.procs[p]) ensures SentSomething(t, p) { StillSent(s, t, p); }
    } else if a.Arrive? {
      ArriveEffect(s, a.p, a.c, t);
      forall p <- t.procs | HasBatch(t.procs[p]) ensures SentSomething(t, p) { StillSent(s, t, p); }
    } else {
      var e, w := ProducerEffect(s, a, t);
      var ph := s.procs[a.p];
      ProducerMoveSends(a, ph, s.LaneOf(ph.lane), s.closed, ph.lane !in s.locks, a.p in s.done);
      SendersOfProducer(s, a.p, w, e, t);
    }
  }

  lemma SendersOfProducer(s: System, p: ProducerID, w: WorkerID, e: Effect, t: System)
    requires SendersOk(s) && Affected(s, p, w, e, t) && s.LaneOf(s.procs[p].lane).sent <= e.lane.sent
    requires HasBatch(e.phase) && !HasBatch(s.procs[p]) ==> e.lane.sent != [] && e.lane.sent[|e.lane.sent| - 1].owner == p
    ensures SendersOk(t)
  {
    hide UseLock;
    forall q <- t.procs | HasBatch(t.procs[q]) ensures SentSomething(t, q) {
      if q in s.procs && HasBatch(s.procs[q]) {
        StillSent(s, t, q);
      } else {
        assert SentBy(t, s.procs[p].lane, |e.lane.sent| - 1, q);
      }
    }
  }
}
