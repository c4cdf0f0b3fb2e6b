/** The main results about event delivery: every reachable state, shutdown, absence of deadlock, and termination. */
module DeliveryRuns {
  import opened Wrappers
  import opened Domain
  import opened Delivery
  import opened DeliverySafety

  // ----- shutdown

  /** What a call of CloseDelivery that has come this far may rely on. */
  predicate CloserOk(s: System, ph: CloserPhase) {
    match ph
    case AwaitingProducers => s.closed
    case AwaitingWorkers | Cancelling => s.closed && Registered(s.procs) == {}
    case Drained => s.closed && Registered(s.procs) == {} && Alive(s.works) == {}
    case Unused => true
    case Expired => s.closed
  }

  ghost predicate ClosersOk(s: System) {
    && (forall k <- s.closers :: CloserOk(s, s.closers[k]))
    && (s.closed ==> s.initialised) && (s.initialised <==> s.procs != map[])
  }

  /** Once closed, no producer joins the wait group; with no producer left, no worker is started. */
  lemma ClosedShrinks(s: System, a: Action, t: System)
    requires s.closed && Next(s, a) == Some(t)
    ensures t.closed && Registered(t.procs) <= Registered(s.procs)
    ensures Registered(s.procs) == {} ==> Alive(t.works) <= Alive(s.works)
  {
    hide ProducerStep, CloserStep, ArriveStep, WorkerStep, ProducerMove, WorkerMove;
    if IsWorker(a) {
      var e := WorkerEffect(s, a, t);
    } else if IsCloser(a) {
      CloserEffect(s, a, t);
    } else if a.Arrive? {
      ArriveEffect(s, a.p, a.c, t);
    } else {
      var e, w := ProducerEffect(s, a, t);
      var ph := s.procs[a.p];
      ProducerMoveClosed(a, ph, s.LaneOf(ph.lane), ph.lane !in s.locks, a.p in s.done);
      hide UseLock;
      assert ph.Counted() ==> a.p in Registered(s.procs);
    }
  }

  lemma ProducerMoveClosed(a: Action, ph: Phase, l: Lane, free: bool, done: bool)
    requires IsProducer(a) && !ph.Gone? && ProducerMove(a, ph, l, true, free, done).Some?
    ensures var e := ProducerMove(a, ph, l, true, free, done).value;
            (e.phase.Counted() ==> ph.Counted()) && (e.spawn ==> ph.Counted())
  {
  }

  lemma CloserStepOk(s: System, a: Action, t: System)
    requires IsCloser(a) && ClosersOk(s) && GroupsOk(s) && CloserStep(s, a) == Some(t)
    ensures ClosersOk(t)
  {
    hide Registered, Alive;
    assert s.producers == 0 ==> Registered(s.procs) == {};
    assert s.workers == 0 ==> Alive(s.works) == {};
    CloserEffect(s, a, t);
    forall k <- t.closers ensures CloserOk(t, t.closers[k]) {
      if k in s.closers { assert CloserOk(s, s.closers[k]); }
    }
  }

  lemma ClosersStep(s: System, a: Action, t: System)
    requires ClosersOk(s) && GroupsOk(s) && Next(s, a) == Some(t)
    ensures ClosersOk(t)
  {
    if IsCloser(a) {
      CloserStepOk(s, a, t);
    } else {
      if s.closed { ClosedShrinks(s, a, t); }
      hide Registered, Alive, GroupsOk;
      ClosersKept(s, a, t);
      forall k <- t.closers ensures CloserOk(t, t.closers[k]) {
        assert CloserOk(s, s.closers[k]);
      }
    }
  }

  lemma ClosersKept(s: System, a: Action, t: System)
    requires !IsCloser(a) && ClosersOk(s) && Next(s, a) == Some(t)
    ensures t.closers == s.closers && t.closed == s.closed
    ensures (t.closed ==> t.initialised) && (t.initialised <==> t.procs != map[])
  {
    hide ProducerStep, CloserStep, ArriveStep, WorkerStep, ProducerMove, WorkerMove, CloserOk;
    if IsWorker(a) {
      var e := WorkerEffect(s, a, t);
    } else if a.Arrive? {
      ArriveEffect(s, a.p, a.c, t);
      assert a.p in t.procs;
    } else {
      var e, w := ProducerEffect(s, a, t);
      hide UseLock;
      assert a.p in t.procs && a.p in s.procs;
    }
  }

  // ----- every reachable state

  ghost predicate LaneInv(s: System, c: ConfigurationName) {
    SlotsAt(s, c) && WorkersAt(s, c) && NoLostWakeup(s, c) && OrderAt(s, c)
  }

  ghost predicate Inv(s: System) {
    && (forall c :: LaneInv(s, c))
    && GroupsOk(s) && LocksOk(s) && OwnersOk(s) && DoneOk(s) && SendersOk(s) && ClosersOk(s)
  }

  lemma StepInv(s: System, a: Action, t: System)
    requires Inv(s) && Next(s, a) == Some(t)
    ensures Inv(t)
  {
    hide Next, SlotsAt, WorkersAt, NoLostWakeup, OrderAt, GroupsOk, LocksOk, OwnersOk, DoneOk, SendersOk, ClosersOk;
    forall c ensures LaneInv(t, c) {
      assert LaneInv(s, c);
      forall d ensures SlotsAt(s, d) { assert LaneInv(s, d); }
      SlotsStep(s, a, t, c);
      WorkersStep(s, a, t, c);
      WakeupStep(s, a, t, c);
      OrderStep(s, a, t, c);
    }
    GroupsStep(s, a, t);
    LocksStep(s, a, t);
    OwnersStep(s, a, t);
    DoneStep(s, a, t);
    SendersStep(s, a, t);
    ClosersStep(s, a, t);
  }

  lemma StartInv()
    ensures Inv(Start)
  {
    forall c ensures LaneInv(Start, c) {
    }
  }

  lemma {:induction false} RunInv(s: System, actions: seq<Action>)
    requires Inv(s) && Run(s, actions).Some?
    ensures Inv(Run(s, actions).value)
    decreases |actions|
  {
    if actions != [] {
      StepInv(s, actions[0], Next(s, actions[0]).value);
      hide Inv, Next;
      RunInv(Next(s, actions[0]).value, actions[1..]);
    }
  }

  lemma ReachableInv(s: System)
    requires Reachable(s)
    ensures Inv(s)
  {
    var actions: seq<Action> :| Run(Start, actions) == Some(s);
    StartInv();
    hide Inv;
    RunInv(Start, actions);
  }

  // ----- the main results

  /**
   The occupied slots of a lane are exactly those held by producers, tied to a queued batch or tied to the batch in
   delivery; there are never more than 64; and while a producer runs its command, or waits for the command lock, there
   are more than the batches need.
   */
  lemma SlotConservation(s: System, c: ConfigurationName)
    requires Reachable(s)
    ensures s.LaneOf(c).slots == |Holders(s.procs, c)| + |s.LaneOf(c).pending| + |Carriers(s.works, c)|
    ensures s.LaneOf(c).slots <= 64
    ensures (exists p <- s.procs :: s.procs[p] == Reserved(c) || s.procs[p] == InCommand(c)) ==>
              s.LaneOf(c).slots > |s.LaneOf(c).pending| + |Carriers(s.works, c)|
  {
    ReachableInv(s);
    assert LaneInv(s, c);
    if p :| p in s.procs && (s.procs[p] == Reserved(c) || s.procs[p] == InCommand(c)) {
      assert p in Holders(s.procs, c);
    }
  }

  /**
   A producer gets a slot exactly while fewer than 64 are held, queued or in delivery; it is turned away exactly once
   delivery is closed; its batch's being done lets it return; and its context may expire wherever it waits.
   */
  lemma WaitingEnds(s: System, p: ProducerID)
    requires Reachable(s) && p in s.procs
    ensures s.procs[p].Waiting? ==>
              var c := s.procs[p].lane;
              && (Next(s, Acquire(p)).Some? <==> |Holders(s.procs, c)| + |s.LaneOf(c).pending| + |Carriers(s.works, c)| < 64)
              && (Next(s, SeeClosing(p)).Some? <==> s.closed) && Next(s, GiveUp(p)).Some?
    ensures s.procs[p].Awaiting? ==> (Next(s, SeeDone(p)).Some? <==> p in s.done) && Next(s, Abandon(p)).Some?
  {
    if s.procs[p].Waiting? { SlotConservation(s, s.procs[p].lane); }
    hide Reachable, Holders, Carriers;
  }

  /** At most one worker of a lane is in its loop, and a queued batch has a worker or a producer about to start one. */
  lemma OneWorkerAndNoLostWakeup(s: System, c: ConfigurationName)
    requires Reachable(s)
    ensures forall w, v :: Looper(s, c, w) && Looper(s, c, v) ==> w == v
    ensures s.LaneOf(c).running <==> exists w :: Looper(s, c, w)
    ensures s.LaneOf(c).pending != [] ==> (exists w :: Looper(s, c, w)) || (exists p :: Waker(s, c, p))
  {
    ReachableInv(s);
    assert LaneInv(s, c);
    hide Inv, SlotsAt, OrderAt, Reachable;
  }

  /**
   The batches are finished in the order in which they were enqueued under the command lock: the finished ones, the one
   in delivery and the queued ones are all of them in that order; and the events attempted so far are, in order and
   each once, those of the finished batches and the first ones of the batch in delivery.
   */
  lemma InOrderDelivery(s: System, c: ConfigurationName) returns (current: seq<Batch>, k: nat)
    requires Reachable(s)
    ensures var l := s.LaneOf(c);
            && l.sent == l.finished + current + l.pending && |current| <= 1
            && k <= |Flatten(current)| && l.attempts == Flatten(l.finished) + Flatten(current)[..k]
  {
    ReachableInv(s);
    assert OrderAt(s, c) by { assert LaneInv(s, c); }
    hide Inv, Reachable;
    if w :| Busy(s, c, w) {
      var b := s.works[w].batch;
      FlattenOne([], b);
      assert [] + [b] == [b] && Flatten([]) + b.events == b.events;
      hide Flatten;
      current, k := [b], s.works[w].attempted;
    } else {
      current, k := [], 0;
      assert Flatten([])[..0] == [];
      hide Flatten;
      assert s.LaneOf(c).finished + [] == s.LaneOf(c).finished;
    }
  }

  lemma SentOnce(s: System, c: ConfigurationName, d: ConfigurationName, i: nat, j: nat)
    requires OwnersOk(s) && i < |s.LaneOf(c).sent| && j < |s.LaneOf(d).sent|
    requires s.LaneOf(c).sent[i].owner == s.LaneOf(d).sent[j].owner
    ensures c == d && i == j
  {
    assert SentBy(s, c, i, s.LaneOf(c).sent[i].owner) && SentBy(s, d, j, s.LaneOf(c).sent[i].owner);
  }

  /** A batch is announced as done once: when a worker is about to, it has not been, and all its events were attempted. */
  lemma DoneOnce(s: System, w: WorkerID)
    requires Reachable(s) && Next(s, Finish(w)).Some?
    ensures var b := s.works[w].batch;
            b.owner !in s.done && s.works[w].attempted == |b.events|
  {
    ReachableInv(s);
    var c, b := s.works[w].lane, s.works[w].batch;
    assert s.works[w].Delivering? && s.works[w].attempted >= |b.events|;
    var l := s.LaneOf(c);
    hide Next, Reachable, SlotsAt, NoLostWakeup, WorkersAt, GroupsOk, LocksOk, ClosersOk, Flatten;
    assert LaneInv(s, c) && Busy(s, c, w);
    assert l.sent[|l.finished|] == b;
    if b.owner in s.done {
      assert DoneOk(s);
      var d, i: nat :| FinishedBy(s, d, i, b.owner);
      FinishedIsSent(s, d, i);
      SentOnce(s, c, d, |l.finished|, i);
      assert false;
    }
  }

  lemma FinishedIsSent(s: System, c: ConfigurationName, i: nat)
    requires Inv(s) && i < |s.LaneOf(c).finished|
    ensures i < |s.LaneOf(c).sent| && s.LaneOf(c).sent[i] == s.LaneOf(c).finished[i]
  {
    hide SlotsAt, NoLostWakeup, WorkersAt, GroupsOk, LocksOk, ClosersOk, OwnersOk, DoneOk, Flatten;
    assert LaneInv(s, c);
    if w :| Busy(s, c, w) {
      assert s.LaneOf(c).sent == s.LaneOf(c).finished + [s.works[w].batch] + s.LaneOf(c).pending;
    }
  }

  /** When CloseDelivery returns nil after closing, every batch of every lane was attempted in full and no worker is left. */
  lemma ShutdownDrains(s: System, k: CloserID, c: ConfigurationName)
    requires Reachable(s) && k in s.closers && s.closers[k].Drained?
    ensures s.closed && (forall w <- s.works :: s.works[w].Ended?)
    ensures var l := s.LaneOf(c);
            l.pending == [] && !l.running && l.finished == l.sent && l.attempts == Flatten(l.sent)
  {
    ReachableInv(s);
    hide Reachable, SlotsAt, GroupsOk, LocksOk, OwnersOk, DoneOk, Flatten;
    assert CloserOk(s, s.closers[k]) && LaneInv(s, c);
    forall w <- s.works ensures s.works[w].Ended? { assert w !in Alive(s.works); }
    forall p ensures !Waker(s, c, p) { assert p !in Registered(s.procs); }
    assert forall w :: !Looper(s, c, w) && !Busy(s, c, w);
    assert s.LaneOf(c).finished + [] == s.LaneOf(c).finished;
  }

  /**
   A command that returns because its batch is done finds it among the finished batches of a lane, and an attempt was
   made to publish every one of its events.
   */
  lemma ReturnsDelivered(s: System, p: ProducerID) returns (c: ConfigurationName, i: nat)
    requires Reachable(s) && Next(s, SeeDone(p)).Some?
    ensures i < |s.LaneOf(c).finished| && s.LaneOf(c).finished[i].owner == p && s.LaneOf(c).finished[i].events != []
    ensures Flatten(s.LaneOf(c).finished) <= s.LaneOf(c).attempts
  {
    ReachableInv(s);
    hide Reachable, SlotsAt, NoLostWakeup, WorkersAt, GroupsOk, LocksOk, ClosersOk, Flatten;
    assert DoneOk(s) && p in s.done;
    var d, j: nat :| FinishedBy(s, d, j, p);
    c, i := d, j;
    FinishedIsSent(s, c, i);
    assert SentBy(s, c, i, p);
    hide Next, Inv, DoneOk, OwnersOk, SendersOk;
    var current, k := InOrderDelivery(s, c);
  }

  /**
   How a call of CloseDelivery goes on: past its wait for the producers only with none registered; from its wait for the
   workers, and from the wait that follows the expiry of its context there, only with no worker left; and it gives up
   early only where its context has expired.
   */
  lemma CloserMoves(s: System, a: Action, t: System, k: CloserID)
    requires Reachable(s) && Next(s, a) == Some(t) && k in s.closers
    ensures k in t.closers
    ensures var before, after := s.closers[k], t.closers[k];
            after == before
            || (before.AwaitingProducers? && after.AwaitingWorkers? && forall p <- s.procs :: !s.procs[p].Counted())
            || (before.AwaitingWorkers? && after.Drained? && forall w <- s.works :: s.works[w].Ended?)
            || (before.Cancelling? && after.Expired? && forall w <- s.works :: s.works[w].Ended?)
            || (a == Expire(k) && before.AwaitingProducers? && after.Expired?)
            || (a == Expire(k) && before.AwaitingWorkers? && after.Cancelling?)
  {
    ReachableInv(s);
    hide Reachable, LaneInv, LocksOk, OwnersOk, DoneOk, SendersOk, Next;
    if IsCloser(a) {
      hide ClosersOk;
      assert GroupsOk(s);
      if s.producers == 0 { forall p <- s.procs ensures !s.procs[p].Counted() { assert p !in Registered(s.procs); } }
      if s.workers == 0 { forall w <- s.works ensures s.works[w].Ended? { assert w !in Alive(s.works); } }
      hide Inv, GroupsOk, Phase.Counted;
      CloserPhases(s, a, t, k);
    } else {
      hide GroupsOk;
      ClosersKept(s, a, t);
    }
  }

  lemma CloserPhases(s: System, a: Action, t: System, k: CloserID)
    requires IsCloser(a) && Next(s, a) == Some(t) && k in s.closers
    ensures k in t.closers
    ensures var before, after := s.closers[k], t.closers[k];
            after == before
            || (before.AwaitingProducers? && after.AwaitingWorkers? && s.producers == 0)
            || (before.AwaitingWorkers? && after.Drained? && s.workers == 0)
            || (before.Cancelling? && after.Expired? && s.workers == 0)
            || (a == Expire(k) && before.AwaitingProducers? && after.Expired?)
            || (a == Expire(k) && before.AwaitingWorkers? && after.Cancelling?)
  {
    hide ProducerStep, WorkerStep, ArriveStep, System.SetCloser;
    if a.Close? {
      CloserSet(s, a.k, Unused);
      CloserSet(s.(closed := true), a.k, AwaitingProducers);
    } else if a.ProducersDone? {
      CloserSet(s, a.k, AwaitingWorkers);
    } else if a.WorkersDone? {
      CloserSet(s, a.k, Drained);
      CloserSet(s, a.k, Expired);
    } else {
      CloserSet(s, a.k, Expired);
      CloserSet(s, a.k, Cancelling);
    }
  }

  lemma CloserSet(s: System, k: CloserID, ph: CloserPhase)
    ensures s.SetCloser(k, ph).closers == s.closers[k := ph]
  {
  }

  /** Once delivery is closed it stays closed, and no reservation succeeds any more. */
  lemma NoReservationAfterClose(s: System, a: Action, t: System, p: ProducerID)
    requires s.closed && Next(s, a) == Some(t) && p in t.procs && t.procs[p].Reserved?
    ensures t.closed && p in s.procs && s.procs[p].Counted()
  {
    ClosedShrinks(s, a, t);
    assert p in Registered(t.procs);
  }

  /** No producer is added once a wait for the producers has begun, and no worker once a wait for the workers has. */
  lemma NoAddAfterWait(s: System, a: Action, t: System)
    requires Reachable(s) && Next(s, a) == Some(t)
    ensures t.producers > s.producers ==> forall k <- s.closers :: s.closers[k].Unused?
    ensures t.workers > s.workers ==>
              forall k <- s.closers :: s.closers[k] !in {AwaitingWorkers, Cancelling, Drained}
  {
    ReachableInv(s);
    StepInv(s, a, t);
    hide Reachable, LaneInv, LocksOk, OwnersOk, DoneOk, Next;
    if s.closed { ClosedShrinks(s, a, t); }
    hide Registered, Alive;
    assert ClosersOk(s);
    assert GroupsOk(s) && GroupsOk(t);
    if s.closed {
      Smaller(Registered(t.procs), Registered(s.procs));
      if Registered(s.procs) == {} { Smaller(Alive(t.works), Alive(s.works)); }
    }
    forall k <- s.closers
      ensures t.producers > s.producers ==> s.closers[k].Unused?
      ensures t.workers > s.workers ==> s.closers[k] !in {AwaitingWorkers, Cancelling, Drained}
    {
      assert CloserOk(s, s.closers[k]);
    }
  }

  lemma Smaller<T>(a: set<T>, b: set<T>)
    requires a <= b
    ensures |a| <= |b|
  {
    assert b == a + (b - a);
  }

  /**
   CloseDelivery closes delivery exactly if some reservation has been attempted before. A call before the first one
   returns nil and leaves delivery open, so that later reservations succeed.
   */
  lemma CloseTakesEffect(s: System, k: CloserID)
    requires Reachable(s) && Next(s, Close(k)).Some?
    ensures Next(s, Close(k)).value.closed <==> s.procs != map[]
  {
    ReachableInv(s);
    hide Reachable, LaneInv, GroupsOk, LocksOk, OwnersOk, DoneOk;
    assert ClosersOk(s);
  }

  lemma ReservationAfterEarlyClose()
    ensures exists s :: Reachable(s) && s.closers == map[0 := Unused] && s.procs == map[0 := Reserved("c")]
  {
    var actions := [Close(0), Arrive(0, "c"), Acquire(0), Confirm(0)];
    var s1 := Start.SetCloser(0, Unused);
    var s2 := s1.(initialised := true).SetProc(0, Waiting("c"));
    var s3 := s2.SetLane("c", IdleLane.TakeSlot()).SetProc(0, HasSlot("c"));
    var s4 := s3.(producers := 1).SetProc(0, Reserved("c"));
    assert Next(Start, actions[0]) == Some(s1) && Next(s1, actions[1]) == Some(s2);
    assert s2.LaneOf("c") == IdleLane && Next(s2, actions[2]) == Some(s3) by { assert s2.locks == s3.locks; }
    assert s3.lanes["c" := s3.LaneOf("c")] == s3.lanes;
    assert s3.LaneOf("c") == IdleLane.TakeSlot() && Next(s3, actions[3]) == Some(s4);
    hide Next;
    FourSteps(s1, s2, s3, s4, actions);
    assert s4.procs == map[0 := Reserved("c")];
  }

  lemma FourSteps(s1: System, s2: System, s3: System, s4: System, actions: seq<Action>)
    requires |actions| == 4 && Next(Start, actions[0]) == Some(s1) && Next(s1, actions[1]) == Some(s2)
    requires Next(s2, actions[2]) == Some(s3) && Next(s3, actions[3]) == Some(s4)
    ensures Run(Start, actions) == Some(s4)
  {
    hide Next;
    var a, b, c, d := actions[0], actions[1], actions[2], actions[3];
    assert [d][1..] == [] && Run(s3, [d]) == Some(s4);
    RunOneMore(s2, c, s3, [d], s4);
    RunOneMore(s1, b, s2, [c] + [d], s4);
    RunOneMore(Start, a, s1, [b] + ([c] + [d]), s4);
    assert actions == [a] + ([b] + ([c] + [d]));
  }

  lemma RunOneMore(s: System, a: Action, t: System, rest: seq<Action>, u: System)
    requires Next(s, a) == Some(t) && Run(t, rest) == Some(u)
    ensures Run(s, [a] + rest) == Some(u)
  {
    hide Next;
    assert ([a] + rest)[1..] == rest;
  }
}
