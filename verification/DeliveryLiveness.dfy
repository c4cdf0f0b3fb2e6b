/**
 Event delivery makes progress: while a producer waits for a slot some step is possible; without new arrivals a measure
 falls with every step; and where no step is left, nothing is queued, no worker runs and no slot is occupied.
 */
module DeliveryLiveness {
  import opened Wrappers
  import opened Domain
  import opened Delivery
  import opened DeliverySafety
  import opened DeliveryRuns

  /** A step that does not depend on an arrival, on CloseDelivery, or on a context expiring. */
  predicate Progresses(a: Action) {
    (IsProducer(a) && !a.GiveUp? && !a.Abandon?) || IsWorker(a)
  }

  /** It is a step of a producer or a worker of lane `c`. */
  predicate StepsIn(s: System, a: Action, c: ConfigurationName) {
    if IsProducer(a) then a.p in s.procs && !s.procs[a.p].Gone? && s.procs[a.p].lane == c
    else IsWorker(a) && a.w in s.works && !s.works[a.w].Ended? && s.works[a.w].lane == c
  }

  ghost predicate CanProgress(s: System, c: ConfigurationName) {
    exists a: Action :: Progresses(a) && StepsIn(s, a, c) && Next(s, a).Some?
  }

  // ----- which step a process can take

  ghost function Above(ids: set<nat>): (n: nat)
    ensures forall i <- ids :: i < n
  {
    if ids == {} then 0
    else
      var i :| i in ids;
      var n := Above(ids - {i});
      assert ids == (ids - {i}) + {i};
      if i < n then n else i + 1
  }

  /** A worker in its loop, or on its way out, always has a step, provided its slot is there. */
  lemma WorkerProgress(s: System, w: WorkerID)
    requires Inv(s) && w in s.works && !s.works[w].Ended?
    ensures CanProgress(s, s.works[w].lane)
  {
    var ph := s.works[w];
    var c := ph.lane;
    assert ph.Returning? ==> s.LaneOf(c).slots > 0 by {
      assert LaneInv(s, c);
      if ph.Returning? { assert w in Carriers(s.works, c); }
    }
    assert s.workers > 0 by {
      assert GroupsOk(s) && w in Alive(s.works);
    }
    hide Inv, Holders, Carriers;
    var a := match ph
             case Looking(_) => Look(w)
             case Delivering(_, b, k) => if k < |b.events| then Publish(w) else Finish(w)
             case Returning(_) => Return(w)
             case _ => Exit(w);
    assert Next(s, a).Some?;
  }

  /** The producer that is inside its command can finish it. */
  lemma CommandProgress(s: System, p: ProducerID, c: ConfigurationName)
    requires p in s.procs && s.procs[p].Locks(c)
    ensures CanProgress(s, c)
  {
    var a := if s.procs[p].InCommand? then Generate(p, []) else Unlock(p);
    assert Progresses(a) && Next(s, a).Some?;
  }

  /** A producer past reserveDelivery, or holding a slot, has a step or waits for one that has. */
  lemma ProducerProgress(s: System, p: ProducerID)
    requires Inv(s) && p in s.procs && !s.procs[p].Gone? && !s.procs[p].Waiting? && !s.procs[p].Awaiting?
    ensures CanProgress(s, s.procs[p].lane)
  {
    var ph := s.procs[p];
    var c := ph.lane;
    assert ph.Holds(c) ==> s.LaneOf(c).slots > 0 by {
      assert LaneInv(s, c);
      if ph.Holds(c) { assert p in Holders(s.procs, c); }
    }
    assert ph.Counted() ==> s.producers > 0 by {
      if ph.Counted() { assert GroupsOk(s) && p in Registered(s.procs); }
    }
    if ph.Reserved? && c in s.locks {
      assert LocksOk(s) && HoldsLock(s, c, s.locks[c]);
      CommandProgress(s, s.locks[c], c);
    } else {
      hide Inv, Holders, Registered;
      OwnStep(s, p);
    }
  }

  lemma OwnStep(s: System, p: ProducerID)
    requires p in s.procs && !s.procs[p].Gone? && !s.procs[p].Waiting? && !s.procs[p].Awaiting?
    requires s.procs[p].Holds(s.procs[p].lane) ==> s.LaneOf(s.procs[p].lane).slots > 0
    requires s.procs[p].Counted() ==> s.producers > 0
    requires s.procs[p].Reserved? ==> s.procs[p].lane !in s.locks
    ensures CanProgress(s, s.procs[p].lane)
  {
    var w := Above(s.works.Keys);
    var a := match s.procs[p]
             case HasSlot(_) => Confirm(p)
             case Refunding(_) => Refund(p)
             case Reserved(_) => Lock(p)
             case InCommand(_) => Generate(p, [])
             case Enqueued(_) | Skipped(_) => Unlock(p)
             case Unlocked(_) => Wake(p, w)
             case Draining(_) => Drain(p)
             case _ => Leave(p);
    assert Progresses(a) && Next(s, a).Some?;
  }

  /** A lane with an occupied slot, or with a queued batch, has a process that can take a step. */
  lemma LaneProgress(s: System, c: ConfigurationName)
    requires Inv(s) && (s.LaneOf(c).slots > 0 || s.LaneOf(c).pending != [] || s.LaneOf(c).running)
    ensures CanProgress(s, c)
  {
    hide CanProgress, GroupsOk, LocksOk, OwnersOk, DoneOk, ClosersOk, OrderAt;
    assert LaneInv(s, c);
    if s.LaneOf(c).running {
      var w :| Looper(s, c, w);
      WorkerProgress(s, w);
    } else if s.LaneOf(c).pending != [] {
      var p :| Waker(s, c, p);
      ProducerProgress(s, p);
    } else {
      SlotHeld(s, c);
    }
  }

  lemma SlotHeld(s: System, c: ConfigurationName)
    requires Inv(s) && s.LaneOf(c).slots > 0 && s.LaneOf(c).pending == []
    ensures CanProgress(s, c)
  {
    hide CanProgress, GroupsOk, LocksOk, OwnersOk, DoneOk, ClosersOk, OrderAt, NoLostWakeup;
    assert LaneInv(s, c);
    assert Holders(s.procs, c) != {} || Carriers(s.works, c) != {};
    if p :| p in Holders(s.procs, c) {
      ProducerProgress(s, p);
    } else {
      var w :| w in Carriers(s.works, c);
      WorkerProgress(s, w);
    }
  }

  /**
   Back-pressure does not deadlock: while a producer waits for a slot, it can take one, or another producer or a worker
   of the same lane can go on.
   */
  lemma NoDeadlock(s: System, p: ProducerID)
    requires Reachable(s) && p in s.procs && s.procs[p].Waiting?
    ensures CanProgress(s, s.procs[p].lane)
  {
    ReachableInv(s);
    var c := s.procs[p].lane;
    hide Inv, CanProgress;
    if s.LaneOf(c).slots < Capacity {
      assert Next(s, Acquire(p)).Some?;
      TakesStep(s, Acquire(p), c);
    } else {
      LaneProgress(s, c);
    }
  }

  lemma TakesStep(s: System, a: Action, c: ConfigurationName)
    requires Progresses(a) && StepsIn(s, a, c) && Next(s, a).Some?
    ensures CanProgress(s, c)
  {
  }

  // ----- quiescence

  /** A producer that awaits its batch either sees it done, or the batch is still on its way. */
  lemma AwaitedProgress(s: System, p: ProducerID)
    requires Reachable(s) && p in s.procs && s.procs[p].Awaiting?
    ensures exists c :: CanProgress(s, c)
  {
    ReachableInv(s);
    assert SendersOk(s) && SentSomething(s, p);
    hide Reachable, CanProgress;
    if p in s.done {
      assert Next(s, SeeDone(p)).Some?;
      TakesStep(s, SeeDone(p), s.procs[p].lane);
    } else {
      var c, i: nat :| SentBy(s, c, i, p);
      hide Next;
      UnfinishedLane(s, c, i, p);
    }
  }

  lemma UnfinishedLane(s: System, c: ConfigurationName, i: nat, p: ProducerID)
    requires Inv(s) && SentBy(s, c, i, p) && p !in s.done
    ensures CanProgress(s, c)
  {
    hide CanProgress, GroupsOk, LocksOk, OwnersOk, ClosersOk, SlotsAt, NoLostWakeup, Flatten;
    assert LaneInv(s, c) && DoneOk(s);
    assert !FinishedBy(s, c, i, p);
    if w :| Busy(s, c, w) {
      assert Looper(s, c, w);
      WorkerProgress(s, w);
    } else {
      assert s.LaneOf(c).pending != [];
      hide Inv;
      LaneProgress(s, c);
    }
  }

  /** Where no step is possible every producer and worker is gone and every lane is empty and has delivered all it was sent. */
  lemma Quiescence(s: System)
    requires Reachable(s) && forall c :: !CanProgress(s, c)
    ensures forall p <- s.procs :: s.procs[p].Gone?
    ensures forall w <- s.works :: s.works[w].Ended?
    ensures forall c :: var l := s.LaneOf(c);
              l.pending == [] && !l.running && l.slots == 0 && l.finished == l.sent && l.attempts == Flatten(l.sent)
  {
    ReachableInv(s);
    hide CanProgress, Inv, Flatten;
    forall p <- s.procs ensures s.procs[p].Gone? {
      if !s.procs[p].Gone? {
        if s.procs[p].Waiting? {
          NoDeadlock(s, p);
        } else if s.procs[p].Awaiting? {
          AwaitedProgress(s, p);
        } else {
          ProducerProgress(s, p);
        }
      }
    }
    forall w <- s.works ensures s.works[w].Ended? {
      if !s.works[w].Ended? { WorkerProgress(s, w); }
    }
    hide Reachable;
    forall c ensures var l := s.LaneOf(c);
        l.pending == [] && !l.running && l.slots == 0 && l.finished == l.sent && l.attempts == Flatten(l.sent) {
      var l := s.LaneOf(c);
      if l.slots > 0 || l.pending != [] || l.running { LaneProgress(s, c); }
      AllFinished(s, c);
    }
  }

  lemma AllFinished(s: System, c: ConfigurationName)
    requires Inv(s) && s.LaneOf(c).pending == [] && forall w <- s.works :: s.works[w].Ended?
    ensures var l := s.LaneOf(c); l.finished == l.sent && l.attempts == Flatten(l.sent)
  {
    hide GroupsOk, LocksOk, OwnersOk, DoneOk, ClosersOk, SlotsAt, WorkersAt, NoLostWakeup, Flatten;
    assert LaneInv(s, c);
    assert forall w :: !Busy(s, c, w);
    assert s.LaneOf(c).finished + [] == s.LaneOf(c).finished;
  }

  // ----- a measure that falls

  function ProducerRank(ph: Phase): nat {
    match ph
    case Waiting(_) => 12
    case HasSlot(_) => 11
    case Reserved(_) => 10
    case InCommand(_) => 9
    case Enqueued(_) | Skipped(_) => 8
    case Unlocked(_) | SkippedUnlocked(_) => 7
    case Started(_) | Draining(_) => 6
    case Awaiting(_) | Refunding(_) => 5
    case Gone => 0
  }

  function WorkerRank(ph: WorkerPhase): nat {
    match ph
    case Delivering(_, b, k) => if k < |b.events| then |b.events| - k + 4 else 4
    case Returning(_) => 3
    case Looking(_) => 2
    case Exiting(_) => 1
    case Ended => 0
  }

  function QueueRank(pending: seq<Batch>): nat {
    if pending == [] then 0 else |pending[0].events| + 3 + QueueRank(pending[1..])
  }

  ghost function Sum<K(!new)>(m: map<K, nat>): nat
    decreases |m|
  {
    if m == map[] then 0
    else
      var k :| k in m;
      assert |m - {k}| < |m| by {
        assert k in m.Keys && (m - {k}).Keys == m.Keys - {k};
        assert |m.Keys| == |m| && |(m - {k}).Keys| == |m - {k}|;
      }
      m[k] + Sum(m - {k})
  }

  lemma {:induction false} SumAt<K(!new)>(m: map<K, nat>, k: K)
    requires k in m
    ensures Sum(m) == m[k] + Sum(m - {k})
    decreases |m|
  {
    var j :| j in m && Sum(m) == m[j] + Sum(m - {j});
    if j != k {
      assert |m - {j}| < |m| && |m - {k}| < |m| by {
        assert (m - {j}).Keys == m.Keys - {j} && (m - {k}).Keys == m.Keys - {k};
        assert |m.Keys| == |m| && |(m - {k}).Keys| == |m - {k}| && |(m - {j}).Keys| == |m - {j}|;
      }
      SumAt(m - {j}, k);
      SumAt(m - {k}, j);
      assert m - {j} - {k} == m - {k} - {j};
    }
  }

  lemma SumPut<K(!new)>(m: map<K, nat>, k: K, n: nat)
    ensures Sum(m[k := n]) == Sum(m) - (if k in m then m[k] else 0) + n
  {
    SumAt(m[k := n], k);
    if k in m {
      SumAt(m, k);
      assert m[k := n] - {k} == m - {k};
    } else {
      assert m[k := n] - {k} == m;
    }
  }

  ghost function ProducerMeasure(s: System): nat {
    Sum(map p | p in s.procs :: ProducerRank(s.procs[p]))
  }

  ghost function DeliveryMeasure(s: System): nat {
    Sum(map w | w in s.works :: WorkerRank(s.works[w])) + Sum(map c | c in s.lanes :: QueueRank(s.lanes[c].pending))
  }

  lemma ProducerMoveFalls(a: Action, ph: Phase, l: Lane, closed: bool, free: bool, done: bool)
    requires IsProducer(a) && !ph.Gone? && ProducerMove(a, ph, l, closed, free, done).Some?
    ensures ProducerRank(ProducerMove(a, ph, l, closed, free, done).value.phase) < ProducerRank(ph)
  {
  }

  lemma WorkerMoveFalls(a: Action, ph: WorkerPhase, l: Lane)
    requires IsWorker(a) && !ph.Ended? && WorkerMove(a, ph, l).Some?
    ensures var e := WorkerMove(a, ph, l).value;
            WorkerRank(e.phase) + QueueRank(e.lane.pending) < WorkerRank(ph) + QueueRank(l.pending)
  {
  }

  lemma ProducerMeasureFalls(s: System, a: Action, t: System)
    requires IsProducer(a) && ProducerStep(s, a) == Some(t)
    ensures ProducerMeasure(t) < ProducerMeasure(s)
  {
    hide ProducerStep, ProducerMove, UseLock;
    var e, w := ProducerEffect(s, a, t);
    var ph := s.procs[a.p];
    ProducerMoveFalls(a, ph, s.LaneOf(ph.lane), s.closed, ph.lane !in s.locks, a.p in s.done);
    hide ProducerRank;
    var m := map p | p in s.procs :: ProducerRank(s.procs[p]);
    assert (map p | p in t.procs :: ProducerRank(t.procs[p])) == m[a.p := ProducerRank(e.phase)];
    SumPut(m, a.p, ProducerRank(e.phase));
  }

  lemma DeliveryMeasureFalls(s: System, a: Action, t: System)
    requires IsWorker(a) && WorkerStep(s, a) == Some(t)
    ensures DeliveryMeasure(t) < DeliveryMeasure(s) && ProducerMeasure(t) == ProducerMeasure(s)
  {
    hide WorkerStep, WorkerMove, WorkerRank, QueueRank, DeliveryMeasure;
    var e := WorkerEffect(s, a, t);
    WorkerMoveFalls(a, s.works[a.w], s.LaneOf(s.works[a.w].lane));
    MeasureAfter(s, t, a.w, s.works[a.w].lane, e);
    assert t.procs == s.procs;
  }

  /** The measure changes by what one worker and one queue contribute. */
  lemma MeasureAfter(s: System, t: System, w: WorkerID, c: ConfigurationName, e: WorkEffect)
    requires w in s.works && t.works == s.works[w := e.phase] && t.lanes == s.lanes[c := e.lane]
    ensures DeliveryMeasure(t) == DeliveryMeasure(s) - WorkerRank(s.works[w]) - QueueRank(s.LaneOf(c).pending)
                                  + WorkerRank(e.phase) + QueueRank(e.lane.pending)
  {
    assert QueueRank([]) == 0;
    hide WorkerRank, QueueRank, Sum;
    var m := map v | v in s.works :: WorkerRank(s.works[v]);
    var n := map d | d in s.lanes :: QueueRank(s.lanes[d].pending);
    assert (map v | v in t.works :: WorkerRank(t.works[v])) == m[w := WorkerRank(e.phase)];
    assert (map d | d in t.lanes :: QueueRank(t.lanes[d].pending)) == n[c := QueueRank(e.lane.pending)];
    SumPut(m, w, WorkerRank(e.phase));
    SumPut(n, c, QueueRank(e.lane.pending));
  }

  /**
   Every step of a producer brings it nearer to its end, and every other step brings the queued events nearer to theirs:
   without arrivals the steps of producers and workers come to an end.
   */
  lemma MeasureFalls(s: System, a: Action, t: System)
    requires (IsProducer(a) || IsWorker(a)) && Next(s, a) == Some(t)
    ensures ProducerMeasure(t) < ProducerMeasure(s)
            || (ProducerMeasure(t) == ProducerMeasure(s) && DeliveryMeasure(t) < DeliveryMeasure(s))
  {
    hide ProducerStep, WorkerStep, ProducerMeasure, DeliveryMeasure;
    if IsProducer(a) {
      ProducerMeasureFalls(s, a, t);
    } else {
      DeliveryMeasureFalls(s, a, t);
    }
  }
}
