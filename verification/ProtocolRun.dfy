/**
 Every run in which the engine keeps its contract, and what follows: the order of the events about each ticket and each
 match, the tracker as a mirror of the engine, clean tickets in the pool, and exact reports of decisions.
 */
module ProtocolRun {
  import opened Wrappers
  import opened Domain
  import opened RosterKey
  import opened ProposalTracking
  import opened ServiceState
  import opened Tick
  import opened Commands
  import opened Runs
  import opened AnyEngine
  import opened AnyRun
  import opened Traces
  import opened EngineContract
  import opened Protocol
  import opened ProtocolSettle
  import opened ProtocolFinalize
  import opened ProtocolSync
  import opened ProtocolTick
  import opened ProtocolCommands

  // ----- client commands

  /** The next session after a client command. */
  ghost predicate Follows(g: Session, v: Work, now: Time, g2: Session) {
    && g2.world == g.world.After(v.svc, v.batch, now)
    && g2.acceptance == g.acceptance && g2.pending == g.pending && g2.used == g.used
    && (forall id <- v.svc.tickets :: v.svc.tickets[id].Terminal() ==> g2.EngineEnded(id))
  }

  lemma CommandInv(g: Session, v: Work, now: Time, g2: Session)
    requires Inv(g) && Sound(g.world) && Mid(g, v, g.used) && Follows(g, v, now, g2)
    requires forall d :: v.svc.TrackerOf(d) == g.world.svc.TrackerOf(d)
    ensures Inv(g2)
  {
    SoundBorn(g);
    hide Mid, BornOk, Sound, SameProposal;
    CarriedMid(g, v, v.svc, now, g2, g.used);
    forall c ensures Mirrors(g2.world.svc, c, g2.Pending(c)) {
      SameMirrors(g.world.svc, v.svc, c, g.Pending(c));
    }
    hide Mirrors;
    forall c | c !in g2.acceptance ensures g2.world.svc.TrackerOf(c).byMatch == map[] {
      assert g2.world.svc.TrackerOf(c) == g.world.svc.TrackerOf(c);
    }
  }

  lemma EngineFollows(g: Session, s: Service, id: TicketID)
    requires Inv(g) && id in s.tickets && s.tickets[id].Terminal() && id in g.world.svc.tickets
    ensures id in EngineAfterCommand(g, s) && EngineAfterCommand(g, s)[id].IsTerminal()
  {
    hide Mid, Mirrors;
  }

  lemma NoEarlierEvents(g: Session, id: TicketID)
    requires Inv(g) && id !in g.world.svc.tickets
    ensures g.world.Since(id) == []
  {
    hide Mid, Mirrors, EngineKnows;
  }

  lemma StartInv(g: Session, x: StartInput)
    requires Inv(g) && Sound(g.world) && PlainID(x.ticketID) && PlainID(x.generatedID)
    ensures Inv(Advance(g, Start(x)))
  {
    var s, t, r := g.world.svc, StartedTicket(x), StartMatchmaking(x, g.world.svc);
    var w, v := Work(s, [], false), Work(r.svc, r.batch, false);
    StartCases(x, s);
    hide StartMatchmaking, Mid, Sound, Mirrors, EngineKnows;
    if r.outcome.Pass? {
      NoEarlierEvents(g, t.id);
      NamedNothing(t.id);
      hide Named;
      assert w.batch + [SearchingStarted(t.id)] == v.batch;
      assert Registered(g, w, v, t);
      RegisteredMid(g, w, v, t, g.used);
    } else {
      UnseenMid(g, w, v, g.used);
    }
    hide Registered, Unseen, Inv;
    forall id <- r.svc.tickets | r.svc.tickets[id].Terminal() ensures Advance(g, Start(x)).EngineEnded(id) {
      EngineFollows(g, r.svc, id);
    }
    CommandInv(g, v, x.now, Advance(g, Start(x)));
  }

  // ----- backfill

  lemma PlanFresh(x: BackfillInput, s: Service)
    requires PlanBackfill(x, s).Replace? && PlainID(x.start.ticketID) && PlainID(x.start.generatedID)
    ensures var t := PlanBackfill(x, s).ticket; Fresh(t.Drained()) && PlainID(t.id) && t.events == [SearchingStarted(t.id)]
  {
    hide FindSessionBackfill, SeatedTeams;
  }

  lemma SupersededFrom(x: BackfillInput, s: Service, prior: TicketState) returns (u: TicketState)
    requires Pooled(prior.status) && Clean(prior) && prior.events == [] && !x.cancelPrior.Fault?
    ensures SupersedeBackfill(x, s, prior) == Result(s.Save(u.Drained()), u.events, Pass)
    ensures u.id == prior.id && u.Terminal() && SyncedFrom(prior, u)
    ensures u.events != [] && forall e <- u.events :: e.MatchmakingCancelled? && e.ticketID == prior.id
  {
    hide SeatedTeams;
    var t := if x.priorMetrics.Some? then prior.SetRuleMetrics(x.priorMetrics.value) else prior;
    u := t.MarkCancelled(SupersededMessage, x.start.now).value;
  }

  /** Replacing an outstanding request: it ends, then the new ticket is registered. */
  lemma ReplaceMid(g: Session, x: BackfillInput, t: TicketState, prior: TicketState)
    requires Inv(g) && Fit(g.world.svc) && t.id !in g.world.svc.tickets && !x.cancelPrior.Fault?
    requires Fresh(t.Drained()) && PlainID(t.id) && t.events == [SearchingStarted(t.id)]
    requires prior.id in g.world.svc.tickets && g.world.svc.tickets[prior.id] == prior && Pooled(prior.status)
    ensures var r := ReplaceBackfill(x, g.world.svc.Reserve(t.id), t, Some(prior));
            && Mid(g, Work(r.svc, r.batch, false), g.used)
            && (forall d :: r.svc.TrackerOf(d) == g.world.svc.TrackerOf(d))
            && (forall id <- r.svc.tickets :: id in g.world.svc.tickets || !r.svc.tickets[id].Terminal())
  {
    hide Fresh, Inv, Mid, SupersedeBackfill, ReplaceBackfill, Fit;
    var w1, u := SupersededMid(g, x, t, prior);
    var r := ReplaceBackfill(x, g.world.svc.Reserve(t.id), t, Some(prior));
    var v := Work(r.svc, r.batch, false);
    NoEarlierEvents(g, t.id);
    assert Registered(g, w1, v, t.Drained());
    RegisteredMid(g, w1, v, t.Drained(), g.used);
    FreshActive(t.Drained());
  }

  /** Halfway: the outstanding request has ended; the command will then register the new ticket. */
  lemma SupersededMid(g: Session, x: BackfillInput, t: TicketState, prior: TicketState)
    returns (w1: Work, u: TicketState)
    requires Inv(g) && Fit(g.world.svc) && t.id !in g.world.svc.tickets && !x.cancelPrior.Fault?
    requires t.events == [SearchingStarted(t.id)]
    requires prior.id in g.world.svc.tickets && g.world.svc.tickets[prior.id] == prior && Pooled(prior.status)
    ensures Mid(g, w1, g.used) && (forall d :: w1.svc.TrackerOf(d) == g.world.svc.TrackerOf(d))
    ensures w1.svc.tickets.Keys == g.world.svc.tickets.Keys && Named(w1.batch, t.id) == []
    ensures var r := ReplaceBackfill(x, g.world.svc.Reserve(t.id), t, Some(prior));
            && r.svc.tickets == w1.svc.tickets[t.id := t.Drained()] && r.batch == w1.batch + [SearchingStarted(t.id)]
            && (forall d :: r.svc.TrackerOf(d) == w1.svc.TrackerOf(d))
  {
    var s := g.world.svc.Reserve(t.id);
    var w0 := Work(g.world.svc, [], false);
    hide EngineKnows, Mirrors, Walk, Named, SupersedeBackfill, SyncedFrom;
    assert TicketRel(g, w0, prior.id);
    hide Mid;
    u := SupersededFrom(x, s, prior);
    hide TicketRel;
    w1 := Work(g.world.svc.Save(u.Drained()), u.events, false);
    SupersededStep(g.world.svc, w1, t, prior, u);
    SteppedMid(g, w0, w1, g.used, prior.id, u);
    OthersNotNamed(u.events, prior.id, t.id);
    hide Inv, Stepped;
    ReplacedAs(x, g.world.svc, t, prior, u);
  }

  lemma SupersededStep(s: Service, w1: Work, t: TicketState, prior: TicketState, u: TicketState)
    requires prior.id in s.tickets && s.tickets[prior.id] == prior && u.id == prior.id && SyncedFrom(prior, u)
    requires w1 == Work(s.Save(u.Drained()), u.events, false)
    ensures Stepped(Work(s, [], false), w1, prior.id, u)
    ensures (forall d :: w1.svc.TrackerOf(d) == s.TrackerOf(d)) && w1.svc.tickets.Keys == s.tickets.Keys
  {
    hide SyncedFrom;
    assert [] + u.events == u.events;
  }

  lemma ReplacedAs(x: BackfillInput, s: Service, t: TicketState, prior: TicketState, u: TicketState)
    requires SupersedeBackfill(x, s.Reserve(t.id), prior) == Result(s.Reserve(t.id).Save(u.Drained()), u.events, Pass)
    requires t.events == [SearchingStarted(t.id)]
    ensures var r := ReplaceBackfill(x, s.Reserve(t.id), t, Some(prior));
            && r.svc.tickets == s.Save(u.Drained()).tickets[t.id := t.Drained()] && r.batch == u.events + [SearchingStarted(t.id)]
            && (forall d :: r.svc.TrackerOf(d) == s.Save(u.Drained()).TrackerOf(d))
  {
    hide SupersedeBackfill;
  }

  lemma FreshActive(t: TicketState)
    requires Fresh(t)
    ensures !t.Terminal()
  {
  }

  lemma {:induction false} OthersNotNamed(events: seq<Event>, prior: TicketID, id: TicketID)
    requires id != prior && forall e <- events :: e.MatchmakingCancelled? && e.ticketID == prior
    ensures Named(events, id) == []
  {
    if events != [] {
      OthersNotNamed(events[..|events| - 1], prior, id);
      assert events[|events| - 1] in events;
    }
  }

  lemma FirstRequestMid(g: Session, x: BackfillInput, t: TicketState)
    requires Inv(g) && t.id !in g.world.svc.tickets
    requires Fresh(t.Drained()) && PlainID(t.id) && t.events == [SearchingStarted(t.id)]
    ensures var r := ReplaceBackfill(x, g.world.svc.Reserve(t.id), t, None);
            && Mid(g, Work(r.svc, r.batch, false), g.used)
            && (forall d :: r.svc.TrackerOf(d) == g.world.svc.TrackerOf(d))
            && (forall id <- r.svc.tickets :: id in g.world.svc.tickets || !r.svc.tickets[id].Terminal())
  {
    hide Fresh, Mid, EngineKnows, Mirrors;
    var w := Work(g.world.svc, [], false);
    var r := ReplaceBackfill(x, g.world.svc.Reserve(t.id), t, None);
    var v := Work(r.svc, r.batch, false);
    NoEarlierEvents(g, t.id);
    NamedNothing(t.id);
    hide Named;
    assert w.batch + t.events == v.batch;
    assert Registered(g, w, v, t.Drained());
    RegisteredMid(g, w, v, t.Drained(), g.used);
    FreshActive(t.Drained());
  }

  /** A request that fails leaves the tickets as the protocol sees them. */
  lemma FailedMid(g: Session, x: BackfillInput)
    requires Inv(g) && Fit(g.world.svc) && StartMatchBackfill(x, g.world.svc).outcome.Fail?
    ensures var r := StartMatchBackfill(x, g.world.svc);
            && Mid(g, Work(r.svc, r.batch, false), g.used)
            && (forall d :: r.svc.TrackerOf(d) == g.world.svc.TrackerOf(d))
            && r.svc.tickets.Keys == g.world.svc.tickets.Keys
  {
    hide Mid, EngineKnows, Mirrors, StartMatchBackfill, PlanBackfill;
    FailedBackfillUndone(x, g.world.svc);
    var r := StartMatchBackfill(x, g.world.svc);
    if HalfDone(x, g.world.svc) { PlanSound(x, g.world.svc); }
    hide Fit, HalfDone;
    UnseenMid(g, Work(g.world.svc, [], false), Work(r.svc, r.batch, false), g.used);
  }

  lemma BackfillMid(g: Session, x: BackfillInput)
    requires Inv(g) && Sound(g.world) && PlainID(x.start.ticketID) && PlainID(x.start.generatedID)
    ensures var r := StartMatchBackfill(x, g.world.svc);
            && Mid(g, Work(r.svc, r.batch, false), g.used)
            && (forall d :: r.svc.TrackerOf(d) == g.world.svc.TrackerOf(d))
            && (forall id <- r.svc.tickets :: id in g.world.svc.tickets || !r.svc.tickets[id].Terminal())
  {
    var s := g.world.svc;
    assert Fit(s);
    hide Inv, Mid, Fit, StartMatchBackfill, Sound, PlanBackfill, ReplaceBackfill;
    if StartMatchBackfill(x, s).outcome.Fail? {
      FailedMid(g, x);
    } else {
      SucceededPlan(x, s);
      PlanSound(x, s);
      PlanFresh(x, s);
      hide Fresh, Competing;
      var t, prior := PlanBackfill(x, s).ticket, PlanBackfill(x, s).prior;
      if prior.None? {
        FirstRequestMid(g, x, t);
      } else {
        if x.cancelPrior.Fault? { FaultFails(g, x, t, prior.value); }
        ReplaceMid(g, x, t, prior.value);
      }
    }
  }

  lemma SucceededPlan(x: BackfillInput, s: Service)
    requires StartMatchBackfill(x, s).outcome.Pass?
    ensures PlanBackfill(x, s).Replace?
    ensures var t, prior := PlanBackfill(x, s).ticket, PlanBackfill(x, s).prior;
            t.id !in s.tickets && StartMatchBackfill(x, s) == ReplaceBackfill(x, s.Reserve(t.id), t, prior)
  {
    hide PlanBackfill, ReplaceBackfill;
  }

  lemma FaultFails(g: Session, x: BackfillInput, t: TicketState, prior: TicketState)
    requires x.cancelPrior.Fault?
    ensures ReplaceBackfill(x, g.world.svc.Reserve(t.id), t, Some(prior)).outcome.Fail?
  {
  }

  lemma BackfillInv(g: Session, x: BackfillInput)
    requires Inv(g) && Sound(g.world) && PlainID(x.start.ticketID) && PlainID(x.start.generatedID)
    ensures Inv(Advance(g, Backfill(x)))
  {
    hide Mid, Mirrors, Sound, StartMatchBackfill;
    BackfillMid(g, x);
    var r := StartMatchBackfill(x, g.world.svc);
    hide Inv;
    forall id <- r.svc.tickets | r.svc.tickets[id].Terminal() ensures Advance(g, Backfill(x)).EngineEnded(id) {
      EngineFollows(g, r.svc, id);
    }
    CommandInv(g, Work(r.svc, r.batch, false), x.start.now, Advance(g, Backfill(x)));
  }

  // ----- accept and stop

  lemma AcceptRecorded(g: Session, x: AcceptInput)
    requires Inv(g) && Fit(g.world.svc) && AcceptMatch(x, g.world.svc).outcome.Pass?
    ensures var r := AcceptMatch(x, g.world.svc);
            Recorded(Work(g.world.svc, [], false), Work(r.svc, r.batch, false), x.ticketID, Dedupe(x.playerIDs), x.accepted)
  {
    var s := g.world.svc;
    hide AcceptMatch, Dedupe, EngineKnows, Mirrors, MergedAcceptances, RosterRel, OpenRel, MatchRel, Walk, Trace,
         PlayerIDs, TicketOk;
    AcceptReport(x, s);
    assert TicketRel(g, Work(s, [], false), x.ticketID);
    hide Mid;
    assert forall d :: AcceptMatch(x, s).svc.TrackerOf(d) == s.TrackerOf(d);
  }

  lemma RecordedKeeps(w: Work, v: Work, id: TicketID, players: seq<PlayerID>, accepted: bool)
    requires Recorded(w, v, id, players, accepted)
    ensures (forall d :: v.svc.TrackerOf(d) == w.svc.TrackerOf(d)) && v.svc.tickets.Keys == w.svc.tickets.Keys
  {
    hide MergedAcceptances, PlayerIDs;
  }

  lemma AcceptMid(g: Session, x: AcceptInput)
    requires Inv(g) && Fit(g.world.svc)
    ensures var r := AcceptMatch(x, g.world.svc);
            && Mid(g, Work(r.svc, r.batch, false), g.used)
            && (forall d :: r.svc.TrackerOf(d) == g.world.svc.TrackerOf(d))
            && r.svc.tickets.Keys == g.world.svc.tickets.Keys
  {
    hide AcceptMatch, Mid, Mirrors, EngineKnows, Dedupe, Fit;
    var s, r := g.world.svc, AcceptMatch(x, g.world.svc);
    var w, v := Work(s, [], false), Work(r.svc, r.batch, false);
    var e := AcceptCases(x, s);
    if r.outcome.Pass? {
      AcceptRecorded(g, x);
      RecordedKeeps(w, v, x.ticketID, Dedupe(x.playerIDs), x.accepted);
      hide Recorded;
      RecordedMid(g, w, v, g.used, x.ticketID, Dedupe(x.playerIDs), x.accepted);
    } else {
      UnseenMid(g, w, v, g.used);
    }
  }

  lemma AcceptInv(g: Session, x: AcceptInput)
    requires Inv(g) && Sound(g.world)
    ensures Inv(Advance(g, Accept(x)))
  {
    var r := AcceptMatch(x, g.world.svc);
    hide AcceptMatch, Inv, OneBackfillPerSession, TicketSound, Mid, EngineAfterCommand;
    AcceptMid(g, x);
    hide Fit;
    forall id <- r.svc.tickets | r.svc.tickets[id].Terminal() ensures Advance(g, Accept(x)).EngineEnded(id) {
      EngineFollows(g, r.svc, id);
    }
    CommandInv(g, Work(r.svc, r.batch, false), g.world.clock, Advance(g, Accept(x)));
  }

  lemma StopUnseen(x: StopInput, s: Service)
    requires Fit(s)
    ensures Unseen(Work(s, [], false), Work(StopMatchmaking(x, s).svc, StopMatchmaking(x, s).batch, false))
  {
    var r := StopMatchmaking(x, s);
    if r.outcome.Pass? {
      assert r.svc.tickets == s.tickets[x.ticketID := s.tickets[x.ticketID].RequestCancel()];
      assert r.svc.trackers == s.trackers;
    } else {
      assert r == Refuse(s, r.outcome.error);
    }
    hide StopMatchmaking;
  }

  lemma StopInv(g: Session, x: StopInput)
    requires Inv(g) && Sound(g.world)
    ensures Inv(Advance(g, Stop(x)))
  {
    var s, r := g.world.svc, StopMatchmaking(x, g.world.svc);
    StopUnseen(x, s);
    hide StopMatchmaking, Mid, Mirrors, OneBackfillPerSession, TicketSound, Fit;
    UnseenMid(g, Work(s, [], false), Work(r.svc, r.batch, false), g.used);
    assert EngineKnows(g);
    hide Inv;
    StopFollows(g, x);
    CommandInv(g, Work(r.svc, r.batch, false), g.world.clock, Advance(g, Stop(x)));
  }

  lemma StopFollows(g: Session, x: StopInput)
    requires EngineKnows(g)
    requires Unseen(Work(g.world.svc, [], false),
                    Work(StopMatchmaking(x, g.world.svc).svc, StopMatchmaking(x, g.world.svc).batch, false))
    ensures var r := StopMatchmaking(x, g.world.svc); Follows(g, Work(r.svc, r.batch, false), g.world.clock, Advance(g, Stop(x)))
  {
    hide StopMatchmaking;
    var r := StopMatchmaking(x, g.world.svc);
    forall id <- r.svc.tickets | r.svc.tickets[id].Terminal() ensures Advance(g, Stop(x)).EngineEnded(id) {
      assert AlmostSame(g.world.svc.tickets[id], r.svc.tickets[id]) && g.EngineEnded(id);
    }
  }

  // ----- the tick

  lemma RunTickPasses(x: TickInput, s: Service)
    requires !x.refused && !x.engine.fails && !Passes(x, s).failed
    ensures RunTick(x, s) == Passes(x, s).(svc := Passes(x, s).svc.Evict(x.config, x.now))
  {
    hide Settle, Finalize, Apply, Sync;
  }

  lemma EvictCarried(w: Work, c: ConfigurationName, now: Time)
    ensures Carried(w, w.svc.Evict(c, now))
  {
  }

  /** The engine has ended every ticket that ended during the tick. */
  lemma EndedKnown(g: Session, x: TickInput, w: Work, id: TicketID)
    requires Contracted(g, x) && id in w.svc.tickets && w.svc.tickets[id].Terminal()
    requires id in g.world.svc.tickets && w.svc.tickets[id].config == g.world.svc.tickets[id].config && EndedInTick(g, x, w, id)
    ensures id in EngineAfterTick(g, x) && EngineAfterTick(g, x)[id].IsTerminal()
  {
    hide Mid, Mirrors, Sound, RostersOk, CallsOk, PendingOk, FailedProposalsOk, AcceptanceOk, IDsOk, MatchedIDs,
         InMatches;
    MatchedTicket(x, id);
    assert AbsorbingOk(g, x) && EngineKnows(g);
    hide Contracted;
  }

  lemma MatchedTicket(x: TickInput, id: TicketID)
    ensures InMatches(x.engine, id) <==> id in MatchedIDs(x.engine)
  {
  }

  lemma TickIDsUsed(x: TickInput)
    ensures TickIDs(x) <= set m <- NewIDs(x.engine)
  {
    var e := x.engine;
    forall mt <- e.matches ensures mt.newID in NewIDs(e) {
      var i :| 0 <= i < |e.matches| && e.matches[i] == mt;
      assert NewIDs(e)[i] == mt.newID;
    }
    forall p <- e.pending ensures p.newID in NewIDs(e) {
      var j :| 0 <= j < |e.pending| && e.pending[j] == p;
      assert NewIDs(e)[|e.matches| + j] == p.newID;
    }
  }

  /** What is left to show after the four passes: the sweep and the hand-over to the next session. */
  lemma SweptInv(g: Session, x: TickInput, w: Work)
    requires Contracted(g, x) && TickMid(g, x, w, g.used + TickIDs(x)) && Mirrors(w.svc, x.config, x.engine.pending)
    requires forall d | d != x.config :: w.svc.TrackerOf(d) == g.world.svc.TrackerOf(d)
    requires !x.refused && !x.engine.fails
    ensures var s := w.svc.Evict(x.config, x.now);
            Inv(Session(g.world.After(s, w.batch, x.now), g.acceptance, EngineAfterTick(g, x),
                        g.pending[x.config := x.engine.pending], g.used + set m <- NewIDs(x.engine)))
  {
    var s := w.svc.Evict(x.config, x.now);
    var used := g.used + set m <- NewIDs(x.engine);
    var g2 := Session(g.world.After(s, w.batch, x.now), g.acceptance, EngineAfterTick(g, x),
                      g.pending[x.config := x.engine.pending], used);
    EvictCarried(w, x.config, x.now);
    SoundBorn(g);
    TickIDsUsed(x);
    hide Mid, BornOk, Service.Evict, EngineAfterTick, TickContract, Sound, TickIDs, Grew, EndedInTick, Mirrors, Carried;
    UsedMore(g, w, g.used + TickIDs(x), used);
    CarriedMid(g, w, s, x.now, g2, used);
    SweptEngine(g, x, w, s, g2);
    SweptTrackers(g, x, w, s, g2);
  }

  lemma SweptEngine(g: Session, x: TickInput, w: Work, s: Service, g2: Session)
    requires Contracted(g, x) && TickMid(g, x, w, g.used + TickIDs(x)) && Carried(w, s)
    requires g2.world.svc == s && g2.engine == EngineAfterTick(g, x)
    ensures EngineKnows(g2)
  {
    hide Contracted, Mid, EndedInTick, EngineAfterTick;
    forall id <- s.tickets | s.tickets[id].Terminal() ensures g2.EngineEnded(id) {
      DuringTick(g, x, w, g.used + TickIDs(x), id);
      EndedKnown(g, x, w, id);
    }
  }

  lemma SweptTrackers(g: Session, x: TickInput, w: Work, s: Service, g2: Session)
    requires Contracted(g, x) && Carried(w, s) && Mirrors(w.svc, x.config, x.engine.pending)
    requires forall d | d != x.config :: w.svc.TrackerOf(d) == g.world.svc.TrackerOf(d)
    requires g2.world.svc == s && g2.acceptance == g.acceptance && g2.pending == g.pending[x.config := x.engine.pending]
    ensures forall c :: Mirrors(s, c, g2.Pending(c))
    ensures forall c :: c !in g2.acceptance ==> s.TrackerOf(c).byMatch == map[]
  {
    assert AcceptanceOk(g, x);
    hide TickContract, Sound, Mid, EngineKnows, SameProposal, Mirrors, Tracked, Key;
    assert forall d :: s.TrackerOf(d) == w.svc.TrackerOf(d);
    forall c ensures Mirrors(s, c, g2.Pending(c)) {
      if c == x.config {
        SameMirrors(w.svc, s, c, x.engine.pending);
      } else {
        SameMirrors(g.world.svc, s, c, g.Pending(c));
      }
    }
    forall c | c !in g2.acceptance ensures s.TrackerOf(c).byMatch == map[] {
      if c == x.config {
        assert g2.Pending(c) == [] && Mirrors(s, c, g2.Pending(c));
        NothingTracked(s, c);
      } else {
        assert s.TrackerOf(c) == g.world.svc.TrackerOf(c);
      }
    }
  }

  lemma NothingTracked(s: Service, c: ConfigurationName)
    requires Mirrors(s, c, [])
    ensures s.TrackerOf(c).byMatch == map[]
  {
    forall m ensures m !in s.TrackerOf(c).byMatch {
      assert !Tracked(s, c, m);
    }
  }

  /** A contracted tick reports no error and keeps the invariant. */
  lemma TickInv(g: Session, x: TickInput)
    requires Inv(g) && Sound(g.world) && Legal(g.world, DoTick(x)) && (x.refused || x.engine.fails || TickContract(g, x))
    ensures Inv(Advance(g, DoTick(x)))
    ensures !x.refused && !x.engine.fails ==> !RunTick(x, g.world.svc).failed
  {
    hide Mid, Mirrors, EngineKnows, TickContract, Sound, Passes;
    if x.refused || x.engine.fails {
      var w := Work(g.world.svc, [], false);
      assert Advance(g, DoTick(x)).world == g.world.After(w.svc, w.batch, x.now);
      assert EngineKnows(g);
      IdleFollows(g, w, x.now);
      CommandInv(g, w, x.now, g.(world := g.world.After(w.svc, w.batch, x.now)));
    } else {
      assert Contracted(g, x);
      hide Inv, RunTick;
      PassesMid(g, x);
      NotFailed(g, x, Passes(x, g.world.svc), g.used + TickIDs(x));
      RunTickPasses(x, g.world.svc);
      hide Contracted, EngineAfterTick, TickMid, NewIDs;
      SweptInv(g, x, Passes(x, g.world.svc));
    }
  }

  lemma IdleFollows(g: Session, w: Work, now: Time)
    requires EngineKnows(g) && w == Work(g.world.svc, [], false)
    ensures Follows(g, w, now, g.(world := g.world.After(w.svc, w.batch, now)))
  {
  }
}
