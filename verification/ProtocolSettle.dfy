/** The first pass under the engine contract: settling the proposals that are no longer pending and were not matched. */
module ProtocolSettle {
  import opened Wrappers
  import opened Domain
  import opened RosterKey
  import opened ProposalTracking
  import opened ServiceState
  import opened Tick
  import opened Commands
  import opened Runs
  import opened AnyEngine
  import opened Traces
  import opened EngineContract
  import opened Protocol

  // ----- one ticket of a failed proposal

  /** What settling does to a ticket, before its recorded event is drained. */
  function SettleMove(x: TickInput, t: TicketState): Option<TicketState>
    requires t.id in x.engine.status
  {
    var curr := x.engine.status[t.id];
    var u := CaptureRuleMetrics(x, t, curr);
    if curr.RequiresAcceptance? then u.ReturnToSearching("ACCEPTANCE_FAILED") else FromEngine(x, u, curr)
  }

  predicate Settleable(x: TickInput, t: TicketState, id: TicketID) {
    && t.id == id && t.status.RequiresAcceptance? && t.events == []
    && id in x.engine.status && x.engine.status[id] in {Queued, Searching, RequiresAcceptance, Cancelled, TimedOut}
  }

  /** The ticket goes back to the pool, clean, or ends; and records the one event that says so. */
  predicate SettledFrom(t: TicketState, u: TicketState) {
    && u.id == t.id && u.config == t.config && u.players == t.players
    && |u.events| == 1 && u.events[0].Names(t.id)
    && (u.events[0].SearchingStarted? || u.events[0].MatchmakingCancelled? || u.events[0].MatchmakingTimedOut?)
    && TicketStep(InMatch(t.matchID), u.events[0]) == StatusPhase(u)
    && TicketStep(Decided(t.matchID, false), u.events[0]) == StatusPhase(u)
    && (Pooled(u.status) || u.status.Cancelled? || u.status.TimedOut?)
    && (Pooled(u.status) ==> Clean(u))
    && u.playerAcceptances.Keys <= t.playerAcceptances.Keys
  }

  lemma SettleMoveOk(x: TickInput, t: TicketState, id: TicketID)
    requires Settleable(x, t, id)
    ensures var r := SettleMove(x, t);
            && r.Some? && SettledFrom(t, r.value)
            && (r.value.Terminal() ==> x.engine.status[id].IsTerminal())
  {
    var curr := x.engine.status[t.id];
    var u := CaptureRuleMetrics(x, t, curr);
    hide CaptureRuleMetrics, SeatedTeams, SettledFrom, SettleMove, TicketState.MarkCancelled, TicketState.MarkTimedOut,
         TicketState.ReturnToSearching;
    SettleMoveIs(x, t);
    match curr
    case Cancelled => EndOk(t, u, u.MarkCancelled(if t.cancelByAPI then StoppedMessage else AcceptanceFailedMessage, x.now));
    case TimedOut => EndOk(t, u, u.MarkTimedOut("TimedOut", "Matchmaking timed out", x.now));
    case RequiresAcceptance => RequeueOk(t, u, "ACCEPTANCE_FAILED");
    case _ => RequeueOk(t, u, StatusReason(x, t.id));
  }

  lemma SettleMoveIs(x: TickInput, t: TicketState)
    requires Settleable(x, t, t.id)
    ensures var curr := x.engine.status[t.id];
            var u := CaptureRuleMetrics(x, t, curr);
            && u == t.(ruleMetrics := u.ruleMetrics)
            && SettleMove(x, t) == match curr
                                   case Cancelled =>
                                     u.MarkCancelled(if t.cancelByAPI then StoppedMessage else AcceptanceFailedMessage, x.now)
                                   case TimedOut => u.MarkTimedOut("TimedOut", "Matchmaking timed out", x.now)
                                   case RequiresAcceptance => u.ReturnToSearching("ACCEPTANCE_FAILED")
                                   case _ => u.ReturnToSearching(StatusReason(x, t.id))
  {
    hide TicketState.MarkCancelled, TicketState.MarkTimedOut, TicketState.ReturnToSearching;
  }

  lemma RequeueOk(t: TicketState, u: TicketState, reason: string)
    requires t.status.RequiresAcceptance? && t.events == [] && u == t.(ruleMetrics := u.ruleMetrics)
    ensures var r := u.ReturnToSearching(reason); r.Some? && SettledFrom(t, r.value) && !r.value.Terminal()
  {
    hide SeatedTeams;
  }

  lemma EndOk(t: TicketState, u: TicketState, r: Option<TicketState>)
    requires t.status.RequiresAcceptance? && t.events == [] && u == t.(ruleMetrics := u.ruleMetrics)
    requires (exists message, now :: r == u.MarkCancelled(message, now))
             || (exists reason, message, now :: r == u.MarkTimedOut(reason, message, now))
    ensures r.Some? && SettledFrom(t, r.value)
  {
  }

  /** What settling a ticket appends to the batch and leaves in the store. */
  predicate Moved(x: TickInput, w: Work, v: Work, id: TicketID) {
    && id in w.svc.tickets && w.svc.tickets[id].id in x.engine.status && id in v.svc.tickets
    && var r := SettleMove(x, w.svc.tickets[id]);
       && r.Some? && v.svc.tickets[id] == r.value.Drained()
       && Named(v.batch, id) == Named(w.batch, id) + r.value.events
  }

  predicate Untouched(w: Work, v: Work, id: TicketID)
    requires id in w.svc.tickets
  {
    id in v.svc.tickets && v.svc.tickets[id] == w.svc.tickets[id] && Named(v.batch, id) == Named(w.batch, id)
  }

  lemma SettleTicketExact(x: TickInput, w: Work, id: TicketID)
    requires !w.failed && id in w.svc.tickets && Settleable(x, w.svc.tickets[id], id)
    ensures var v := SettleTicket(x, w, id);
            && !v.failed && v.svc.trackers == w.svc.trackers && v.svc.tickets.Keys == w.svc.tickets.Keys
            && Moved(x, w, v, id)
            && (forall k <- w.svc.tickets | k != id :: Untouched(w, v, k))
            && (forall m :: AboutMatch(v.batch, m) == AboutMatch(w.batch, m))
  {
    SettleMoveOk(x, w.svc.tickets[id], id);
    var u := SettleMove(x, w.svc.tickets[id]).value;
    assert SettleTicket(x, w, id) == w.Store(u);
    var e := u.events[0];
    assert u.events == [e];
    hide SettleMove, SettleTicket;
    forall k ensures Named(w.batch + [e], k) == if k == id then Named(w.batch, k) + [e] else Named(w.batch, k) {
      NamedOne(w.batch, e, k);
    }
    forall m ensures AboutMatch(w.batch + [e], m) == AboutMatch(w.batch, m) {
      AboutOne(w.batch, e, m);
    }
  }

  /** Settling a roster settles each of its tickets once, and touches nothing else. */
  lemma {:induction false} SettleTicketsExact(x: TickInput, w: Work, ids: seq<TicketID>)
    requires !w.failed && NoDuplicates(ids)
    requires forall id <- ids :: id in w.svc.tickets && Settleable(x, w.svc.tickets[id], id)
    ensures var v := SettleTickets(x, w, ids);
            && !v.failed && v.svc.trackers == w.svc.trackers && v.svc.tickets.Keys == w.svc.tickets.Keys
            && (forall id <- ids :: Moved(x, w, v, id))
            && (forall k <- w.svc.tickets | k !in ids :: Untouched(w, v, k))
            && (forall m :: AboutMatch(v.batch, m) == AboutMatch(w.batch, m))
    decreases |ids|
  {
    if ids != [] {
      var w1 := SettleTicket(x, w, ids[0]);
      assert ids[0] in ids;
      SettleTicketExact(x, w, ids[0]);
      hide SettleTicket, SettleMove, Settleable, Named, AboutMatch;
      forall id <- ids[1..] ensures id in w1.svc.tickets && Settleable(x, w1.svc.tickets[id], id) {
        assert id in ids && id != ids[0] && Untouched(w, w1, id);
      }
      SettleTicketsExact(x, w1, ids[1..]);
      var v := SettleTickets(x, w1, ids[1..]);
      forall id <- ids ensures Moved(x, w, v, id) {
        if id == ids[0] {
          assert Untouched(w1, v, id) && Moved(x, w, w1, id);
        } else {
          assert id in ids[1..] && Untouched(w, w1, id) && Moved(x, w1, v, id);
        }
      }
      forall k <- w.svc.tickets | k !in ids ensures Untouched(w, v, k) {
        assert Untouched(w, w1, k) && Untouched(w1, v, k);
      }
    }
  }

  // ----- one failed proposal

  /** A tracked proposal that the pass settles: it is no longer pending, and it was not matched. */
  predicate Failing(x: TickInput, s: Service, m: MatchID) {
    && Tracked(s, x.config, m)
    && !StillPending(x, Roster(s, x.config, m), s.TrackerOf(x.config).CreatedAt(m))
    && !Matched(x, Roster(s, x.config, m))
  }

  /** The announcement of a failed acceptance: none if the client stopped a ticket of the match. */
  function Closing(x: TickInput, s: Service, m: MatchID): seq<Event>
    requires Tracked(s, x.config, m)
  {
    var ids := Roster(s, x.config, m);
    if SomeStopped(s, ids) then []
    else [AcceptMatchCompleted(m, ids, if SomeRejection(s, ids) then Rejected else Lapsed)]
  }

  /** Everything settling a failed proposal does to one ticket. */
  predicate SettledWith(x: TickInput, w: Work, v: Work, m: MatchID, id: TicketID)
    requires Tracked(w.svc, x.config, m)
  {
    && id in w.svc.tickets && w.svc.tickets[id].id in x.engine.status && id in v.svc.tickets
    && var r := SettleMove(x, w.svc.tickets[id]);
       && r.Some? && v.svc.tickets[id] == r.value.Drained()
       && Named(v.batch, id) == Named(w.batch, id) + Closing(x, w.svc, m) + r.value.events
  }

  lemma ClosingNamed(w: Work, c: seq<Event>, m: MatchID, ids: seq<TicketID>)
    requires c == [] || (|c| == 1 && c[0].AcceptMatchCompleted? && c[0].matchID == m && c[0].ticketIDs == ids)
    ensures forall id :: Named(w.batch + c, id) == if id in ids then Named(w.batch, id) + c else Named(w.batch, id)
    ensures forall k :: AboutMatch(w.batch + c, k) == if k == m then AboutMatch(w.batch, k) + c else AboutMatch(w.batch, k)
  {
    if c == [] {
      assert w.batch + c == w.batch;
    } else {
      assert c == [c[0]];
      forall id ensures Named(w.batch + c, id) == if id in ids then Named(w.batch, id) + c else Named(w.batch, id) {
        NamedOne(w.batch, c[0], id);
      }
      forall k
        ensures AboutMatch(w.batch + c, k) == if k == m then AboutMatch(w.batch, k) + c else AboutMatch(w.batch, k) {
        AboutOne(w.batch, c[0], k);
      }
    }
  }

  /** Settling a failed proposal: its tickets are settled, its end is announced, it is forgotten; nothing else changes. */
  lemma SettleProposalExact(x: TickInput, w: Work, m: MatchID)
    requires !w.failed && Failing(x, w.svc, m) && NoDuplicates(Roster(w.svc, x.config, m))
    requires forall id <- Roster(w.svc, x.config, m) :: id in w.svc.tickets && Settleable(x, w.svc.tickets[id], id)
    ensures var v := SettleProposal(x, w, m);
            && !v.failed && v.svc.tickets.Keys == w.svc.tickets.Keys
            && (forall id <- Roster(w.svc, x.config, m) :: SettledWith(x, w, v, m, id))
            && (forall id <- w.svc.tickets | id !in Roster(w.svc, x.config, m) :: Untouched(w, v, id))
            && (forall k | k != m :: AboutMatch(v.batch, k) == AboutMatch(w.batch, k))
            && AboutMatch(v.batch, m) == AboutMatch(w.batch, m) + Closing(x, w.svc, m)
            && v.svc.trackers == w.svc.trackers[x.config := w.svc.TrackerOf(x.config).Forget(m)]
  {
    hide Key, SettleMove, Settleable, SomeRejection, SomeStopped;
    var ids := Roster(w.svc, x.config, m);
    var c := Closing(x, w.svc, m);
    var w1 := Work(w.svc, w.batch + c, false);
    ClosingNamed(w, c, m, ids);
    SettleTicketsExact(x, w1, ids);
    var w2 := SettleTickets(x, w1, ids);
    SettleProposalBody(x, w, m);
    hide SettleTickets, SettleProposal, Named, AboutMatch, Tracker.Forget, Closing;
    forall id <- ids ensures SettledWith(x, w, SettleProposal(x, w, m), m, id) {
      assert Moved(x, w1, w2, id);
    }
    forall id <- w.svc.tickets | id !in ids ensures Untouched(w, SettleProposal(x, w, m), id) {
      assert Untouched(w1, w2, id);
    }
  }

  lemma SettleProposalBody(x: TickInput, w: Work, m: MatchID)
    requires !w.failed && Failing(x, w.svc, m)
    ensures var w2 := SettleTickets(x, Work(w.svc, w.batch + Closing(x, w.svc, m), false), Roster(w.svc, x.config, m));
            !w2.failed && w2.svc.trackers == w.svc.trackers ==>
              SettleProposal(x, w, m)
              == w2.(svc := w2.svc.(trackers := w.svc.trackers[x.config := w.svc.TrackerOf(x.config).Forget(m)]))
  {
    hide Key, SettleTickets, Tracker.Forget, StillPending, Matched, SomeRejection, SomeStopped;
    var ids := Roster(w.svc, x.config, m);
    assert FailureOutcome(w.svc, x.config, m) == if SomeRejection(w.svc, ids) then Rejected else Lapsed;
    if SomeStopped(w.svc, ids) {
      assert w.batch + [] == w.batch;
    }
  }

  // ----- the invariant

  /** What the contract says about the tickets of a proposal that failed. */
  predicate FailedStatus(x: TickInput, id: TicketID) {
    && id in x.engine.status && x.engine.status[id] in {Queued, Searching, RequiresAcceptance, Cancelled, TimedOut}
    && id in x.engine.statusAfter && x.engine.statusAfter[id] == x.engine.status[id]
  }

  /** The events of a failed settlement that name a ticket take it from the match to where its status says it is. */
  lemma WalkSettled(before: seq<Event>, c: seq<Event>, t: TicketState, u: TicketState)
    requires Walk(Unborn, before) == InMatch(t.matchID) && SettledFrom(t, u)
    requires c == [] || (exists ids, o :: c == [AcceptMatchCompleted(t.matchID, ids, o)] && !o.Accepted?)
    ensures Walk(Unborn, before + c + u.events) == StatusPhase(u)
  {
    var e := u.events[0];
    assert u.events == [e];
    hide StatusPhase;
    if c == [] {
      assert before + c + u.events == before + [e];
      WalkOne(Unborn, before, e);
    } else {
      WalkOne(Unborn, before, c[0]);
      WalkOne(Unborn, before + [c[0]], e);
    }
  }

  lemma SettledTicketRel(g: Session, x: TickInput, w: Work, v: Work, used: set<MatchID>, m: MatchID, id: TicketID)
    requires Tracked(w.svc, x.config, m) && id in w.svc.tickets && TicketRel(g, w, id) && InRoster(w.svc, x.config, m, id)
    requires Settleable(x, w.svc.tickets[id], id) && SettledWith(x, w, v, m, id)
    ensures TicketRel(g, v, id)
    ensures v.svc.tickets[id].config == x.config
    ensures v.svc.tickets[id].Terminal() ==> x.engine.status[id].IsTerminal()
  {
    var t := w.svc.tickets[id];
    hide SettleMove, Named, Walk, SeatedTeams, Closing;
    SettleMoveOk(x, t, id);
    var u := SettleMove(x, t).value;
    hide Settleable;
    SettledWalk(g, x, w, v, m, id, u);
    hide Trace;
    SettledTicketOk(t, u, id);
  }

  lemma SettledWalk(g: Session, x: TickInput, w: Work, v: Work, m: MatchID, id: TicketID, u: TicketState)
    requires Tracked(w.svc, x.config, m) && id in w.svc.tickets && TicketRel(g, w, id) && InRoster(w.svc, x.config, m, id)
    requires Named(v.batch, id) == Named(w.batch, id) + Closing(x, w.svc, m) + u.events
    requires SettledFrom(w.svc.tickets[id], u)
    ensures Walk(Unborn, Trace(g, v, id)) == StatusPhase(u)
  {
    hide Named, Walk, SeatedTeams, SettledFrom, SomeStopped, SomeRejection, TicketOk;
    assert Trace(g, v, id) == Trace(g, w, id) + Closing(x, w.svc, m) + u.events;
    hide Trace;
    WalkSettled(Trace(g, w, id), Closing(x, w.svc, m), w.svc.tickets[id], u);
  }

  lemma SettledTicketOk(t: TicketState, u: TicketState, id: TicketID)
    requires TicketOk(t, id) && SettledFrom(t, u)
    ensures TicketOk(u.Drained(), id) && StatusPhase(u.Drained()) == StatusPhase(u) && !u.status.RequiresAcceptance?
  {
    hide SeatedTeams, TicketStep;
  }

  lemma OpenMatch(g: Session, w: Work, used: set<MatchID>, c: ConfigurationName, m: MatchID)
    requires Mid(g, w, used) && Tracked(w.svc, c, m)
    ensures OpenRel(g, w, used, c, m) && MatchRel(g, w, used, m)
  {
    hide TicketRel, RosterRel, OpenRel, MatchRel;
  }

  lemma SettledMatchRel(g: Session, x: TickInput, w: Work, v: Work, used: set<MatchID>, m: MatchID)
    requires Mid(g, w, used) && Tracked(w.svc, x.config, m)
    requires AboutMatch(v.batch, m) == AboutMatch(w.batch, m) + Closing(x, w.svc, m)
    ensures MatchRel(g, v, used, m)
  {
    hide Mid, AboutMatch, SomeStopped, SomeRejection, SomeRefusal, MergedAcceptances, MatchWalk, PlayersApart;
    var ids := Roster(w.svc, x.config, m);
    OpenDecisions(g, w, used, x.config, m);
    OpenMatch(g, w, used, x.config, m);
    assert MatchTrace(g, v, m) == MatchTrace(g, w, m) + Closing(x, w.svc, m);
    hide MatchTrace;
    WalkClosed(MatchTrace(g, w, m), Closing(x, w.svc, m), m, ids, MergedAcceptances(w.svc, ids));
  }

  lemma WalkClosed(events: seq<Event>, c: seq<Event>, m: MatchID, ids: seq<TicketID>, decisions: map<PlayerID, bool>)
    requires MatchWalk(Unused, events) == Open(ids, decisions)
    requires c == [] || c == [AcceptMatchCompleted(m, ids, Rejected)]
             || (c == [AcceptMatchCompleted(m, ids, Lapsed)] && !SomeRefusal(decisions))
    ensures !MatchWalk(Unused, events + c).Broken? && !MatchWalk(Unused, events + c).AllAccepted?
  {
    if c == [] {
      assert events + c == events;
    } else {
      MatchWalkOne(Unused, events, c[0]);
    }
  }

  /** If the decisions a tracked match has reported contain a refusal, one of its tickets records it. */
  lemma OpenDecisions(g: Session, w: Work, used: set<MatchID>, c: ConfigurationName, m: MatchID)
    requires Mid(g, w, used) && Tracked(w.svc, c, m)
    ensures var ids := Roster(w.svc, c, m);
            && (SomeRefusal(MergedAcceptances(w.svc, ids)) ==> SomeRejection(w.svc, ids))
            && (PlayersApart(w.svc, ids) && SomeRejection(w.svc, ids) ==> SomeRefusal(MergedAcceptances(w.svc, ids)))
  {
    var ids := Roster(w.svc, c, m);
    assert RosterRel(w.svc, c, m);
    hide Walk, Named, SomeRejection, SomeRefusal, MergedAcceptances, PlayersApart;
    forall id <- ids
      ensures id in w.svc.tickets && w.svc.tickets[id].playerAcceptances.Keys <= PlayerIDs(w.svc.tickets[id].players) {
      assert InRoster(w.svc, c, m, id) && TicketRel(g, w, id);
    }
    RefusalReported(w.svc, ids);
  }

  /** The tickets of a tracked roster are in no other tracked roster of the configuration. */
  lemma RosterAlone(g: Session, w: Work, used: set<MatchID>, c: ConfigurationName, m: MatchID)
    requires Mid(g, w, used) && Tracked(w.svc, c, m)
    ensures forall k | k != m && Tracked(w.svc, c, k) :: forall id <- Roster(w.svc, c, k) :: id !in Roster(w.svc, c, m)
    ensures forall id <- Roster(w.svc, c, m) :: id in w.svc.tickets && w.svc.tickets[id].config == c
  {
    hide TicketRel, OpenRel, MatchRel;
    assert RosterRel(w.svc, c, m);
    forall id <- Roster(w.svc, c, m)
      ensures id in w.svc.tickets && w.svc.tickets[id].config == c && w.svc.tickets[id].matchID == m {
      assert InRoster(w.svc, c, m, id);
    }
    forall k | k != m && Tracked(w.svc, c, k) ensures forall id <- Roster(w.svc, c, k) :: id !in Roster(w.svc, c, m) {
      assert RosterRel(w.svc, c, k);
      forall id <- Roster(w.svc, c, k) ensures id !in Roster(w.svc, c, m) {
        assert InRoster(w.svc, c, k, id);
      }
    }
  }

  lemma SettleTouches(g: Session, x: TickInput, w: Work, v: Work, used: set<MatchID>, m: MatchID)
    requires Mid(g, w, used) && Tracked(w.svc, x.config, m)
    requires v.svc.tickets.Keys == w.svc.tickets.Keys
    requires forall id <- w.svc.tickets | id !in Roster(w.svc, x.config, m) :: Untouched(w, v, id)
    requires forall k | k != m :: AboutMatch(v.batch, k) == AboutMatch(w.batch, k)
    requires v.svc.trackers == w.svc.trackers[x.config := w.svc.TrackerOf(x.config).Forget(m)]
    ensures Touches(w, v, x.config, IDSet(Roster(w.svc, x.config, m)), m)
    ensures v.svc.TrackerOf(x.config).Coherent() && forall d :: !Tracked(v.svc, d, m)
  {
    hide Key, Named, AboutMatch, TicketRel, RosterRel, OpenRel, MatchRel;
    var c, ids := x.config, Roster(w.svc, x.config, m);
    w.svc.TrackerOf(c).ForgetKeepsCoherent(m);
    hide Mid;
    RosterAlone(g, w, used, c, m);
    forall d | d != c && Tracked(w.svc, d, m) ensures false { TrackedOnce(g, w, used, c, d, m); }
    forall id <- w.svc.tickets | id !in ids
      ensures v.svc.tickets[id] == w.svc.tickets[id] && Named(v.batch, id) == Named(w.batch, id) {
      assert Untouched(w, v, id);
    }
    hide Tracker.Forget;
    forall d ensures !Tracked(v.svc, d, m) && (d != c ==> v.svc.TrackerOf(d) == w.svc.TrackerOf(d)) {
      if d == c {
        assert v.svc.TrackerOf(d) == w.svc.TrackerOf(c).Forget(m);
      } else {
        assert v.svc.TrackerOf(d) == w.svc.TrackerOf(d);
        assert !Tracked(w.svc, d, m);
      }
    }
  }

  lemma SettleRoster(g: Session, x: TickInput, w: Work, used: set<MatchID>, m: MatchID)
    requires TickMid(g, x, w, used) && Tracked(w.svc, x.config, m)
    requires forall id <- Roster(w.svc, x.config, m) :: FailedStatus(x, id)
    ensures NoDuplicates(Roster(w.svc, x.config, m))
    ensures forall id <- Roster(w.svc, x.config, m) ::
              InRoster(w.svc, x.config, m, id) && TicketRel(g, w, id) && Settleable(x, w.svc.tickets[id], id)
  {
    assert RosterRel(w.svc, x.config, m);
    forall id <- Roster(w.svc, x.config, m)
      ensures InRoster(w.svc, x.config, m, id) && TicketRel(g, w, id) && Settleable(x, w.svc.tickets[id], id)
    {
      assert InRoster(w.svc, x.config, m, id) && TicketRel(g, w, id);
      DuringTick(g, x, w, used, id);
    }
  }

  lemma SettleProposalMid(g: Session, x: TickInput, w: Work, used: set<MatchID>, m: MatchID)
    requires TickMid(g, x, w, used) && Failing(x, w.svc, m)
    requires forall id <- Roster(w.svc, x.config, m) :: FailedStatus(x, id)
    ensures var v := SettleProposal(x, w, m);
            TickMid(g, x, v, used) && v.svc.TrackerOf(x.config) == w.svc.TrackerOf(x.config).Forget(m)
  {
    var v := SettleProposal(x, w, m);
    var ids := Roster(w.svc, x.config, m);
    SettleRoster(g, x, w, used, m);
    SettleProposalExact(x, w, m);
    SettleProposalGrew(x, w, m);
    GrewTransitive(Work(g.world.svc, [], false), w, v, x.now);
    hide SettleProposal, Settleable, Failing, Grew, Key, Named, AboutMatch, Tracker.Forget;
    SettleTouches(g, x, w, v, used, m);
    SettledMatchRel(g, x, w, v, used, m);
    forall id <- ids ensures id in v.svc.tickets && TicketRel(g, v, id) && EndedInTick(g, x, v, id) {
      SettledTicketRel(g, x, w, v, used, m, id);
      assert FailedStatus(x, id);
    }
    hide TicketRel, SettledWith, FailedStatus;
    StepMid(g, w, v, used, used, x.config, IDSet(ids), m);
    forall id <- v.svc.tickets ensures EndedInTick(g, x, v, id) {
      if id !in ids { assert Untouched(w, v, id) && EndedInTick(g, x, w, id); }
    }
  }

  // ----- the whole pass

  /** `b` tracks some of the matches of `a`, with the same rosters and creation times. */
  ghost predicate Within(a: Tracker, b: Tracker) {
    forall k :: k in b.byMatch ==> k in a.byMatch && b.byMatch[k] == a.byMatch[k] && b.CreatedAt(k) == a.CreatedAt(k)
  }

  lemma ForgetWithin(a: Tracker, m: MatchID)
    requires a.Coherent()
    ensures Within(a, a.Forget(m)) && forall k :: k in a.Forget(m).byMatch <==> k in a.byMatch && k != m
  {
    hide Key;
    a.ForgetKeepsCoherent(m);
  }

  ghost predicate FailedStatuses(x: TickInput, s: Service) {
    forall m | Failing(x, s, m) :: forall id <- Roster(s, x.config, m) :: FailedStatus(x, id)
  }

  lemma FailedStatusesWithin(x: TickInput, s: Service, r: Service)
    requires FailedStatuses(x, s) && Within(s.TrackerOf(x.config), r.TrackerOf(x.config))
    ensures FailedStatuses(x, r)
  {
    hide Key, StillPending, Matched;
    forall m | Failing(x, r, m) ensures forall id <- Roster(r, x.config, m) :: FailedStatus(x, id) {
      assert Failing(x, s, m);
    }
  }

  /** The pass removes from the tracker exactly the listed proposals that failed, and keeps the invariant. */
  lemma {:induction false} SettleMid(g: Session, x: TickInput, w: Work, used: set<MatchID>, order: seq<MatchID>)
    requires TickMid(g, x, w, used) && FailedStatuses(x, w.svc)
    ensures var v := Settle(x, w, order);
            && TickMid(g, x, v, used)
            && Within(w.svc.TrackerOf(x.config), v.svc.TrackerOf(x.config))
            && (forall m :: Tracked(v.svc, x.config, m) <==>
                  Tracked(w.svc, x.config, m) && !(m in order && Failing(x, w.svc, m)))
    decreases |order|
  {
    if order != [] {
      var w1 := SettleProposal(x, w, order[0]);
      assert !w.failed;
      hide TickMid, FailedStatuses, SettleProposal, Failing, Within;
      SettleFirst(g, x, w, used, order[0]);
      SettleMid(g, x, w1, used, order[1..]);
      SettleRest(g, x, w, w1, Settle(x, w1, order[1..]), used, order);
    }
  }

  lemma SettleFirst(g: Session, x: TickInput, w: Work, used: set<MatchID>, m: MatchID)
    requires TickMid(g, x, w, used) && FailedStatuses(x, w.svc)
    ensures var w1 := SettleProposal(x, w, m);
            && TickMid(g, x, w1, used) && FailedStatuses(x, w1.svc)
            && Within(w.svc.TrackerOf(x.config), w1.svc.TrackerOf(x.config))
            && (forall k :: Tracked(w1.svc, x.config, k) <==>
                  Tracked(w.svc, x.config, k) && !(k == m && Failing(x, w.svc, m)))
  {
    var w1 := SettleProposal(x, w, m);
    assert w.svc.TrackerOf(x.config).Coherent();
    ForgetWithin(w.svc.TrackerOf(x.config), m);
    hide Key, StillPending, Matched, Mid, Grew, SettleTickets, Tracker.Forget, EndedInTick;
    if Failing(x, w.svc, m) {
      SettleProposalMid(g, x, w, used, m);
    } else {
      assert w1 == w;
    }
    hide SettleProposal;
    FailedStatusesWithin(x, w.svc, w1.svc);
  }

  lemma SettleRest(g: Session, x: TickInput, w: Work, w1: Work, v: Work, used: set<MatchID>, order: seq<MatchID>)
    requires order != []
    requires Within(w.svc.TrackerOf(x.config), w1.svc.TrackerOf(x.config))
    requires Within(w1.svc.TrackerOf(x.config), v.svc.TrackerOf(x.config))
    requires forall m :: Tracked(w1.svc, x.config, m) <==>
               Tracked(w.svc, x.config, m) && !(m == order[0] && Failing(x, w.svc, m))
    requires forall m :: Tracked(v.svc, x.config, m) <==>
               Tracked(w1.svc, x.config, m) && !(m in order[1..] && Failing(x, w1.svc, m))
    ensures Within(w.svc.TrackerOf(x.config), v.svc.TrackerOf(x.config))
    ensures forall m :: Tracked(v.svc, x.config, m) <==>
              Tracked(w.svc, x.config, m) && !(m in order && Failing(x, w.svc, m))
  {
    hide Key, StillPending, Matched;
    forall m
      ensures Tracked(v.svc, x.config, m) <==> Tracked(w.svc, x.config, m) && !(m in order && Failing(x, w.svc, m)) {
      assert m in order <==> m == order[0] || m in order[1..];
      assert Tracked(w1.svc, x.config, m) ==> (Failing(x, w1.svc, m) <==> Failing(x, w.svc, m));
    }
  }
}
