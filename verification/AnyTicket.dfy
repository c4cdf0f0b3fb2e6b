/**
 What the passes of a tick do to one ticket whatever the engine answers, also where an answer contradicts the ticket: the
 ticket and the events it leaves, and when the pass stops with an error and what it leaves behind then.
 */
module AnyTicket {
  import opened Wrappers
  import opened Domain
  import opened ProposalTracking
  import opened ServiceState
  import opened Tick
  import opened AnyEngine
  import opened Traces
  import opened TicketMoves

  /** A registered ticket without events of its own. */
  predicate Here(w: Work, id: TicketID) {
    id in w.svc.tickets && w.svc.tickets[id].id == id && w.svc.tickets[id].events == []
  }

  /** The ticket became `u`, the events were appended, and nothing else was said; no other ticket changed. */
  predicate Leaves(w: Work, v: Work, id: TicketID, u: TicketState, events: seq<Event>, failed: bool) {
    v.svc.tickets == w.svc.tickets[id := u] && v.batch == w.batch + events && v.failed == (w.failed || failed)
  }

  lemma StoreLeaves(w: Work, u: TicketState)
    ensures Leaves(w, w.Store(u), u.id, u.Drained(), u.events, false)
  {
  }

  lemma AbortLeaves(w: Work, u: TicketState)
    ensures Leaves(w, w.Abort(u), u.id, u, [], true)
  {
  }

  lemma SameLeaves(w: Work, id: TicketID)
    requires id in w.svc.tickets
    ensures Leaves(w, w, id, w.svc.tickets[id], [], false)
  {
  }

  predicate Ends(status: TicketStatus) {
    status.Cancelled? || status.TimedOut?
  }

  predicate Pools(status: TicketStatus) {
    status.Queued? || status.Searching?
  }

  // ----- the first pass

  /** Only a ticket that requires acceptance, and that the engine knows, is settled; and that never fails. */
  lemma SettlesOne(x: TickInput, w: Work, id: TicketID)
    requires Here(w, id)
    ensures var v, t := SettleTicket(x, w, id), w.svc.tickets[id];
            if !t.status.RequiresAcceptance? || id !in x.engine.status then v == w
            else
              var curr := x.engine.status[id];
              if Ends(curr) then Leaves(w, v, id, EndedAs(x, t, curr), [EndEvent(x, t, curr)], false)
              else if curr.RequiresAcceptance? then
                Leaves(w, v, id, Requeued(t, "ACCEPTANCE_FAILED"), [SearchingStarted(id)], false)
              else if Pools(curr) then Leaves(w, v, id, Requeued(t, ReasonOf(x, id)), [SearchingStarted(id)], false)
              else Leaves(w, v, id, t, [], false)
  {
    var t := w.svc.tickets[id];
    hide CaptureRuleMetrics, TicketState.MarkCancelled, TicketState.MarkTimedOut, TicketState.ReturnToSearching,
         EndedAs, EndEvent, Requeued, MetricsOf, Work.Store, Work.Abort, Leaves;
    SameLeaves(w, id);
    if t.status.RequiresAcceptance? && id in x.engine.status {
      var curr := x.engine.status[id];
      MetricsAre(x, t, curr);
      MovedOf(x, t, curr);
      RequeueMeans(t, "ACCEPTANCE_FAILED");
      var u := CaptureRuleMetrics(x, t, curr);
      var r := if curr.RequiresAcceptance? then u.ReturnToSearching("ACCEPTANCE_FAILED") else FromEngine(x, u, curr);
      MovedID(x, t, curr);
      StoreLeaves(w, r.value);
    }
  }

  /** The move an answer of the engine causes, for a ticket that can make it. */
  lemma MovedOf(x: TickInput, t: TicketState, curr: TicketStatus)
    requires t.events == []
    ensures var r := FromEngine(x, CaptureRuleMetrics(x, t, curr), curr);
            if Ends(curr) then
              !t.Terminal() && !t.status.Placing? ==>
                r.Some? && r.value.Drained() == EndedAs(x, t, curr) && r.value.events == [EndEvent(x, t, curr)]
            else if Pools(curr) then
              r.Some? && (if t.status.RequiresAcceptance? then
                            r.value.Drained() == Requeued(t, ReasonOf(x, t.id)) && r.value.events == [SearchingStarted(t.id)]
                          else r.value == t.(status := Searching))
            else r == Some(t)
  {
    hide CaptureRuleMetrics, TicketState.MarkCancelled, TicketState.MarkTimedOut, TicketState.ReturnToSearching, EndedAs, EndEvent,
         Requeued, MetricsOf, TicketState.Drained;
    MetricsAre(x, t, curr);
    if !t.Terminal() && !t.status.Placing? { EndMeans(x, t); }
    if t.status.RequiresAcceptance? { RequeueMeans(t, ReasonOf(x, t.id)); }
  }

  lemma MovedID(x: TickInput, t: TicketState, curr: TicketStatus)
    ensures var u := CaptureRuleMetrics(x, t, curr);
            && (FromEngine(x, u, curr).Some? ==> FromEngine(x, u, curr).value.id == t.id)
            && (u.ReturnToSearching("ACCEPTANCE_FAILED").Some? ==> u.ReturnToSearching("ACCEPTANCE_FAILED").value.id == t.id)
  {
    hide SeatedTeams;
  }

  // ----- the second and the third pass

  /** The id a ticket carries once its match is placed. */
  function PlacedUnder(t: TicketState, m: MatchID): MatchID {
    if t.status.Placing? || m == "" then t.matchID else m
  }

  function PlacedAs(t: TicketState, m: MatchID, teams: map<PlayerID, string>): TicketState {
    t.(status := Placing, matchID := PlacedUnder(t, m), playerTeams := Seats(t, teams))
  }

  /**
   An active ticket is completed; if the engine fails to take note of it, the pass stops and the ticket is left as being
   placed. A ticket that has ended stops the pass, and is left with the teams of the match.
   */
  lemma FinalizesOne(x: TickInput, w: Work, m: MatchID, teams: map<PlayerID, string>, id: TicketID)
    requires Here(w, id)
    ensures var (v, asked) := FinalizeTicket(x, w, m, teams, id);
            var t := w.svc.tickets[id];
            && asked == (x.acceptanceRequired && t.status.RequiresAcceptance?)
            && if t.Terminal() then Leaves(w, v, id, t.(playerTeams := Seats(t, teams)), [], true)
               else if id in x.engine.completeFails then Leaves(w, v, id, PlacedAs(t, m, teams), [], true)
               else Leaves(w, v, id, PlacedAs(t, m, teams).(status := Completed, endTime := x.now), [], false)
  {
    var t := w.svc.tickets[id];
    hide Work.Abort, Service.Save, TicketState.SetPlayerTeams, TicketState.MoveToPlacing, TicketState.Complete, PlacedAs, Leaves,
         Seats;
    PlacingMeans(t, m, teams, x.now);
    var s := t.SetPlayerTeams(teams);
    var placed := if s.status.Placing? then Some(s) else s.MoveToPlacing(m);
    AbortLeaves(w, s);
    if placed.Some? {
      AbortLeaves(w, placed.value);
      SaveLeaves(w, placed.value.Complete(x.now).value);
    }
  }

  lemma PlacingMeans(t: TicketState, m: MatchID, teams: map<PlayerID, string>, now: Time)
    requires t.events == []
    ensures var s := t.SetPlayerTeams(teams);
            var placed := if s.status.Placing? then Some(s) else s.MoveToPlacing(m);
            && s == t.(playerTeams := Seats(t, teams)) && s.id == t.id && s.status == t.status
            && if t.Terminal() then placed == None
               else
                 && placed == Some(PlacedAs(t, m, teams)) && placed.value.id == t.id
                 && placed.value.Complete(now) == Some(PlacedAs(t, m, teams).(status := Completed, endTime := now))
                 && placed.value.Complete(now).value.events == [] && placed.value.Complete(now).value.id == t.id
  {
    hide TeamsOf, PlayerIDs;
    assert TeamsOf(t.players, teams) == map p | p in PlayerIDs(t.players) && p in teams :: teams[p] by { TeamsAre(t, teams); }
  }

  lemma TeamsAre(t: TicketState, teams: map<PlayerID, string>)
    ensures TeamsOf(t.players, teams) == map p | p in PlayerIDs(t.players) && p in teams :: teams[p]
  {
  }

  lemma SaveLeaves(w: Work, u: TicketState)
    ensures Leaves(w, w.(svc := w.svc.Save(u)), u.id, u, [], false)
  {
  }

  /** A ticket that may be proposed becomes part of the proposal; one that is being placed or has ended stops the pass. */
  lemma AssignsOne(w: Work, m: MatchID, teams: map<PlayerID, string>, id: TicketID)
    requires Here(w, id)
    ensures var v, t := AssignTicket(w, m, teams, id), w.svc.tickets[id];
            if t.Terminal() || t.status.Placing? then Leaves(w, v, id, t, [], true)
            else
              Leaves(w, v, id,
                     t.(status := RequiresAcceptance, matchID := m, statusReason := "", playerTeams := Seats(t, teams)), [], false)
  {
    var t := w.svc.tickets[id];
    hide Work.Abort, Service.Save, TicketState.SetPlayerTeams, TicketState.AssignToProposal, Leaves, Seats;
    AssigningMeans(t, m, teams);
    AbortLeaves(w, t);
    if t.AssignToProposal(m).Some? { SaveLeaves(w, t.AssignToProposal(m).value.SetPlayerTeams(teams)); }
  }

  lemma AssigningMeans(t: TicketState, m: MatchID, teams: map<PlayerID, string>)
    ensures var r := t.AssignToProposal(m);
            if t.Terminal() || t.status.Placing? then r == None
            else
              && r.Some? && r.value.SetPlayerTeams(teams).id == t.id
              && r.value.SetPlayerTeams(teams)
                 == t.(status := RequiresAcceptance, matchID := m, statusReason := "", playerTeams := Seats(t, teams))
  {
    hide TeamsOf, PlayerIDs;
    TeamsAre(t, teams);
  }

  // ----- the fourth pass

  /** The tracked roster of a ticket's match, or the ticket alone. */
  function RosterOf(s: Service, c: ConfigurationName, t: TicketState): seq<TicketID> {
    if t.matchID in s.TrackerOf(c).byMatch then s.TrackerOf(c).byMatch[t.matchID] else [t.id]
  }

  /** The engine has cancelled a ticket that had to accept a match, and not because the client asked for it. */
  predicate Declines(t: TicketState, curr: TicketStatus) {
    curr.Cancelled? && t.status.RequiresAcceptance? && !t.cancelByAPI && t.matchID != ""
  }

  /** The failure of the match, with the reason the recorded decisions of the tracked tickets give. */
  function Failure(s: Service, c: ConfigurationName, t: TicketState): Event {
    AcceptMatchCompleted(t.matchID, RosterOf(s, c, t),
                         if t.matchID in s.TrackerOf(c).byMatch
                            && exists id <- s.TrackerOf(c).byMatch[t.matchID], p ::
                                 id in s.tickets && p in s.tickets[id].playerAcceptances && !s.tickets[id].playerAcceptances[p]
                         then Rejected else Lapsed)
  }

  lemma FailureIs(s: Service, c: ConfigurationName, t: TicketState)
    ensures Failure(s, c, t) == AcceptMatchCompleted(t.matchID, RosterOf(s, c, t), FailureOutcome(s, c, t.matchID))
  {
  }

  /**
   A ticket whose status the engine reports differently is moved to it. The first ticket of a match the engine has
   cancelled for want of acceptance announces the match's failure, and the match is forgotten. A ticket that is being
   placed or has ended cannot end again: the pass stops, and only the metrics stay.
   */
  lemma SyncsOne(x: TickInput, w: Work, settled: set<MatchID>, id: TicketID)
    requires Here(w, id)
    ensures var (v, after) := SyncTicket(x, w, settled, id);
            var t, c := w.svc.tickets[id], x.config;
            if id !in x.engine.statusAfter || x.engine.statusAfter[id] == t.status then (v, after) == (w, settled)
            else
              var curr := x.engine.statusAfter[id];
              if Ends(curr) && (t.Terminal() || t.status.Placing?) then
                Leaves(w, v, id, t.(ruleMetrics := MetricsOf(x, t)), [], true) && v.svc.trackers == w.svc.trackers
              else if Ends(curr) && Declines(t, curr) && t.matchID !in settled then
                && Leaves(w, v, id, EndedAs(x, t, curr), [Failure(w.svc, c, t), EndEvent(x, t, curr)], false)
                && after == settled + {t.matchID}
                && v.svc.trackers == w.svc.trackers[c := w.svc.TrackerOf(c).Forget(t.matchID)]
              else
                && after == settled && v.svc.trackers == w.svc.trackers
                && if Ends(curr) then Leaves(w, v, id, EndedAs(x, t, curr), [EndEvent(x, t, curr)], false)
                   else if Pools(curr) && t.status.RequiresAcceptance? then
                     Leaves(w, v, id, Requeued(t, ReasonOf(x, id)), [SearchingStarted(id)], false)
                   else Leaves(w, v, id, if Pools(curr) then t.(status := Searching) else t, [], false)
  {
    hide CaptureRuleMetrics, FromEngine, EndedAs, EndEvent, Requeued, MetricsOf, Work.Store, Work.Abort, Leaves, Failure, Declines,
         SyncTicket, Tracker.Forget;
    var t := w.svc.tickets[id];
    if id in x.engine.statusAfter && x.engine.statusAfter[id] != t.status {
      var curr := x.engine.statusAfter[id];
      SyncTicketIs(x, w, settled, id);
      MetricsAre(x, t, curr);
      MovedOf(x, t, curr);
      MovedID(x, t, curr);
      CannotEnd(x, t, curr);
      var u := CaptureRuleMetrics(x, t, curr);
      var r := FromEngine(x, u, curr);
      if r.None? {
        AbortLeaves(w, u);
        TrackersKept(w, u);
      } else {
        StoreLeaves(w, r.value);
        TrackersKept(w, r.value);
        AnnouncedLeaves(x, w, r.value, id, curr);
        DeclinesEnd(t, curr);
        DrainedSame(t);
        assert [Failure(w.svc, x.config, t)] + [EndEvent(x, t, curr)] == [Failure(w.svc, x.config, t), EndEvent(x, t, curr)];
      }
    } else {
      NotSynced(x, w, settled, id);
    }
  }

  lemma NotSynced(x: TickInput, w: Work, settled: set<MatchID>, id: TicketID)
    requires Here(w, id) && (id !in x.engine.statusAfter || x.engine.statusAfter[id] == w.svc.tickets[id].status)
    ensures SyncTicket(x, w, settled, id) == (w, settled)
  {
  }

  lemma DeclinesEnd(t: TicketState, curr: TicketStatus)
    ensures Declines(t, curr) ==> Ends(curr) && t.status.RequiresAcceptance?
  {
  }

  lemma DrainedSame(t: TicketState)
    requires t.events == []
    ensures t.Drained() == t && t.(status := Searching).Drained() == t.(status := Searching)
    ensures t.(status := Searching).events == []
  {
  }

  lemma TrackersKept(w: Work, u: TicketState)
    ensures w.Store(u).svc.trackers == w.svc.trackers && w.Abort(u).svc.trackers == w.svc.trackers
  {
  }

  /** The work once the failure of the ticket's match is announced and the match forgotten. */
  function Announced(x: TickInput, w: Work, t: TicketState): Work {
    var w1 := w.Add(Failure(w.svc, x.config, t));
    w1.(svc := w1.svc.SetTracker(x.config, w.svc.TrackerOf(x.config).Forget(t.matchID)))
  }

  lemma AnnouncedLeaves(x: TickInput, w: Work, u: TicketState, id: TicketID, curr: TicketStatus)
    requires Here(w, id) && u.id == id
    ensures var t := w.svc.tickets[id];
            var v := Announced(x, w, t).Store(u);
            && Leaves(w, v, id, u.Drained(), [Failure(w.svc, x.config, t)] + u.events, false)
            && v.svc.trackers == w.svc.trackers[x.config := w.svc.TrackerOf(x.config).Forget(t.matchID)]
  {
    hide Failure, Tracker.Forget, Work.Store;
    var t := w.svc.tickets[id];
    StoreLeaves(Announced(x, w, t), u);
    TrackersKept(Announced(x, w, t), u);
    assert w.batch + [Failure(w.svc, x.config, t)] + u.events == w.batch + ([Failure(w.svc, x.config, t)] + u.events);
  }

  lemma CannotEnd(x: TickInput, t: TicketState, curr: TicketStatus)
    requires curr != t.status
    ensures Ends(curr) && (t.Terminal() || t.status.Placing?) ==> FromEngine(x, CaptureRuleMetrics(x, t, curr), curr) == None
    ensures !(Ends(curr) && (t.Terminal() || t.status.Placing?)) ==> FromEngine(x, CaptureRuleMetrics(x, t, curr), curr).Some?
  {
    hide SeatedTeams;
  }

  lemma SyncTicketIs(x: TickInput, w: Work, settled: set<MatchID>, id: TicketID)
    requires Here(w, id) && id in x.engine.statusAfter && x.engine.statusAfter[id] != w.svc.tickets[id].status
    ensures var t, curr := w.svc.tickets[id], x.engine.statusAfter[id];
            var u := CaptureRuleMetrics(x, t, curr);
            var r := FromEngine(x, u, curr);
            SyncTicket(x, w, settled, id)
            == if r.None? then (w.Abort(u), settled)
               else if Declines(t, curr) && t.matchID !in settled then
                 (Announced(x, w, t).Store(r.value), settled + {t.matchID})
               else (w.Store(r.value), settled)
  {
    hide FromEngine, FailureOutcome, Tracker.Forget, Work.Store, Work.Abort, Failure, RosterOf;
    var t, curr := w.svc.tickets[id], x.engine.statusAfter[id];
    var u := CaptureRuleMetrics(x, t, curr);
    MetricsAre(x, t, curr);
    hide CaptureRuleMetrics, MetricsOf;
    FailureIs(w.svc, x.config, t);
    RosterIs(w.svc, x.config, t);
  }

  lemma RosterIs(s: Service, c: ConfigurationName, t: TicketState)
    ensures var known := s.TrackerOf(c).TicketsFor(t.matchID); RosterOf(s, c, t) == if known.Some? then known.value else [t.id]
  {
  }
}
