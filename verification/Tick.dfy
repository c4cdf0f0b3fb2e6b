/**
 One tick of a configuration as a function of the service state and of the engine's answers: the four passes of
 tick.go in their order, then the eviction sweep. A pass that reports an error leaves its half-done work behind,
 as the source does, and the passes after it do nothing.
 */
module Tick {
  import opened Wrappers
  import opened Domain
  import opened RosterKey
  import opened ProposalTracking
  import opened ServiceState

  /** A finished match. `newID` is what the id generator would return if this match needed a fresh id. */
  datatype Match = Match(ticketIDs: seq<TicketID>, teams: map<PlayerID, string>, metrics: seq<RuleMetric>, newID: MatchID)

  /** A proposal pending acceptance; `newID` as for a match. */
  datatype Proposal = Proposal(ticketIDs: seq<TicketID>, createdAt: Time, teams: map<PlayerID, string>,
                               metrics: seq<RuleMetric>, newID: MatchID)

  /**
   The engine's answers during one tick. A ticket absent from a status map is unknown to the engine (its query
   fails). `statusAfter` answers the queries made after the matches were marked completed; marking a ticket of
   `completeFails` fails with an error other than "unknown ticket".
   */
  datatype EngineTick = EngineTick(
    fails: bool,
    matches: seq<Match>,
    pending: seq<Proposal>,
    status: map<TicketID, TicketStatus>,
    statusAfter: map<TicketID, TicketStatus>,
    reasons: map<TicketID, string>,
    metrics: map<TicketID, seq<RuleMetric>>,
    completeFails: set<TicketID>)

  /** `order` is the order in which the Go runtime iterates over the map of tracked proposals. */
  datatype TickInput = TickInput(
    config: ConfigurationName,
    acceptanceRequired: bool,
    refused: bool,
    now: Time,
    engine: EngineTick,
    order: seq<MatchID>)

  /** The state a command threads through: the store, its batch of events, and whether it has met an error. */
  datatype Work = Work(svc: Service, batch: seq<Event>, failed: bool)
  {
    function Add(e: Event): Work {
      this.(batch := batch + [e])
    }

    /** SaveTicket followed by addTicket: the ticket's recorded events move into the batch. */
    function Store(t: TicketState): Work {
      this.(svc := svc.Save(t.Drained()), batch := batch + t.events)
    }

    /** An error after the ticket object was mutated but before it was saved. */
    function Abort(t: TicketState): Work {
      this.(svc := svc.Put(t), failed := true)
    }
  }

  // ----- what the engine reports about one ticket

  function CaptureRuleMetrics(x: TickInput, t: TicketState, curr: TicketStatus): TicketState {
    if (curr.Cancelled? || curr.TimedOut?) && t.id in x.engine.metrics then t.SetRuleMetrics(x.engine.metrics[t.id])
    else t
  }

  function StatusReason(x: TickInput, id: TicketID): string {
    if id in x.engine.reasons then x.engine.reasons[id] else ""
  }

  /** transitionFromEngine: the ticket's change of state; `None` is an illegal transition. */
  function FromEngine(x: TickInput, t: TicketState, curr: TicketStatus): Option<TicketState> {
    match curr
    case Queued | Searching =>
      if t.status.RequiresAcceptance? then t.ReturnToSearching(StatusReason(x, t.id)) else Some(t.ObserveSearching())
    case Cancelled => t.MarkCancelled(if t.cancelByAPI then StoppedMessage else AcceptanceFailedMessage, x.now)
    case TimedOut => t.MarkTimedOut("TimedOut", "Matchmaking timed out", x.now)
    case _ => Some(t)
  }

  /** Does this status change settle the acceptance of the ticket's proposal (and so carry an outcome)? */
  predicate SettlesAcceptance(t: TicketState, curr: TicketStatus) {
    curr.Cancelled? && !t.cancelByAPI && t.status.RequiresAcceptance?
  }

  predicate Rejects(t: TicketState) {
    exists p <- t.playerAcceptances :: !t.playerAcceptances[p]
  }

  predicate SomeRejection(s: Service, ids: seq<TicketID>) {
    exists id <- ids :: id in s.tickets && Rejects(s.tickets[id])
  }

  predicate SomeStopped(s: Service, ids: seq<TicketID>) {
    exists id <- ids :: id in s.tickets && s.tickets[id].cancelByAPI
  }

  /** acceptanceFailureOutcome */
  function FailureOutcome(s: Service, c: ConfigurationName, m: MatchID): AcceptanceOutcome {
    match s.TrackerOf(c).TicketsFor(m)
    case None => Lapsed
    case Some(ids) => if SomeRejection(s, ids) then Rejected else Lapsed
  }

  // ----- pass 1: settleOldProposals

  predicate StillPending(x: TickInput, ids: seq<TicketID>, createdAt: Time) {
    exists p <- x.engine.pending :: Key(p.ticketIDs) == Key(ids) && p.createdAt == createdAt
  }

  predicate Matched(x: TickInput, ids: seq<TicketID>) {
    exists m <- x.engine.matches :: Key(m.ticketIDs) == Key(ids)
  }

  function SettleTicket(x: TickInput, w: Work, id: TicketID): Work {
    if id !in w.svc.tickets || !w.svc.tickets[id].status.RequiresAcceptance? || id !in x.engine.status then w
    else
      var curr := x.engine.status[id];
      var t := CaptureRuleMetrics(x, w.svc.tickets[id], curr);
      var r := if curr.RequiresAcceptance? then t.ReturnToSearching("ACCEPTANCE_FAILED") else FromEngine(x, t, curr);
      if r.None? then w.Abort(t) else w.Store(r.value)
  }

  function SettleTickets(x: TickInput, w: Work, ids: seq<TicketID>): Work
    decreases |ids|
  {
    if w.failed || ids == [] then w else SettleTickets(x, SettleTicket(x, w, ids[0]), ids[1..])
  }

  /** Settles one tracked proposal unless it is still pending or was matched. */
  function SettleProposal(x: TickInput, w: Work, m: MatchID): Work {
    var tracker := w.svc.TrackerOf(x.config);
    if m !in tracker.byMatch then w
    else
      var ids := tracker.byMatch[m];
      if StillPending(x, ids, tracker.CreatedAt(m)) || Matched(x, ids) then w
      else
        var w1 := if SomeStopped(w.svc, ids) then w
                  else w.Add(AcceptMatchCompleted(m, ids, FailureOutcome(w.svc, x.config, m)));
        var w2 := SettleTickets(x, w1, ids);
        if w2.failed then w2
        else w2.(svc := w2.svc.SetTracker(x.config, w2.svc.TrackerOf(x.config).Forget(m)))
  }

  function Settle(x: TickInput, w: Work, order: seq<MatchID>): Work
    decreases |order|
  {
    if w.failed || order == [] then w else Settle(x, SettleProposal(x, w, order[0]), order[1..])
  }

  // ----- pass 2: finalizeMatches

  /** Moves one ticket of a match to COMPLETED; the flag reports that it left REQUIRES_ACCEPTANCE. */
  function FinalizeTicket(x: TickInput, w: Work, m: MatchID, teams: map<PlayerID, string>, id: TicketID): (Work, bool) {
    if id !in w.svc.tickets then (w, false)
    else
      var t := w.svc.tickets[id].SetPlayerTeams(teams);
      var settled := x.acceptanceRequired && t.status.RequiresAcceptance?;
      var placed := if t.status.Placing? then Some(t) else t.MoveToPlacing(m);
      if placed.None? then (w.Abort(t), settled)
      else if id in x.engine.completeFails then (w.Abort(placed.value), settled)
      else
        var done := placed.value.Complete(x.now);
        if done.None? then (w.Abort(placed.value), settled)
        else (w.(svc := w.svc.Save(done.value)), settled)
  }

  function FinalizeTickets(x: TickInput, w: Work, m: MatchID, teams: map<PlayerID, string>, ids: seq<TicketID>,
                           settled: bool): (Work, bool)
    decreases |ids|
  {
    if w.failed || ids == [] then (w, settled)
    else
      var (w1, s1) := FinalizeTicket(x, w, m, teams, ids[0]);
      FinalizeTickets(x, w1, m, teams, ids[1..], settled || s1)
  }

  function FinalizeMatch(x: TickInput, w: Work, m: Match): Work {
    var tracker := w.svc.TrackerOf(x.config);
    var known := tracker.Known(m.ticketIDs);
    var matchID := if known.Some? then known.value else m.newID;
    var w1 := if known.Some? then w else w.(svc := w.svc.SetTracker(x.config, tracker.AssignAt(m.ticketIDs, matchID, 0)));
    var (w2, settled) := FinalizeTickets(x, w1, matchID, m.teams, m.ticketIDs, false);
    if w2.failed then w2
    else
      var w3 := if known.Some? then w2 else w2.Add(PotentialMatchCreated(matchID, m.ticketIDs, m.metrics));
      var w4 := if settled then w3.Add(AcceptMatchCompleted(matchID, m.ticketIDs, Accepted)) else w3;
      var w5 := w4.Add(MatchmakingSucceeded(matchID, m.ticketIDs));
      w5.(svc := w5.svc.SetTracker(x.config, w5.svc.TrackerOf(x.config).Forget(matchID)))
  }

  function Finalize(x: TickInput, w: Work, matches: seq<Match>): Work
    decreases |matches|
  {
    if w.failed || matches == [] then w else Finalize(x, FinalizeMatch(x, w, matches[0]), matches[1..])
  }

  // ----- pass 3: applyNewProposals

  function AssignTicket(w: Work, m: MatchID, teams: map<PlayerID, string>, id: TicketID): Work {
    if id !in w.svc.tickets then w
    else
      var r := w.svc.tickets[id].AssignToProposal(m);
      if r.None? then w.Abort(w.svc.tickets[id])
      else w.(svc := w.svc.Save(r.value.SetPlayerTeams(teams)))
  }

  function AssignTickets(w: Work, m: MatchID, teams: map<PlayerID, string>, ids: seq<TicketID>): Work
    decreases |ids|
  {
    if w.failed || ids == [] then w else AssignTickets(AssignTicket(w, m, teams, ids[0]), m, teams, ids[1..])
  }

  function ApplyProposal(x: TickInput, w: Work, p: Proposal): Work {
    var tracker := w.svc.TrackerOf(x.config);
    var known := tracker.Known(p.ticketIDs);
    if known.Some? && tracker.CreatedAt(known.value) == p.createdAt then w
    else
      var w1 := w.(svc := w.svc.SetTracker(x.config, tracker.AssignAt(p.ticketIDs, p.newID, p.createdAt)));
      var w2 := AssignTickets(w1, p.newID, p.teams, p.ticketIDs);
      if w2.failed then w2 else w2.Add(PotentialMatchCreated(p.newID, p.ticketIDs, p.metrics))
  }

  function Apply(x: TickInput, w: Work, pending: seq<Proposal>): Work
    decreases |pending|
  {
    if w.failed || pending == [] then w else Apply(x, ApplyProposal(x, w, pending[0]), pending[1..])
  }

  // ----- pass 4: syncActiveTickets

  /** `settled` is the set of matches whose AcceptMatchCompleted this pass has already emitted. */
  function SyncTicket(x: TickInput, w: Work, settled: set<MatchID>, id: TicketID): (Work, set<MatchID>) {
    if id !in w.svc.tickets || id !in x.engine.statusAfter then (w, settled)
    else
      var curr := x.engine.statusAfter[id];
      var prior := w.svc.tickets[id];
      if curr == prior.status then (w, settled)
      else
        var t := CaptureRuleMetrics(x, prior, curr);
        var r := FromEngine(x, t, curr);
        if r.None? then (w.Abort(t), settled)
        else if SettlesAcceptance(t, curr) && t.matchID != "" && t.matchID !in settled then
          var tracker := w.svc.TrackerOf(x.config);
          var known := tracker.TicketsFor(t.matchID);
          var ids := if known.Some? then known.value else [id];
          var outcome := FailureOutcome(w.svc, x.config, t.matchID);
          var w1 := w.Add(AcceptMatchCompleted(t.matchID, ids, outcome));
          (w1.(svc := w1.svc.SetTracker(x.config, tracker.Forget(t.matchID))).Store(r.value), settled + {t.matchID})
        else (w.Store(r.value), settled)
  }

  function SyncTickets(x: TickInput, w: Work, settled: set<MatchID>, ids: seq<TicketID>): Work
    decreases |ids|
  {
    if w.failed || ids == [] then w
    else
      var (w1, s1) := SyncTicket(x, w, settled, ids[0]);
      SyncTickets(x, w1, s1, ids[1..])
  }

  ghost function Sync(x: TickInput, w: Work): Work {
    SyncTickets(x, w, {}, SortedListing(w.svc.Active(x.config)))
  }

  // ----- the tick

  /** The whole tick: what the service holds afterwards, and the batch of events it hands to its delivery lane. */
  ghost function RunTick(x: TickInput, s: Service): Work {
    if x.refused || x.engine.fails then Work(s, [], true)
    else
      var w1 := Settle(x, Work(s.WithTracker(x.config), [], false), x.order);
      var w2 := Finalize(x, w1, x.engine.matches);
      var w3 := Apply(x, w2, x.engine.pending);
      var w4 := if w3.failed then w3 else Sync(x, w3);
      if w4.failed then w4 else w4.(svc := w4.svc.Evict(x.config, x.now))
  }

  /** `order` lists each tracked proposal once. */
  ghost predicate ValidOrder(x: TickInput, s: Service) {
    multiset(x.order) == multiset(s.TrackerOf(x.config).Proposals())
  }
}
