/**
 What a tick may make of one ticket, field by field: the ticket it leaves and the event that announces it. The moves of the
 ticket aggregate are shown to be these.
 */
module TicketMoves {
  import opened Wrappers
  import opened Domain
  import opened ServiceState
  import opened Tick

  // ----- what a tick may make of a ticket

  /** The engine's rule metrics for a ticket, if it has any. */
  function MetricsOf(x: TickInput, t: TicketState): seq<RuleMetric> {
    if t.id in x.engine.metrics then x.engine.metrics[t.id] else t.ruleMetrics
  }

  /** Cancelled or timed out, with what the client is told. */
  function EndedAs(x: TickInput, t: TicketState, status: TicketStatus): TicketState {
    t.(status := status, endTime := x.now, ruleMetrics := MetricsOf(x, t),
       statusReason := if status.Cancelled? then "Cancelled" else "TimedOut",
       statusMessage := if status.TimedOut? then "Matchmaking timed out"
                        else if t.cancelByAPI then "Matchmaking stopped by client"
                        else "A player failed to accept the proposed match")
  }

  function EndEvent(x: TickInput, t: TicketState, status: TicketStatus): Event {
    var u := EndedAs(x, t, status);
    if status.Cancelled? then MatchmakingCancelled(u.id, u.matchID, u.statusReason, u.statusMessage, u.ruleMetrics)
    else MatchmakingTimedOut(u.id, u.matchID, u.statusReason, u.statusMessage, u.ruleMetrics)
  }

  /** Back in the pool, with nothing left of the match but the reason why. */
  function Requeued(t: TicketState, reason: string): TicketState {
    t.(status := Searching, matchID := "", playerAcceptances := map[], statusReason := reason, statusMessage := "",
       playerTeams := if t.isBackfill then SeatedTeams(t.players) else map[])
  }

  function ReasonOf(x: TickInput, id: TicketID): string {
    if id in x.engine.reasons then x.engine.reasons[id] else ""
  }

  /** The seats of the ticket's own players are those the engine names, where it names one. */
  function Seats(t: TicketState, teams: map<PlayerID, string>): map<PlayerID, string> {
    t.playerTeams + map p | p in PlayerIDs(t.players) && p in teams :: teams[p]
  }

  function ProposedIn(t: TicketState, p: Proposal): TicketState {
    t.(status := RequiresAcceptance, matchID := p.newID, statusReason := "", playerTeams := Seats(t, p.teams))
  }

  function CompletedIn(x: TickInput, t: TicketState, m: MatchID, teams: map<PlayerID, string>): TicketState {
    t.(status := Completed, endTime := x.now, matchID := m, playerTeams := Seats(t, teams))
  }

  lemma MetricsAre(x: TickInput, t: TicketState, curr: TicketStatus)
    ensures CaptureRuleMetrics(x, t, curr) == if curr.Cancelled? || curr.TimedOut? then t.(ruleMetrics := MetricsOf(x, t)) else t
  {
    assert t.(ruleMetrics := t.ruleMetrics) == t;
  }

  /** Cancelling or timing out an active ticket with the metrics captured. */
  lemma EndMeans(x: TickInput, t: TicketState)
    requires !t.Terminal() && !t.status.Placing? && t.events == []
    ensures var r := t.(ruleMetrics := MetricsOf(x, t)).MarkCancelled(if t.cancelByAPI then StoppedMessage
                                                                      else AcceptanceFailedMessage, x.now);
            r.Some? && r.value.Drained() == EndedAs(x, t, Cancelled) && r.value.events == [EndEvent(x, t, Cancelled)]
    ensures var r := t.(ruleMetrics := MetricsOf(x, t)).MarkTimedOut("TimedOut", "Matchmaking timed out", x.now);
            r.Some? && r.value.Drained() == EndedAs(x, t, TimedOut) && r.value.events == [EndEvent(x, t, TimedOut)]
  {
    hide MetricsOf;
  }

  lemma RequeueMeans(t: TicketState, reason: string)
    requires t.status.RequiresAcceptance? && t.events == []
    ensures var r := t.ReturnToSearching(reason);
            r.Some? && r.value.Drained() == Requeued(t, reason) && r.value.events == [SearchingStarted(t.id)]
  {
    hide SeatedTeams;
  }
}
