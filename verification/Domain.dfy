/**
 The matchmaking domain: identifiers, the status table, the events, and the ticket aggregate as a value.
 The mutable aggregate of ticket.go is the class in Ticket.dfy; every one of its methods is proved to act
 on its fields as the function of the same name below acts on a `TicketState`.
 */
module Domain {
  import opened Wrappers

  type TicketID = string
  type PlayerID = string
  type MatchID = string
  type ConfigurationName = string

  /** An instant; 0 is Go's zero time, so `IsZero` is a comparison with 0. */
  type Time = int

  datatype Player = Player(id: PlayerID, team: string)
  datatype RuleMetric = RuleMetric(ruleName: string, passed: int, failed: int)

  datatype Error =
    | InvalidCommand
    | InvalidTransition
    | InvalidRequest
    | TicketNotFound
    | TicketAlreadyExists
    | ProposalNotFound
    | PlayerNotInTicket
    | BackfillInProgress
    | EngineFault
    | Refused // an answer from outside: unknown configuration or engine, invalid attributes, expired context

  datatype TicketStatus =
    | Queued
    | Searching
    | RequiresAcceptance
    | Placing
    | Completed
    | Failed
    | Cancelled
    | TimedOut
  {
    predicate IsTerminal() {
      Completed? || Failed? || Cancelled? || TimedOut?
    }

    predicate IsActive() {
      !IsTerminal()
    }

    function AllowedTransitions(): set<TicketStatus> {
      match this
      case Queued => {Searching, RequiresAcceptance, Placing, Cancelled, TimedOut}
      case Searching => {RequiresAcceptance, Placing, Cancelled, TimedOut}
      case RequiresAcceptance => {Searching, Placing, Cancelled, TimedOut, Failed}
      case Placing => {Completed, Failed}
      case _ => {}
    }

    /** A status may always be "changed" to itself, even a terminal one. */
    predicate CanTransitionTo(next: TicketStatus) {
      this == next || next in AllowedTransitions()
    }
  }

  /** Waiting in the pool: neither matched nor ended. */
  predicate Pooled(status: TicketStatus) {
    status.Queued? || status.Searching?
  }

  /** The status table, read by where a change may come from. */
  lemma ReachedFrom(from: TicketStatus, to: TicketStatus)
    ensures from != to ==>
              (from.CanTransitionTo(to) <==>
                 match to
                 case Queued => false
                 case Searching => from.Queued? || from.RequiresAcceptance?
                 case RequiresAcceptance => Pooled(from)
                 case Placing => Pooled(from) || from.RequiresAcceptance?
                 case Completed => from.Placing?
                 case Failed => from.RequiresAcceptance? || from.Placing?
                 case Cancelled | TimedOut => Pooled(from) || from.RequiresAcceptance?)
    ensures from.CanTransitionTo(from)
  {
  }

  datatype AcceptanceOutcome = Accepted | Rejected | Lapsed

  /** The domain events on the service's flow, with the part of their payload that the properties speak of. */
  datatype Event =
    | SearchingStarted(ticketID: TicketID)
    | PotentialMatchCreated(matchID: MatchID, ticketIDs: seq<TicketID>, metrics: seq<RuleMetric>)
    | AcceptanceRecorded(matchID: MatchID, ticketIDs: seq<TicketID>, acceptances: map<PlayerID, bool>)
    | AcceptMatchCompleted(matchID: MatchID, ticketIDs: seq<TicketID>, outcome: AcceptanceOutcome)
    | MatchmakingSucceeded(matchID: MatchID, ticketIDs: seq<TicketID>)
    | MatchmakingTimedOut(ticketID: TicketID, matchID: MatchID, reason: string, message: string, metrics: seq<RuleMetric>)
    | MatchmakingCancelled(ticketID: TicketID, matchID: MatchID, reason: string, message: string, metrics: seq<RuleMetric>)
  {
    /** Is `id` among the tickets this event is about? */
    predicate Names(id: TicketID) {
      if SearchingStarted? || MatchmakingTimedOut? || MatchmakingCancelled? then ticketID == id else id in ticketIDs
    }

    /** Is this one of the events that describe match `m` as a whole? */
    predicate About(m: MatchID) {
      (PotentialMatchCreated? || AcceptanceRecorded? || AcceptMatchCompleted? || MatchmakingSucceeded?) && matchID == m
    }

    /** Does this event announce the end of ticket `id`? */
    predicate Ends(id: TicketID) {
      (MatchmakingTimedOut? || MatchmakingCancelled? || MatchmakingSucceeded?) && Names(id)
    }
  }

  const StoppedMessage := "Matchmaking stopped by client"
  const AcceptanceFailedMessage := "A player failed to accept the proposed match"
  const SupersededMessage := "Superseded by a newer backfill request for the same game session"

  /** player -> team, the last entry of a player winning, as a loop over the players assigns them. */
  function SeatedTeams(players: seq<Player>): map<PlayerID, string> {
    if players == [] then map[]
    else SeatedTeams(players[..|players| - 1])[players[|players| - 1].id := players[|players| - 1].team]
  }

  function PlayerIDs(players: seq<Player>): set<PlayerID> {
    set p <- players :: p.id
  }

  /** The part of a match-wide player -> team assignment that concerns these players. */
  function TeamsOf(players: seq<Player>, teams: map<PlayerID, string>): map<PlayerID, string> {
    map p | p in PlayerIDs(players) && p in teams :: teams[p]
  }

  /** The same decision for each of the players. */
  function Decision(ids: seq<PlayerID>, accepted: bool): map<PlayerID, bool> {
    map p | p in ids :: accepted
  }

  datatype TicketState = TicketState(
    id: TicketID,
    config: ConfigurationName,
    players: seq<Player>,
    isBackfill: bool,
    gameSessionARN: string,
    startTime: Time,
    status: TicketStatus,
    statusReason: string,
    statusMessage: string,
    endTime: Time,
    matchID: MatchID,
    cancelByAPI: bool,
    playerTeams: map<PlayerID, string>,
    playerAcceptances: map<PlayerID, bool>,
    ruleMetrics: seq<RuleMetric>,
    events: seq<Event>)
  {
    predicate Terminal() {
      status.IsTerminal()
    }

    /** The status check every guarded transition starts with; `None` is ErrInvalidTransition. */
    function Transition(next: TicketStatus): Option<TicketState> {
      if status.CanTransitionTo(next) then Some(this.(status := next)) else None
    }

    function Record(e: Event): TicketState {
      this.(events := events + [e])
    }

    function AssignToProposal(m: MatchID): Option<TicketState> {
      match Transition(RequiresAcceptance)
      case None => None
      case Some(t) => Some(t.(matchID := m, statusReason := ""))
    }

    function MoveToPlacing(m: MatchID): Option<TicketState> {
      match Transition(Placing)
      case None => None
      case Some(t) => Some(if m != "" then t.(matchID := m) else t)
    }

    function Complete(now: Time): Option<TicketState> {
      match Transition(Completed)
      case None => None
      case Some(t) => Some(t.(endTime := now))
    }

    function MarkTimedOut(reason: string, message: string, now: Time): Option<TicketState> {
      match Transition(TimedOut)
      case None => None
      case Some(t) =>
        Some(t.(endTime := now, statusReason := reason, statusMessage := message)
              .Record(MatchmakingTimedOut(id, matchID, reason, message, ruleMetrics)))
    }

    /** The three cancellations (by the client, by acceptance failure, by supersession) differ in `message`. */
    function MarkCancelled(message: string, now: Time): Option<TicketState> {
      match Transition(Cancelled)
      case None => None
      case Some(t) =>
        Some(t.(endTime := now, statusReason := "Cancelled", statusMessage := message)
              .Record(MatchmakingCancelled(id, matchID, "Cancelled", message, ruleMetrics)))
    }

    /** The seats a ticket carries while it waits: the requested ones for a backfill, none otherwise. */
    function RequestedSeats(): map<PlayerID, string> {
      if isBackfill then SeatedTeams(players) else map[]
    }

    function ReturnToSearching(reason: string): Option<TicketState> {
      match Transition(Searching)
      case None => None
      case Some(t) =>
        Some(t.(matchID := "", playerAcceptances := map[], playerTeams := RequestedSeats(),
                statusReason := reason, statusMessage := "").Record(SearchingStarted(id)))
    }

    function RequestCancel(): TicketState {
      this.(cancelByAPI := true)
    }

    /** Deliberately not guarded by the transition table. */
    function ObserveSearching(): TicketState {
      this.(status := Searching)
    }

    function SetPlayerTeams(teams: map<PlayerID, string>): TicketState {
      this.(playerTeams := playerTeams + TeamsOf(players, teams))
    }

    function SetRuleMetrics(metrics: seq<RuleMetric>): TicketState {
      this.(ruleMetrics := metrics)
    }

    function ValidatePlayerAcceptances(ids: seq<PlayerID>): Outcome<Error> {
      if status != RequiresAcceptance then Fail(InvalidTransition)
      else if ids == [] then Fail(InvalidRequest)
      else if forall p <- ids :: p in PlayerIDs(players) then Pass
      else Fail(PlayerNotInTicket)
    }

    function RecordPlayerAcceptances(ids: seq<PlayerID>, accepted: bool): TicketState {
      this.(playerAcceptances := playerAcceptances + Decision(ids, accepted))
    }

    function Drained(): TicketState {
      this.(events := [])
    }
  }

  /** A freshly made ticket, with its one MatchmakingSearching still in its buffer. */
  function NewTicketState(id: TicketID, config: ConfigurationName, players: seq<Player>,
                          now: Time): Option<TicketState> {
    if id == "" || players == [] then None
    else Some(TicketState(id, config, players, false, "", now, Queued, "", "", 0, "", false, map[], map[], [],
                          [SearchingStarted(id)]))
  }

  function NewBackfillTicketState(id: TicketID, config: ConfigurationName, players: seq<Player>,
                                  gameSessionARN: string, now: Time): Option<TicketState> {
    match NewTicketState(id, config, players, now)
    case None => None
    case Some(t) => Some(t.(isBackfill := true, gameSessionARN := gameSessionARN, playerTeams := SeatedTeams(players)))
  }
}
