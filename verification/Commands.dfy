/**
 The four client commands as functions of the service state and of the answers they get from outside:
 StartMatchmaking, StartMatchBackfill, AcceptMatch and StopMatchmaking.
 `refused` stands for the answers that end a command before it touches a ticket: an unknown configuration,
 rule set or engine, an expired context, a closed delivery lane, or a missing player attribute.
 */
module Commands {
  import opened Wrappers
  import opened Domain
  import opened RosterKey
  import opened ProposalTracking
  import opened ServiceState
  import opened Tick

  datatype EnqueueReply = Enqueued | DuplicateTicket | InvalidTicket | EnqueueFault
  datatype EngineReply = Done | UnknownTicket | Fault

  datatype Result = Result(svc: Service, batch: seq<Event>, outcome: Outcome<Error>)

  function Refuse(s: Service, e: Error): Result {
    Result(s, [], Fail(e))
  }

  // ----- start

  datatype StartInput = StartInput(
    config: ConfigurationName,
    ticketID: TicketID,
    generatedID: TicketID,
    players: seq<Player>,
    refused: bool,
    enqueue: EnqueueReply,
    now: Time)

  /** strings.TrimSpace leaves nothing (over the ASCII white space characters). */
  predicate Blank(s: string) {
    forall ch <- s :: ch in {' ', '\t', '\n', '\r', 11 as char, 12 as char}
  }

  function ChosenID(requested: TicketID, generated: TicketID): Option<TicketID> {
    if requested != "" then Some(requested) else if Blank(generated) then None else Some(generated)
  }

  function EnqueueError(r: EnqueueReply): Error {
    match r
    case DuplicateTicket => TicketAlreadyExists
    case InvalidTicket => InvalidRequest
    case _ => EngineFault
  }

  function StartMatchmaking(x: StartInput, s: Service): Result {
    if x.players == [] then Refuse(s, InvalidCommand)
    else if x.refused then Refuse(s, Refused)
    else match ChosenID(x.ticketID, x.generatedID)
      case None => Refuse(s, InvalidRequest)
      case Some(id) =>
        match NewTicketState(id, x.config, x.players, x.now)
        case None => Refuse(s, InvalidRequest)
        case Some(t) =>
          if s.Taken(id) then Refuse(s, TicketAlreadyExists)
          else if !x.enqueue.Enqueued? then Refuse(s.Reserve(id).CancelReservation(id), EnqueueError(x.enqueue))
          else Result(s.Reserve(id).Commit(t.Drained()), t.events, Pass)
  }

  // ----- backfill

  /** `cancelPrior`, `cancelNew` and `evictNew` answer the engine calls made when an earlier request is superseded. */
  datatype BackfillInput = BackfillInput(
    start: StartInput,
    gameSessionARN: string,
    priorMetrics: Option<seq<RuleMetric>>,
    cancelPrior: EngineReply,
    cancelNew: EngineReply,
    evictNew: EngineReply)

  predicate IsSessionBackfill(t: TicketState, arn: string) {
    t.isBackfill && t.gameSessionARN == arn && t.status.IsActive()
  }

  function FirstSessionBackfill(s: Service, ids: seq<TicketID>, arn: string): Option<TicketState> {
    if ids == [] then None
    else if ids[0] in s.tickets && IsSessionBackfill(s.tickets[ids[0]], arn) then Some(s.tickets[ids[0]])
    else FirstSessionBackfill(s, ids[1..], arn)
  }

  /** The active backfill ticket of a session, looked up in id order. */
  ghost function FindSessionBackfill(s: Service, c: ConfigurationName, arn: string): Option<TicketState> {
    FirstSessionBackfill(s, SortedListing(s.Active(c)), arn)
  }

  /** isSupersedable */
  predicate IsSupersedable(status: TicketStatus) {
    Pooled(status)
  }

  /** Retires the earlier request. The rule metrics are stored before anything can fail. */
  function SupersedeBackfill(x: BackfillInput, s: Service, prior: TicketState): Result {
    var t := if x.priorMetrics.Some? then prior.SetRuleMetrics(x.priorMetrics.value) else prior;
    if x.cancelPrior.Fault? then Result(s.Put(t), [], Fail(EngineFault))
    else match t.MarkCancelled(SupersededMessage, x.start.now)
      case None => Result(s.Put(t), [], Fail(InvalidTransition))
      case Some(u) => Result(s.Save(u.Drained()), u.events, Pass)
  }

  /** What the command is going to do once its request has been checked; nothing has been changed yet. */
  datatype BackfillPlan = Decline(error: Error) | Replace(ticket: TicketState, prior: Option<TicketState>)

  ghost function PlanBackfill(x: BackfillInput, s: Service): BackfillPlan {
    if x.start.players == [] then Decline(InvalidCommand)
    else if x.start.refused then Decline(Refused)
    else
      var prior := if x.gameSessionARN == "" then None else FindSessionBackfill(s, x.start.config, x.gameSessionARN);
      if prior.Some? && !IsSupersedable(prior.value.status) then Decline(BackfillInProgress)
      else match ChosenID(x.start.ticketID, x.start.generatedID)
        case None => Decline(InvalidRequest)
        case Some(id) =>
          match NewBackfillTicketState(id, x.start.config, x.start.players, x.gameSessionARN, x.start.now)
          case None => Decline(InvalidRequest)
          case Some(t) => Replace(t, prior)
  }

  /** The engine has the new ticket and its id is reserved: retire the earlier request, or take everything back. */
  function ReplaceBackfill(x: BackfillInput, s: Service, t: TicketState, prior: Option<TicketState>): Result {
    if prior.None? then Result(s.Commit(t.Drained()), t.events, Pass)
    else
      var r := SupersedeBackfill(x, s, prior.value);
      if r.outcome.Pass? then Result(r.svc.Commit(t.Drained()), r.batch + t.events, Pass)
      else if x.cancelNew.Fault? || x.evictNew.Fault? then r
      else r.(svc := r.svc.CancelReservation(t.id))
  }

  ghost function StartMatchBackfill(x: BackfillInput, s: Service): Result {
    match PlanBackfill(x, s)
    case Decline(e) => Refuse(s, e)
    case Replace(t, prior) =>
      if s.Taken(t.id) then Refuse(s, TicketAlreadyExists)
      else if !x.start.enqueue.Enqueued? then
        Refuse(s.Reserve(t.id).CancelReservation(t.id), EnqueueError(x.start.enqueue))
      else ReplaceBackfill(x, s.Reserve(t.id), t, prior)
  }

  // ----- accept

  /**
   `replaced` says that the id was registered anew, or removed, while the command waited for the configuration;
   `pending` lists the rosters the engine holds pending; `engineErrors` the players its call fails for.
   */
  datatype AcceptInput = AcceptInput(
    ticketID: TicketID,
    playerIDs: seq<PlayerID>,
    accepted: bool,
    refused: bool,
    replaced: bool,
    pending: seq<seq<TicketID>>,
    engineErrors: map<PlayerID, Error>)

  /** Each player of the request once, in the order of their first mention. */
  function Dedupe(ids: seq<PlayerID>): (r: seq<PlayerID>)
    ensures NoDuplicates(r) && forall p :: p in r <==> p in ids
  {
    if ids == [] then []
    else
      var r := Dedupe(ids[..|ids| - 1]);
      if ids[|ids| - 1] in r then r else r + [ids[|ids| - 1]]
  }

  function FirstMention(ids: seq<PlayerID>, p: PlayerID): (i: nat)
    requires p in ids
    ensures i < |ids| && ids[i] == p && p !in ids[..i]
  {
    if ids[0] == p then 0 else FirstMention(ids[1..], p) + 1
  }

  /** Of two players that are kept, the one mentioned first comes first. */
  lemma {:induction false} DedupeOrder(ids: seq<PlayerID>, i: nat, j: nat)
    requires i < j < |Dedupe(ids)|
    ensures FirstMention(ids, Dedupe(ids)[i]) < FirstMention(ids, Dedupe(ids)[j])
  {
    var front := ids[..|ids| - 1];
    var r := Dedupe(front);
    if j < |r| {
      DedupeOrder(front, i, j);
      SameMention(ids, |ids| - 1, r[i]);
      SameMention(ids, |ids| - 1, r[j]);
    } else {
      SameMention(ids, |ids| - 1, r[i]);
    }
  }

  lemma SameMention(ids: seq<PlayerID>, n: nat, p: PlayerID)
    requires n <= |ids| && p in ids[..n]
    ensures FirstMention(ids, p) == FirstMention(ids[..n], p)
  {
    var i, j := FirstMention(ids, p), FirstMention(ids[..n], p);
    forall k | 0 <= k < i ensures ids[k] != p { assert ids[k] == ids[..i][k]; }
    forall k | 0 <= k < j ensures ids[k] != p { assert ids[k] == ids[..n][..j][k]; }
  }

  /** The error of the first player, in request order, whose engine call fails. */
  function FirstError(ids: seq<PlayerID>, errors: map<PlayerID, Error>): Outcome<Error> {
    if ids == [] then Pass else if ids[0] in errors then Fail(errors[ids[0]]) else FirstError(ids[1..], errors)
  }

  /** The decisions recorded on the registered tickets of a roster, later tickets winning. */
  function MergedAcceptances(s: Service, ids: seq<TicketID>): map<PlayerID, bool> {
    if ids == [] then map[]
    else
      var last := ids[|ids| - 1];
      MergedAcceptances(s, ids[..|ids| - 1]) + (if last in s.tickets then s.tickets[last].playerAcceptances else map[])
  }

  function AcceptMatch(x: AcceptInput, s: Service): Result {
    if x.ticketID !in s.tickets then Refuse(s, TicketNotFound)
    else if x.refused then Refuse(s, Refused)
    else if x.replaced then Refuse(s, TicketNotFound)
    else
      var t := s.tickets[x.ticketID];
      var players := Dedupe(x.playerIDs);
      var valid := t.ValidatePlayerAcceptances(players);
      if valid.Fail? then Refuse(s, valid.error)
      else if !exists r <- x.pending :: x.ticketID in r then Refuse(s, ProposalNotFound)
      else
        var called := FirstError(if x.accepted || players == [] then players else players[..1], x.engineErrors);
        if called.Fail? then Refuse(s, called.error)
        else
          var s1 := s.Save(t.RecordPlayerAcceptances(players, x.accepted)).WithTracker(t.config);
          var roster := s1.TrackerOf(t.config).TicketsFor(t.matchID);
          var ids := if roster.Some? then roster.value else [t.id];
          Result(s1, [AcceptanceRecorded(t.matchID, ids, MergedAcceptances(s1, ids))], Pass)
  }

  // ----- stop

  /** `replaced` as for AcceptMatch. */
  datatype StopInput = StopInput(ticketID: TicketID, refused: bool, replaced: bool, cancel: EngineReply)

  function StopMatchmaking(x: StopInput, s: Service): Result {
    if x.ticketID !in s.tickets then Refuse(s, TicketNotFound)
    else if x.refused then Refuse(s, Refused)
    else if x.replaced then Refuse(s, TicketNotFound)
    else if x.cancel.UnknownTicket? then Refuse(s, TicketNotFound)
    else if x.cancel.Fault? then Refuse(s, EngineFault)
    else Result(s.Save(s.tickets[x.ticketID].RequestCancel()), [], Pass)
  }
}
