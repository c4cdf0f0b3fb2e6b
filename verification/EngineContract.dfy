/**
 The contract of the matchmaking engine, and runs in which the engine keeps it.
 `Session` adds to a world what the contract refers to: which configurations require acceptance, the status the engine
 last reported for each ticket, the proposals it last reported pending, and the match ids already handed out.
 */
module EngineContract {
  import opened Wrappers
  import opened Domain
  import opened RosterKey
  import opened ProposalTracking
  import opened ServiceState
  import opened Tick
  import opened Commands
  import opened Runs

  datatype Session = Session(
    world: World,
    acceptance: set<ConfigurationName>,
    engine: map<TicketID, TicketStatus>,
    pending: map<ConfigurationName, seq<Proposal>>,
    used: set<MatchID>)
  {
    function Pending(c: ConfigurationName): seq<Proposal> {
      if c in pending then pending[c] else []
    }

    /** The engine is known to have ended this ticket. */
    predicate EngineEnded(id: TicketID) {
      id in engine && engine[id].IsTerminal()
    }
  }

  // ----- the contract of one tick

  predicate Apart(a: seq<TicketID>, b: seq<TicketID>) {
    forall id <- a :: id !in b
  }

  function Rosters(e: EngineTick): seq<seq<TicketID>> {
    seq(|e.matches|, i requires 0 <= i < |e.matches| => e.matches[i].ticketIDs)
    + seq(|e.pending|, i requires 0 <= i < |e.pending| => e.pending[i].ticketIDs)
  }

  function NewIDs(e: EngineTick): seq<MatchID> {
    seq(|e.matches|, i requires 0 <= i < |e.matches| => e.matches[i].newID)
    + seq(|e.pending|, i requires 0 <= i < |e.pending| => e.pending[i].newID)
  }

  predicate InMatches(e: EngineTick, id: TicketID) {
    exists m <- e.matches :: id in m.ticketIDs
  }

  predicate InPending(e: EngineTick, id: TicketID) {
    exists p <- e.pending :: id in p.ticketIDs
  }

  /** A roster of registered tickets of the configuration, none of which the engine has ended. */
  predicate GoodRoster(s: Service, c: ConfigurationName, e: EngineTick, ids: seq<TicketID>) {
    && ids != [] && NoDuplicates(ids)
    && forall id <- ids :: id in s.tickets && s.tickets[id].config == c && id in e.status && !e.status[id].IsTerminal()
  }

  /** Matches and pending proposals have good rosters that share no ticket. */
  ghost predicate RostersOk(g: Session, x: TickInput) {
    && (forall m <- x.engine.matches :: GoodRoster(g.world.svc, x.config, x.engine, m.ticketIDs))
    && (forall p <- x.engine.pending :: GoodRoster(g.world.svc, x.config, x.engine, p.ticketIDs) && p.createdAt != 0)
    && (forall i, j | 0 <= i < j < |Rosters(x.engine)| :: Apart(Rosters(x.engine)[i], Rosters(x.engine)[j]))
  }

  /** A ticket is REQUIRES_ACCEPTANCE in the engine exactly when it is in a pending proposal. */
  ghost predicate PendingOk(x: TickInput) {
    forall id <- x.engine.status :: x.engine.status[id].RequiresAcceptance? <==> InPending(x.engine, id)
  }

  /**
   The engine asks for acceptance exactly where the configuration says so; and where it does, a match was a pending
   proposal at the previous tick.
   */
  ghost predicate AcceptanceOk(g: Session, x: TickInput) {
    && (x.acceptanceRequired <==> x.config in g.acceptance)
    && (!x.acceptanceRequired ==> x.engine.pending == [])
    && (x.acceptanceRequired ==> forall m <- x.engine.matches ::
          exists p <- g.Pending(x.config) :: multiset(p.ticketIDs) == multiset(m.ticketIDs))
  }

  /** Calls about live registered tickets do not fail, and nothing but a match changes their status during the tick. */
  ghost predicate CallsOk(g: Session, x: TickInput) {
    forall id <- g.world.svc.tickets :: g.world.svc.tickets[id].config == x.config && !g.world.svc.tickets[id].Terminal() ==>
      && id in x.engine.status && id in x.engine.statusAfter && id !in x.engine.completeFails
      && (!InMatches(x.engine, id) ==> x.engine.statusAfter[id] == x.engine.status[id])
  }

  /** A ticket of an earlier proposal is cancelled, timed out, back in the pool, in a proposal again, or matched. */
  ghost predicate FailedProposalsOk(g: Session, x: TickInput) {
    forall p <- g.Pending(x.config), id <- p.ticketIDs :: id in x.engine.status && !InMatches(x.engine, id)
      ==> x.engine.status[id] in {Queued, Searching, RequiresAcceptance, Cancelled, TimedOut}
  }

  /** A ticket the engine has ended keeps the status it ended with, as long as the engine knows the ticket. */
  ghost predicate AbsorbingOk(g: Session, x: TickInput) {
    forall id <- g.engine :: g.EngineEnded(id) ==>
      && (id in x.engine.status ==> x.engine.status[id] == g.engine[id])
      && (id in x.engine.statusAfter ==> x.engine.statusAfter[id] == g.engine[id])
  }

  /** The id generator returns non-empty ids it has not returned before. */
  ghost predicate IDsOk(g: Session, x: TickInput) {
    && NoDuplicates(NewIDs(x.engine))
    && forall m <- NewIDs(x.engine) :: m != "" && m !in g.used
  }

  ghost predicate TickContract(g: Session, x: TickInput) {
    && RostersOk(g, x) && PendingOk(x) && AcceptanceOk(g, x) && CallsOk(g, x)
    && FailedProposalsOk(g, x) && AbsorbingOk(g, x) && IDsOk(g, x)
  }

  /** Ticket ids match [a-zA-Z0-9-.]+, as the handlers and the id generator make sure; here: they contain no "|". */
  ghost predicate Contract(g: Session, cmd: Command) {
    match cmd
    case Start(x) => PlainID(x.ticketID) && PlainID(x.generatedID)
    case Backfill(x) => PlainID(x.start.ticketID) && PlainID(x.start.generatedID)
    case DoTick(x) => x.refused || x.engine.fails || TickContract(g, x)
    case _ => true
  }

  // ----- what the engine has reported after a command

  function MatchedIDs(e: EngineTick): set<TicketID> {
    set m <- e.matches, id <- m.ticketIDs :: id
  }

  /** The tickets the engine was asked about at the end of the tick. */
  function AskedIDs(g: Session, x: TickInput): set<TicketID> {
    set id <- g.world.svc.tickets | g.world.svc.tickets[id].config == x.config && id in x.engine.statusAfter
  }

  /** After a tick the engine's tickets have the statuses it answered with, and the matched ones are COMPLETED. */
  ghost function EngineAfterTick(g: Session, x: TickInput): map<TicketID, TicketStatus> {
    g.engine
    + map id | id in AskedIDs(g, x) + MatchedIDs(x.engine)
        :: if id in MatchedIDs(x.engine) then Completed else x.engine.statusAfter[id]
  }

  predicate NewlyEnded(g: Session, s: Service, id: TicketID) {
    id in s.tickets && id in g.world.svc.tickets && s.tickets[id].Terminal() && !g.world.svc.tickets[id].Terminal()
  }

  /** A new ticket is QUEUED; a ticket the command ended was cancelled in the engine first. */
  ghost function EngineAfterCommand(g: Session, s: Service): map<TicketID, TicketStatus> {
    g.engine
    + map id | id in s.tickets && (id !in g.world.svc.tickets || NewlyEnded(g, s, id))
        :: if id in g.world.svc.tickets then Cancelled else Queued
  }

  ghost function Advance(g: Session, cmd: Command): Session {
    var w := Exec(g.world, cmd);
    match cmd
    case DoTick(x) =>
      if x.refused || x.engine.fails then g.(world := w)
      else Session(w, g.acceptance, EngineAfterTick(g, x), g.pending[x.config := x.engine.pending],
                   g.used + set m <- NewIDs(x.engine))
    case Stop(_) => g.(world := w)
    case _ => g.(world := w, engine := EngineAfterCommand(g, w.svc))
  }

  /** A run in which the engine keeps the contract: the sessions it goes through, and the commands between them. */
  ghost predicate IsContractRun(sessions: seq<Session>, cmds: seq<Command>) {
    |sessions| == |cmds| + 1 && forall i | 0 <= i < |cmds| :: Advances(sessions, cmds, i)
  }

  ghost predicate Advances(sessions: seq<Session>, cmds: seq<Command>, i: int) {
    && 0 <= i < |cmds| && i + 1 < |sessions|
    && Legal(sessions[i].world, cmds[i]) && Contract(sessions[i], cmds[i])
    && sessions[i + 1] == Advance(sessions[i], cmds[i])
  }

  ghost function NewSession(ticketRetention: Time, acceptance: set<ConfigurationName>): Session {
    Session(NewWorld(ticketRetention), acceptance, map[], map[], {})
  }
}
