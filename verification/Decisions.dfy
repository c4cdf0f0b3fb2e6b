/**
 The decisions a ticket carries over a contract run: those of the last successful AcceptMatch that named the player on
 this ticket since the ticket came to its present match.
 */
module Decisions {
  import opened Wrappers
  import opened Domain
  import opened RosterKey
  import opened ProposalTracking
  import opened ServiceState
  import opened Tick
  import opened Commands
  import opened Runs
  import opened AnyEngine
  import opened AnyRun
  import opened Traces
  import opened EngineContract
  import opened Protocol
  import opened ProtocolSettle
  import opened ProtocolFinalize
  import opened ProtocolTick
  import opened ProtocolCommands
  import opened ProtocolRun
  import opened ProtocolStreams
  import opened Outcomes
  import opened AnyTick
  import opened TicketMoves
  import opened PassEffects
  import opened TickEffects
  import opened Guarantees

  /** The same match with the same decisions, or another match, or none, without any. */
  predicate DecisionsKept(t: TicketState, u: TicketState) {
    if u.matchID == t.matchID then u.playerAcceptances == t.playerAcceptances else u.playerAcceptances == map[]
  }

  // ----- a tick

  /** A ticket of another configuration is not touched by the passes of a tick. */
  lemma TickSparesOthers(g: Session, x: TickInput, id: TicketID)
    requires Contracted(g, x) && !x.refused && !x.engine.fails && id in g.world.svc.tickets
    requires g.world.svc.tickets[id].config != x.config
    ensures id in RunTick(x, g.world.svc).svc.tickets ==> RunTick(x, g.world.svc).svc.tickets[id] == g.world.svc.tickets[id]
  {
    hide Contracted, Passes, RunTick, Service.Evict;
    PassesSpare(g, x, id);
    TickIsPasses(g, x);
    if id in RunTick(x, g.world.svc).svc.tickets { EvictKeeps(Passes(x, g.world.svc).svc, x.config, x.now, id); }
  }

  lemma TickKeepsOver(g: Session, x: TickInput, id: TicketID)
    requires Contracted(g, x) && !x.refused && !x.engine.fails
    requires id in g.world.svc.tickets && g.world.svc.tickets[id].config == x.config && g.world.svc.tickets[id].Terminal()
    ensures id in RunTick(x, g.world.svc).svc.tickets ==> RunTick(x, g.world.svc).svc.tickets[id] == g.world.svc.tickets[id]
  {
    hide Contracted, Passes, RunTick, Service.Evict;
    TickOver(g, x, id);
    TickIsPasses(g, x);
    if id in RunTick(x, g.world.svc).svc.tickets { EvictKeeps(Passes(x, g.world.svc).svc, x.config, x.now, id); }
  }

  /** What the invariant says about an active ticket's match and decisions. */
  lemma MatchOfTicket(g: Session, x: TickInput, id: TicketID)
    requires Contracted(g, x) && id in g.world.svc.tickets && g.world.svc.tickets[id].config == x.config
    ensures var t := g.world.svc.tickets[id];
            && (Pooled(t.status) ==> t.matchID == "" && t.playerAcceptances == map[])
            && (t.status.RequiresAcceptance? ==> t.matchID != "" && t.matchID in g.used)
  {
    var w, t := Work(g.world.svc, [], false), g.world.svc.tickets[id];
    ContractedInv(g, x);
    hide Contracted, Sound, Mirrors, EngineKnows, Walk, Trace, MatchRel;
    assert TicketRel(g, w, id);
    if t.status.RequiresAcceptance? {
      MidRoster(g, w, g.used, x.config, t.matchID);
      OpenMatch(g, w, g.used, x.config, t.matchID);
    }
  }

  lemma MatchedKeeps(g: Session, x: TickInput, mt: Match, id: TicketID)
    requires Contracted(g, x) && !x.refused && !x.engine.fails && mt in x.engine.matches && id in mt.ticketIDs
    ensures id in g.world.svc.tickets && id in RunTick(x, g.world.svc).svc.tickets
    ensures DecisionsKept(g.world.svc.tickets[id], RunTick(x, g.world.svc).svc.tickets[id])
  {
    hide Contracted, RunTick, Named, SuccessOf;
    TickMatched(g, x, mt, id);
    MatchedHere(g, x, mt, id);
    MatchOfTicket(g, x, id);
    if !x.acceptanceRequired { DirectPooled(g, x, mt, id); MatchRosterGood(g, x, mt); }
    hide Seats;
  }

  lemma DirectPooled(g: Session, x: TickInput, mt: Match, id: TicketID)
    requires Contracted(g, x) && mt in x.engine.matches && id in mt.ticketIDs && !x.acceptanceRequired
    ensures id in g.world.svc.tickets && Pooled(g.world.svc.tickets[id].status)
  {
    hide Contracted, Settle, Settled;
    MatchRosterGood(g, x, mt);
    AfterSettle(g, x);
    DirectTicket(g, x, Settle(x, Begun(g, x), x.order), mt.ticketIDs, id);
    SettledUnchanged(g, x);
  }

  lemma SettledUnchanged(g: Session, x: TickInput)
    requires Contracted(g, x) && !x.acceptanceRequired
    ensures Settle(x, Begun(g, x), x.order).svc.tickets == g.world.svc.tickets
  {
    AfterSettle(g, x);
    hide Contracted, Settle, TickMid, Failing;
  }

  lemma UnmatchedKeeps(g: Session, x: TickInput, id: TicketID)
    requires Unmatched(g, x, id)
    ensures id in g.world.svc.tickets && id in RunTick(x, g.world.svc).svc.tickets
    ensures DecisionsKept(g.world.svc.tickets[id], RunTick(x, g.world.svc).svc.tickets[id])
  {
    hide Unmatched, Contracted, RunTick, Named, Verdict, Continues, EndEvent;
    UnmatchedID(g, x, id);
    UnmatchedFacts(g, x, id);
    TickUnmatched(g, x, id);
    hide Seats, MetricsOf;
  }

  lemma UnmatchedFacts(g: Session, x: TickInput, id: TicketID)
    requires Unmatched(g, x, id)
    ensures id in g.world.svc.tickets
    ensures var t := g.world.svc.tickets[id];
            && (t.status.RequiresAcceptance? || Pooled(t.status))
            && (Pooled(t.status) ==> t.matchID == "" && t.playerAcceptances == map[])
            && (t.status.RequiresAcceptance? ==> t.matchID != "" && t.matchID in g.used)
    ensures forall p <- x.engine.pending :: p.newID != "" && p.newID !in g.used
  {
    hide Contracted, InMatches, FailsNow, Continues;
    MatchOfTicket(g, x, id);
    FailsUnless(g, x, id);
    forall p <- x.engine.pending ensures p.newID != "" && p.newID !in g.used { ProposalGood(g, x, p); }
  }

  /** A contracted tick keeps a ticket's decisions with its match, and a ticket that leaves its match has none. */
  lemma TickDecisions(g: Session, x: TickInput, id: TicketID)
    requires Contracted(g, x) && !x.refused && !x.engine.fails
    requires id in g.world.svc.tickets && id in RunTick(x, g.world.svc).svc.tickets
    ensures DecisionsKept(g.world.svc.tickets[id], RunTick(x, g.world.svc).svc.tickets[id])
  {
    var t := g.world.svc.tickets[id];
    hide Contracted, RunTick;
    if t.config != x.config {
      TickSparesOthers(g, x, id);
    } else if t.Terminal() {
      TickKeepsOver(g, x, id);
    } else if mt :| mt in x.engine.matches && id in mt.ticketIDs {
      MatchedKeeps(g, x, mt, id);
    } else {
      assert Unmatched(g, x, id);
      UnmatchedKeeps(g, x, id);
    }
  }

  // ----- one command

  ghost predicate RecordsOn(g: Session, cmd: Command, id: TicketID) {
    cmd.Accept? && cmd.accept.ticketID == id && AcceptMatch(cmd.accept, g.world.svc).outcome.Pass?
  }

  /** A successful AcceptMatch on the ticket updates its decisions; every other command keeps them with the match. */
  lemma DecisionStep(g: Session, cmd: Command, id: TicketID)
    requires Inv(g) && Sound(g.world) && Legal(g.world, cmd) && Contract(g, cmd)
    requires id in g.world.svc.tickets && id in Effect(g.world.svc, cmd).0.tickets
    ensures var t, u := g.world.svc.tickets[id], Effect(g.world.svc, cmd).0.tickets[id];
            if RecordsOn(g, cmd, id) then
              && t.status.RequiresAcceptance? && u.matchID == t.matchID
              && Updated(t.playerAcceptances, u.playerAcceptances, cmd.accept.playerIDs, cmd.accept.accepted)
            else DecisionsKept(t, u)
  {
    hide Sound, Inv, StartMatchmaking, StartMatchBackfill, AcceptMatch, StopMatchmaking, RunTick, Fit, TickContract, Updated,
         DecisionsKept;
    SoundFits(g.world);
    match cmd
    case Start(x) => StartDecisions(x, g.world.svc, id);
    case Backfill(x) => BackfillDecisions(g, x, id);
    case Accept(x) => AcceptDecisions(x, g.world.svc, id);
    case Stop(x) => StopDecisions(x, g.world.svc, id);
    case DoTick(x) =>
      if x.refused || x.engine.fails {
        RefusedTick(x, g.world.svc);
        SameDecisions(g.world.svc.tickets[id]);
      } else {
        assert Contracted(g, x);
        hide Contracted;
        TickDecisions(g, x, id);
      }
  }

  lemma SameDecisions(t: TicketState)
    ensures DecisionsKept(t, t)
  {
  }

  lemma StartDecisions(x: StartInput, s: Service, id: TicketID)
    requires id in s.tickets && id in StartMatchmaking(x, s).svc.tickets
    ensures DecisionsKept(s.tickets[id], StartMatchmaking(x, s).svc.tickets[id])
  {
    hide StartMatchmaking, DecisionsKept;
    StartEffect(x, s);
    StartOutcome(x, s);
    SameDecisions(s.tickets[id]);
  }

  lemma StopDecisions(x: StopInput, s: Service, id: TicketID)
    requires Fit(s) && id in s.tickets && id in StopMatchmaking(x, s).svc.tickets
    ensures DecisionsKept(s.tickets[id], StopMatchmaking(x, s).svc.tickets[id])
  {
    hide StopMatchmaking, Fit;
    StopEffect(x, s);
  }

  lemma AcceptDecisions(x: AcceptInput, s: Service, id: TicketID)
    requires Fit(s) && id in s.tickets && id in AcceptMatch(x, s).svc.tickets
    ensures var t, u := s.tickets[id], AcceptMatch(x, s).svc.tickets[id];
            if x.ticketID == id && AcceptMatch(x, s).outcome.Pass? then
              && t.status.RequiresAcceptance? && u.matchID == t.matchID
              && Updated(t.playerAcceptances, u.playerAcceptances, x.playerIDs, x.accepted)
            else DecisionsKept(t, u)
  {
    hide AcceptMatch, Fit, Updated, DecisionsKept, CallFails, EnginePending, OwnPlayers, MergedAcceptances;
    AcceptEffect(x, s);
    AcceptOutcome(x, s);
    SameDecisions(s.tickets[id]);
  }

  lemma RefusedTick(x: TickInput, s: Service)
    requires x.refused || x.engine.fails
    ensures RunTick(x, s).svc == s
  {
  }

  lemma BackfillDecisions(g: Session, x: BackfillInput, id: TicketID)
    requires Sound(g.world) && Fit(g.world.svc) && id in g.world.svc.tickets
    requires id in StartMatchBackfill(x, g.world.svc).svc.tickets
    ensures DecisionsKept(g.world.svc.tickets[id], StartMatchBackfill(x, g.world.svc).svc.tickets[id])
  {
    var s := g.world.svc;
    assert OneBackfillPerSession(s) by { hide Fit, TicketSound; }
    hide Sound, StartMatchBackfill, Fit, OneBackfillPerSession, Outstanding;
    BackfillEffect(x, s);
    var r := StartMatchBackfill(x, s);
    if r.outcome.Pass? {
      FreeWhenPassed(g.world, x);
      if prior :| Outstanding(x, s, prior) { SupersededDecisions(x, s, prior); }
    } else if Taken(x, s) {
      var prior :| Outstanding(x, s, prior) && HalfUndone(x, s, r, prior);
      SupersededDecisions(x, s, prior);
    }
  }

  lemma SupersededDecisions(x: BackfillInput, s: Service, prior: TicketID)
    requires Outstanding(x, s, prior)
    ensures prior in s.tickets && DecisionsKept(s.tickets[prior], Superseded(x, s.tickets[prior]))
  {
  }

  // ----- every contract run

  /** The `j`-th command records a decision of the player on the ticket. */
  ghost predicate DecidesAt(sessions: seq<Session>, cmds: seq<Command>, j: int, id: TicketID, p: PlayerID) {
    0 <= j < |cmds| && j < |sessions| && RecordsOn(sessions[j], cmds[j], id) && p in cmds[j].accept.playerIDs
  }

  /** From the `j`-th session to the later `n`-th the ticket has been registered, with one match. */
  ghost predicate SameMatchSince(sessions: seq<Session>, j: int, n: int, id: TicketID) {
    0 <= j < n < |sessions| && forall k | j <= k <= n :: OfMatch(sessions, k, n, id)
  }

  predicate OfMatch(sessions: seq<Session>, k: int, n: int, id: TicketID)
    requires 0 <= k <= n < |sessions|
  {
    && id in sessions[k].world.svc.tickets && id in sessions[n].world.svc.tickets
    && sessions[k].world.svc.tickets[id].matchID == sessions[n].world.svc.tickets[id].matchID
  }

  /** The `j`-th command is the last one to decide for the player in the ticket's present match. */
  ghost predicate LastWord(sessions: seq<Session>, cmds: seq<Command>, j: int, n: int, id: TicketID, p: PlayerID) {
    && DecidesAt(sessions, cmds, j, id, p) && SameMatchSince(sessions, j, n, id)
    && forall i | j < i < n :: !DecidesAt(sessions, cmds, i, id, p)
  }

  lemma LastWordStep(sessions: seq<Session>, cmds: seq<Command>, m: nat, n: nat, id: TicketID, p: PlayerID)
    requires 0 < m < n < |sessions| && n == m + 1 && n <= |cmds|
    requires OfMatch(sessions, m, n, id) && !DecidesAt(sessions, cmds, m, id, p)
    ensures forall j :: LastWord(sessions, cmds, j, n, id, p) <==> LastWord(sessions, cmds, j, m, id, p)
  {
    hide RecordsOn;
    forall j ensures LastWord(sessions, cmds, j, n, id, p) <==> LastWord(sessions, cmds, j, m, id, p) {
      if LastWord(sessions, cmds, j, n, id, p) {
        forall k | j <= k <= m ensures OfMatch(sessions, k, m, id) { assert OfMatch(sessions, k, n, id); }
      }
      if LastWord(sessions, cmds, j, m, id, p) {
        forall k | j <= k <= n ensures OfMatch(sessions, k, n, id) {
          assert k < n ==> OfMatch(sessions, k, m, id);
        }
      }
    }
  }

  /** A ticket that has just been registered carries no decision. */
  lemma NewTicketUndecided(g: Session, cmd: Command, id: TicketID)
    requires Inv(g) && Sound(g.world) && Legal(g.world, cmd) && Contract(g, cmd)
    requires id !in g.world.svc.tickets && id in Effect(g.world.svc, cmd).0.tickets
    ensures Effect(g.world.svc, cmd).0.tickets[id].playerAcceptances == map[]
  {
    hide Sound, Inv, StartMatchmaking, StartMatchBackfill, AcceptMatch, StopMatchmaking, RunTick, Fit, TickContract, Updated;
    SoundFits(g.world);
    match cmd
    case Start(x) => StartEffect(x, g.world.svc);
    case Backfill(x) => BackfillUndecided(g, x, id);
    case Accept(x) => AcceptEffect(x, g.world.svc);
    case Stop(x) => StopEffect(x, g.world.svc); StopOutcome(x, g.world.svc);
    case DoTick(x) => TickKeepsIntent(x, g.world.svc, id);
  }

  lemma BackfillUndecided(g: Session, x: BackfillInput, id: TicketID)
    requires Sound(g.world) && Fit(g.world.svc) && id !in g.world.svc.tickets
    requires id in StartMatchBackfill(x, g.world.svc).svc.tickets
    ensures StartMatchBackfill(x, g.world.svc).svc.tickets[id].playerAcceptances == map[]
  {
    var s := g.world.svc;
    assert OneBackfillPerSession(s) by { hide Fit, TicketSound; }
    hide Sound, StartMatchBackfill, Fit, OneBackfillPerSession, Outstanding, Superseded, SeatedTeams;
    BackfillEffect(x, s);
    var r := StartMatchBackfill(x, s);
    if r.outcome.Pass? {
      if prior :| Outstanding(x, s, prior) { PriorThere(x, s, prior); }
    } else {
      FailedKeys(x, s);
    }
  }

  lemma FailedKeys(x: BackfillInput, s: Service)
    requires Fit(s) && OneBackfillPerSession(s) && StartMatchBackfill(x, s).outcome.Fail?
    ensures StartMatchBackfill(x, s).svc.tickets.Keys == s.tickets.Keys
  {
    hide StartMatchBackfill, Fit, OneBackfillPerSession;
    BackfillEffect(x, s);
    if Taken(x, s) {
      var prior :| Outstanding(x, s, prior) && HalfUndone(x, s, StartMatchBackfill(x, s), prior);
    }
  }

  /**
   In every contract run a ticket carries a decision of a player exactly if some successful AcceptMatch named the player
   on this ticket since the ticket came to its present match, and it is the decision of the last one that did.
   */
  lemma {:induction false} DecisionsMean(sessions: seq<Session>, cmds: seq<Command>, n: nat, id: TicketID, p: PlayerID)
    requires IsContractRun(sessions, cmds) && n < |sessions| && id in sessions[n].world.svc.tickets
    requires sessions[0] == NewSession(sessions[0].world.svc.ticketRetention, sessions[0].acceptance)
    ensures var decisions := sessions[n].world.svc.tickets[id].playerAcceptances;
            && (p in decisions <==> exists j :: LastWord(sessions, cmds, j, n, id, p))
            && (forall j | LastWord(sessions, cmds, j, n, id, p) :: p in decisions && decisions[p] == cmds[j].accept.accepted)
  {
    hide Advance, Legal, Contract, Inv, Sound, RecordsOn, Effect, LastWord;
    if n > 0 {
      NewSessionInv(sessions[0].world.svc.ticketRetention, sessions[0].acceptance);
      RunInv(sessions, cmds, n - 1);
      assert Advances(sessions, cmds, n - 1);
      var g, cmd := sessions[n - 1], cmds[n - 1];
      AdvanceStore(g, cmd);
      if id !in g.world.svc.tickets {
        NewTicketUndecided(g, cmd, id);
        NotYet(sessions, cmds, n - 1, n, id, p);
      } else {
        DecisionsMean(sessions, cmds, n - 1, id, p);
        DecisionStep(g, cmd, id);
        DecisionsMeanStep(sessions, cmds, n - 1, n, id, p);
      }
    }
  }

  lemma AdvanceStore(g: Session, cmd: Command)
    ensures Advance(g, cmd).world.svc == Effect(g.world.svc, cmd).0
  {
    hide Effect;
  }

  lemma MatchAtLast(sessions: seq<Session>, j: int, m: nat, n: nat, id: TicketID)
    requires SameMatchSince(sessions, j, n, id) && n == m + 1
    ensures id in sessions[m].world.svc.tickets && OfMatch(sessions, m, n, id)
  {
    assert OfMatch(sessions, m, n, id);
  }

  lemma NotYet(sessions: seq<Session>, cmds: seq<Command>, m: nat, n: nat, id: TicketID, p: PlayerID)
    requires m < n < |sessions| && n == m + 1
    requires id !in sessions[m].world.svc.tickets || !OfMatch(sessions, m, n, id)
    ensures forall j :: !LastWord(sessions, cmds, j, n, id, p)
  {
    hide DecidesAt, SameMatchSince, OfMatch;
    forall j ensures !LastWord(sessions, cmds, j, n, id, p) {
      if LastWord(sessions, cmds, j, n, id, p) {
        MatchAtLast(sessions, j, m, n, id);
        assert false;
      }
    }
  }

  lemma DecisionsMeanStep(sessions: seq<Session>, cmds: seq<Command>, m: nat, n: nat, id: TicketID, p: PlayerID)
    requires n < |sessions| && n == m + 1 && n <= |cmds|
    requires id in sessions[m].world.svc.tickets && id in sessions[n].world.svc.tickets
    requires var before := sessions[m].world.svc.tickets[id].playerAcceptances;
             && m > 0
             && (p in before <==> exists j :: LastWord(sessions, cmds, j, m, id, p))
             && (forall j | LastWord(sessions, cmds, j, m, id, p) :: p in before && before[p] == cmds[j].accept.accepted)
    requires var t, u := sessions[m].world.svc.tickets[id], sessions[n].world.svc.tickets[id];
             if RecordsOn(sessions[m], cmds[m], id) then
               && u.matchID == t.matchID
               && Updated(t.playerAcceptances, u.playerAcceptances, cmds[m].accept.playerIDs, cmds[m].accept.accepted)
             else DecisionsKept(t, u)
    ensures var decisions := sessions[n].world.svc.tickets[id].playerAcceptances;
            && (p in decisions <==> exists j :: LastWord(sessions, cmds, j, n, id, p))
            && (forall j | LastWord(sessions, cmds, j, n, id, p) :: p in decisions && decisions[p] == cmds[j].accept.accepted)
  {
    hide RecordsOn, LastWord;
    if DecidesAt(sessions, cmds, m, id, p) {
      JustDecided(sessions, cmds, m, n, id, p);
      assert LastWord(sessions, cmds, m, n, id, p);
    } else if OfMatch(sessions, m, n, id) {
      LastWordStep(sessions, cmds, m, n, id, p);
    } else {
      NotYet(sessions, cmds, m, n, id, p);
    }
  }

  lemma JustDecided(sessions: seq<Session>, cmds: seq<Command>, m: nat, n: nat, id: TicketID, p: PlayerID)
    requires n < |sessions| && n == m + 1 && n <= |cmds| && DecidesAt(sessions, cmds, m, id, p) && OfMatch(sessions, m, n, id)
    ensures forall j :: LastWord(sessions, cmds, j, n, id, p) <==> j == m
  {
    hide RecordsOn;
    forall k | m <= k <= n ensures OfMatch(sessions, k, n, id) {
    }
    forall j ensures LastWord(sessions, cmds, j, n, id, p) <==> j == m {
    }
  }
}
