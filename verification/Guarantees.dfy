/** The main results about runs in which the engine keeps its contract. */
module Guarantees {
  import opened Wrappers
  import opened Domain
  import opened RosterKey
  import opened ProposalTracking
  import opened ServiceState
  import opened Tick
  import opened Commands
  import opened Runs
  import opened AnyEngine
  import opened AnyRun
  import opened Traces
  import opened EngineContract
  import opened Protocol
  import opened ProtocolSettle
  import opened ProtocolFinalize
  import opened ProtocolTick
  import opened ProtocolCommands
  import opened ProtocolRun
  import opened ProtocolOrder
  import opened ProtocolAlike
  import opened ProtocolSilence

  // ----- every contract run

  lemma AdvanceInv(g: Session, cmd: Command)
    requires Inv(g) && Sound(g.world) && Legal(g.world, cmd) && Contract(g, cmd)
    ensures Inv(Advance(g, cmd)) && Sound(Advance(g, cmd).world)
  {
    ExecSound(g.world, cmd);
    assert Advance(g, cmd).world == Exec(g.world, cmd);
    hide Advance, Inv, Sound, Kept, TickContract, Exec;
    match cmd
    case Start(x) => StartInv(g, x);
    case Backfill(x) => BackfillInv(g, x);
    case Accept(x) => AcceptInv(g, x);
    case Stop(x) => StopInv(g, x);
    case DoTick(x) => TickInv(g, x);
  }

  /** Every command and tick of a contract run keeps the invariant. */
  lemma {:induction false} RunInv(sessions: seq<Session>, cmds: seq<Command>, n: nat)
    requires IsContractRun(sessions, cmds) && n < |sessions| && Inv(sessions[0]) && Sound(sessions[0].world)
    ensures Inv(sessions[n]) && Sound(sessions[n].world)
  {
    hide Inv, Sound, Advance, Legal, Contract;
    if n > 0 {
      RunInv(sessions, cmds, n - 1);
      assert Advances(sessions, cmds, n - 1);
      AdvanceInv(sessions[n - 1], cmds[n - 1]);
    }
  }

  lemma NewSessionInv(ticketRetention: Time, acceptance: set<ConfigurationName>)
    ensures var g := NewSession(ticketRetention, acceptance); Inv(g) && Sound(g.world)
  {
    NewWorldSound(ticketRetention);
    var g := NewSession(ticketRetention, acceptance);
    var w := Work(g.world.svc, [], false);
    forall m ensures MatchRel(g, w, {}, m) {
      assert AboutMatch([], m) == [] && MatchTrace(g, w, m) == [];
    }
    forall c ensures w.svc.TrackerOf(c).Coherent() && w.svc.TrackerOf(c).byMatch == map[] && Mirrors(w.svc, c, []) {
      assert w.svc.TrackerOf(c) == EmptyTracker;
    }
  }

  /** The sessions reached from an empty service by commands the engine answers as contracted. */
  ghost predicate Reached(g: Session) {
    exists sessions: seq<Session>, cmds: seq<Command> :: ReachedBy(sessions, cmds, g)
  }

  ghost predicate ReachedBy(sessions: seq<Session>, cmds: seq<Command>, g: Session) {
    && IsContractRun(sessions, cmds) && sessions[|cmds|] == g
    && sessions[0] == NewSession(sessions[0].world.svc.ticketRetention, sessions[0].acceptance)
  }

  lemma ReachedInv(g: Session)
    requires Reached(g)
    ensures Inv(g) && Sound(g.world)
  {
    var sessions: seq<Session>, cmds: seq<Command> :| ReachedBy(sessions, cmds, g);
    hide Inv, Sound, IsContractRun;
    NewSessionInv(sessions[0].world.svc.ticketRetention, sessions[0].acceptance);
    RunInv(sessions, cmds, |cmds|);
  }

  // ----- tickets

  /** The events that name a ticket since it was registered. */
  function TicketEvents(g: Session, id: TicketID): seq<Event> {
    Named(g.world.Since(id), id)
  }

  lemma ReachedTicket(g: Session, id: TicketID)
    requires Reached(g) && id in g.world.svc.tickets
    ensures TicketRel(g, Work(g.world.svc, [], false), id)
    ensures Walk(Unborn, TicketEvents(g, id)) == StatusPhase(g.world.svc.tickets[id])
  {
    ReachedInv(g);
    hide Reached, Sound, Mirrors, EngineKnows, RosterRel, OpenRel, MatchRel, Walk;
    assert TicketRel(g, Work(g.world.svc, [], false), id);
    NamedNothing(id);
    hide Named;
    assert Trace(g, Work(g.world.svc, [], false), id) == TicketEvents(g, id);
  }

  /**
   The events that name a ticket follow its life and lead to where its status says it stands. So a Cancelled, TimedOut
   or Succeeded is the last of them, and two Searching have a PotentialMatchCreated between them.
   */
  lemma EventGrammar(g: Session, id: TicketID)
    requires Reached(g) && id in g.world.svc.tickets
    ensures var events, t := TicketEvents(g, id), g.world.svc.tickets[id];
            && Walk(Unborn, events) == StatusPhase(t) && Walk(Unborn, events) != Wrong
            && (forall i | 0 <= i < |events| :: IsEnding(events[i]) ==> i == |events| - 1 && t.status.IsTerminal())
            && (forall i, j | 0 <= i < j < |events| && events[i].SearchingStarted? && events[j].SearchingStarted? ::
                  exists k | i < k < j :: events[k].PotentialMatchCreated?)
  {
    hide Reached, Walk, Trace, TicketEvents;
    ReachedTicket(g, id);
    hide TicketRel;
    LifeMeaning(TicketEvents(g, id));
  }

  lemma LifeMeaning(events: seq<Event>)
    requires Walk(Unborn, events) != Wrong
    ensures forall i | 0 <= i < |events| :: IsEnding(events[i]) ==> i == |events| - 1 && Walk(Unborn, events) == Over
    ensures forall i, j | 0 <= i < j < |events| && events[i].SearchingStarted? && events[j].SearchingStarted? ::
              exists k | i < k < j :: events[k].PotentialMatchCreated?
  {
    hide Walk;
    forall i | 0 <= i < |events| && IsEnding(events[i])
      ensures i == |events| - 1 && Walk(Unborn, events) == Over {
      EndingIsLast(events, i);
      assert events == events[..i] + [events[i]];
      WalkOne(Unborn, events[..i], events[i]);
    }
    forall i, j | 0 <= i < j < |events| && events[i].SearchingStarted? && events[j].SearchingStarted?
      ensures exists k | i < k < j :: events[k].PotentialMatchCreated? {
      SearchingNeedsMatch(events, i, j);
    }
  }

  /** A ticket in the pool carries no match, no decisions, and only the seats its request asked for. */
  lemma PooledClean(g: Session, id: TicketID)
    requires Reached(g) && id in g.world.svc.tickets && Pooled(g.world.svc.tickets[id].status)
    ensures var t := g.world.svc.tickets[id];
            && t.matchID == "" && t.playerAcceptances == map[]
            && t.playerTeams == if t.isBackfill then SeatedTeams(t.players) else map[]
  {
    ReachedTicket(g, id);
    hide Reached, Walk, TicketEvents, SeatedTeams;
  }

  // ----- matches

  /** All events about one match, over the whole run. */
  function MatchEvents(g: Session, m: MatchID): seq<Event> {
    AboutMatch(g.world.log, m)
  }

  /**
   The events about a match follow its life and all have its roster: one PotentialMatchCreated, and it comes first; at
   most one AcceptMatchCompleted, directly followed by the success if its outcome is Accepted; at most one
   MatchmakingSucceeded, and it comes last. `MatchStep` says which other outcome fits the decisions reported before.
   */
  lemma MatchProtocol(g: Session, m: MatchID)
    requires Reached(g)
    ensures var events := MatchEvents(g, m);
            && !MatchWalk(Unused, events).Broken?
            && (forall i | 0 <= i < |events| :: events[i].PotentialMatchCreated? <==> i == 0)
            && (forall i | 0 <= i < |events| :: OfRoster(events[i], events[0].ticketIDs))
            && CountCompleted(events) <= 1
            && (forall i | 0 <= i < |events| - 1 :: !events[i].MatchmakingSucceeded?)
            && (forall i | 0 <= i < |events| :: AcceptsAll(events[i]) ==> i + 1 < |events| && events[i + 1].MatchmakingSucceeded?)
  {
    var w := Work(g.world.svc, [], false);
    ReachedInv(g);
    hide Reached, Sound, Mirrors, EngineKnows, TicketRel, RosterRel, OpenRel;
    assert MatchRel(g, w, g.used, m);
    NothingAbout("", m);
    hide Mid, AboutMatch;
    assert MatchTrace(g, w, m) == MatchEvents(g, m);
    MatchMeaning(MatchEvents(g, m));
    AcceptedThenSucceeded(MatchEvents(g, m));
  }

  /**
   All that a tick generates about a proposal that fails in it: an AcceptMatchCompleted exactly unless the client stopped
   a ticket of its roster; the outcome is Rejected if some ticket of the roster records a refusal, and TimedOut otherwise.
   */
  lemma FailureAnnounced(g: Session, x: TickInput, m: MatchID)
    requires Contracted(g, x) && !x.refused && !x.engine.fails && Failing(x, g.world.svc, m)
    ensures var s, ids := g.world.svc, Roster(g.world.svc, x.config, m);
            var refused := exists id <- ids, p ::
                             id in s.tickets && p in s.tickets[id].playerAcceptances && !s.tickets[id].playerAcceptances[p];
            AboutMatch(RunTick(x, s).batch, m)
            == if exists id <- ids :: id in s.tickets && s.tickets[id].cancelByAPI then []
               else [AcceptMatchCompleted(m, ids, if refused then Rejected else Lapsed)]
  {
    var s := g.world.svc;
    hide Contracted, Settle, AboutMatch, RunTick, Key, StillPending, Matched, Spent;
    SettledSpent(g, x, m);
    hide Failing;
    TickSilent(g, x, m);
    RefusedMeans(s, s, Roster(s, x.config, m));
  }

  /** A match that was handed out and is not tracked any more is never spoken of again, whatever follows in the run. */
  lemma {:induction false} OverForGood(sessions: seq<Session>, cmds: seq<Command>, m: MatchID, i: nat, j: nat)
    requires IsContractRun(sessions, cmds) && Inv(sessions[0]) && Sound(sessions[0].world)
    requires i <= j < |sessions| && Spent(sessions[i].world.svc, sessions[i].used, m)
    ensures MatchEvents(sessions[j], m) == MatchEvents(sessions[i], m)
    ensures Spent(sessions[j].world.svc, sessions[j].used, m)
  {
    hide Inv, Sound, Legal, Contract, Spent, AboutMatch;
    if i < j {
      OverForGood(sessions, cmds, m, i, j - 1);
      RunInv(sessions, cmds, j - 1);
      assert Advances(sessions, cmds, j - 1);
      hide IsContractRun;
      QuietStep(sessions[j - 1], cmds[j - 1], m);
      StepEvents(sessions[j - 1], cmds[j - 1], m);
    }
  }

  lemma StepEvents(g: Session, cmd: Command, m: MatchID)
    ensures MatchEvents(Advance(g, cmd), m) == MatchEvents(g, m) + AboutMatch(Effect(g.world.svc, cmd).1, m)
  {
    hide Effect, AboutMatch, EngineAfterTick, EngineAfterCommand, NewIDs;
    assert Advance(g, cmd).world == Exec(g.world, cmd);
    AboutAppend(g.world.log, Effect(g.world.svc, cmd).1, m);
  }

  /**
   After the tick in which a proposal fails, no event of the run is about its match but the closing one of that tick:
   where that is left out because the client stopped a ticket, nothing is said about the match ever again.
   */
  lemma SettledForGood(sessions: seq<Session>, cmds: seq<Command>, x: TickInput, m: MatchID, n: nat)
    requires IsContractRun(sessions, cmds) && Reached(sessions[0]) && 0 < n < |sessions|
    requires cmds[0] == DoTick(x) && !x.refused && !x.engine.fails && Failing(x, sessions[0].world.svc, m)
    ensures MatchEvents(sessions[n], m) == MatchEvents(sessions[0], m) + Closing(x, sessions[0].world.svc, m)
  {
    var g := sessions[0];
    hide Reached, Inv, Sound, Spent, Failing, Closing, TickContract, RunTick, Settle, AboutMatch;
    ReachedInv(g);
    assert Advances(sessions, cmds, 0);
    assert Contracted(g, x);
    SettledSpent(g, x, m);
    TickSilent(g, x, m);
    hide Contracted, Advance;
    StepEvents(g, DoTick(x), m);
    OverForGood(sessions, cmds, m, 1, n);
  }

  lemma RefusedMeans(s: Service, r: Service, ids: seq<TicketID>)
    requires r.tickets == s.tickets
    ensures SomeRejection(r, ids) <==> exists id <- ids, p ::
              id in s.tickets && p in s.tickets[id].playerAcceptances && !s.tickets[id].playerAcceptances[p]
  {
    if SomeRejection(r, ids) {
      var id :| id in ids && id in r.tickets && Rejects(r.tickets[id]);
      var p :| p in r.tickets[id].playerAcceptances && !r.tickets[id].playerAcceptances[p];
      assert id in s.tickets && p in s.tickets[id].playerAcceptances;
    }
    if id, p :| id in ids && id in s.tickets && p in s.tickets[id].playerAcceptances && !s.tickets[id].playerAcceptances[p] {
      assert Rejects(r.tickets[id]);
    }
  }

  /**
   A successful AcceptMatch generates one event, about the tracked roster of the ticket's match. It reports a decision of
   every player of whom a ticket of that roster records one, and of nobody else: the one the last such ticket records.
   So where no two tickets of the roster share a player it carries exactly the decisions recorded on them; and the
   decisions the request has just made are recorded on its ticket.
   */
  lemma DecisionsReported(g: Session, x: AcceptInput)
    requires Reached(g) && AcceptMatch(x, g.world.svc).outcome.Pass?
    ensures x.ticketID in g.world.svc.tickets
    ensures var r, t := AcceptMatch(x, g.world.svc), g.world.svc.tickets[x.ticketID];
            && Tracked(r.svc, t.config, t.matchID)
            && var ids := Roster(r.svc, t.config, t.matchID);
               && x.ticketID in ids && x.ticketID in r.svc.tickets
               && r.batch == [AcceptanceRecorded(t.matchID, ids, MergedAcceptances(r.svc, ids))]
               && (forall id <- ids, p :: Records(r.svc, id, p) ==> p in MergedAcceptances(r.svc, ids))
               && (forall p <- MergedAcceptances(r.svc, ids) :: exists i :: Decides(r.svc, ids, i, p))
               && (PlayersApart(r.svc, ids) ==> forall id <- ids, p :: Records(r.svc, id, p) ==> Reported(r.svc, ids, id, p))
               && (forall p <- x.playerIDs ::
                     && p in r.svc.tickets[x.ticketID].playerAcceptances
                     && r.svc.tickets[x.ticketID].playerAcceptances[p] == x.accepted)
  {
    var s, r := g.world.svc, AcceptMatch(x, g.world.svc);
    var v := Work(r.svc, r.batch, false);
    hide AcceptMatch, Reached, Inv, Dedupe, MergedAcceptances, OneBackfillPerSession, TicketSound, Fit, PlayersApart;
    ReachedInv(g);
    AcceptRecorded(g, x);
    AcceptMid(g, x);
    hide Sound, Decides, Reported;
    var t := s.tickets[x.ticketID];
    assert r.svc.TrackerOf(t.config) == s.TrackerOf(t.config);
    RosterReported(g, v, g.used, t.config, t.matchID);
  }

  lemma RosterReported(g: Session, w: Work, used: set<MatchID>, c: ConfigurationName, m: MatchID)
    requires Mid(g, w, used) && Tracked(w.svc, c, m)
    ensures var ids := Roster(w.svc, c, m);
            && (forall id <- ids, p :: Records(w.svc, id, p) ==> p in MergedAcceptances(w.svc, ids))
            && (forall p <- MergedAcceptances(w.svc, ids) :: exists i :: Decides(w.svc, ids, i, p))
            && (PlayersApart(w.svc, ids) ==> forall id <- ids, p :: Records(w.svc, id, p) ==> Reported(w.svc, ids, id, p))
  {
    var ids := Roster(w.svc, c, m);
    hide MergedAcceptances, Walk, Trace, OpenRel, MatchRel, PlayersApart;
    assert RosterRel(w.svc, c, m);
    forall id <- ids
      ensures id in w.svc.tickets && w.svc.tickets[id].playerAcceptances.Keys <= PlayerIDs(w.svc.tickets[id].players) {
      assert InRoster(w.svc, c, m, id) && TicketRel(g, w, id);
    }
    hide Mid, Reported, Decides;
    MergedSource(w.svc, ids);
    if PlayersApart(w.svc, ids) { MergedHasAll(w.svc, ids); }
  }

  /**
   What the events of a tracked match have reported last are the decisions merged from its tickets. They include a refusal
   exactly if some ticket of the roster records one of a player of whom no later ticket records a decision. Then a failure
   will be Rejected; conversely a failure that will be Rejected has a reported refusal unless two tickets share a player.
   */
  lemma RefusalsReported(g: Session, c: ConfigurationName, m: MatchID)
    requires Reached(g) && Tracked(g.world.svc, c, m)
    ensures var s, ids := g.world.svc, Roster(g.world.svc, c, m);
            && MatchWalk(Unused, MatchEvents(g, m)) == Open(ids, MergedAcceptances(s, ids))
            && (SomeRefusal(MergedAcceptances(s, ids)) <==> exists i, p :: LastRefuses(s, ids, i, p))
            && (SomeRefusal(MergedAcceptances(s, ids)) ==> SomeRejection(s, ids))
            && (PlayersApart(s, ids) ==> (SomeRefusal(MergedAcceptances(s, ids)) <==> SomeRejection(s, ids)))
  {
    var w := Work(g.world.svc, [], false);
    ReachedInv(g);
    hide Reached, Sound, Mirrors, EngineKnows, MergedAcceptances, SomeRefusal, SomeRejection, PlayersApart;
    RefusalSurvives(g.world.svc, Roster(g.world.svc, c, m));
    OpenDecisions(g, w, g.used, c, m);
    OpenMatch(g, w, g.used, c, m);
    NothingAbout("", m);
    hide Mid, AboutMatch, MatchWalk;
    assert MatchTrace(g, w, m) == MatchEvents(g, m);
  }

  /** Two tickets of a roster that share a player: a refusal recorded on the first is not among the decisions reported. */
  lemma SharedPlayerHidesRefusal(s: Service, a: TicketID, b: TicketID, p: PlayerID)
    requires a in s.tickets && b in s.tickets
    requires s.tickets[a].playerAcceptances == map[p := false] && s.tickets[b].playerAcceptances == map[p := true]
    ensures SomeRejection(s, [a, b]) && !SomeRefusal(MergedAcceptances(s, [a, b]))
  {
    assert p in s.tickets[a].playerAcceptances && Rejects(s.tickets[a]) && a in [a, b];
    assert [a, b][..1] == [a] && [a][..0] == [];
    assert MergedAcceptances(s, [a]) == map[] + map[p := false];
    assert MergedAcceptances(s, [a, b]) == map[p := false] + map[p := true];
  }

  // ----- the tracker

  /**
   A contracted tick reports no error. After it the tracked (roster, creation time) pairs of the configuration are
   exactly those of the engine's pending proposals, and the indices of the tracker are inverse to each other.
   */
  lemma TrackerMirrorsEngine(g: Session, x: TickInput)
    requires Reached(g) && Legal(g.world, DoTick(x)) && !x.refused && !x.engine.fails && TickContract(g, x)
    ensures !RunTick(x, g.world.svc).failed
    ensures var s := Exec(g.world, DoTick(x)).svc;
            && s.TrackerOf(x.config).Coherent()
            && (forall p <- x.engine.pending :: exists m :: Tracked(s, x.config, m) && SameProposal(s, x.config, m, p))
            && (forall m :: Tracked(s, x.config, m) ==> exists p <- x.engine.pending :: SameProposal(s, x.config, m, p))
  {
    hide Reached, Sound, TickContract, Legal, Mid, EngineKnows, RunTick, SameProposal;
    ReachedInv(g);
    TickInv(g, x);
    var g2 := Advance(g, DoTick(x));
    assert g2.Pending(x.config) == x.engine.pending;
    assert Mirrors(g2.world.svc, x.config, g2.Pending(x.config));
    CoherentMid(g2);
  }

  lemma CoherentMid(g: Session)
    requires Mid(g, Work(g.world.svc, [], false), g.used)
    ensures forall c :: g.world.svc.TrackerOf(c).Coherent()
  {
  }

  /** A ticket requires acceptance exactly when it is in a tracked roster of its configuration, that of its match id. */
  lemma RequiresAcceptanceTracked(g: Session, id: TicketID)
    requires Reached(g) && id in g.world.svc.tickets
    ensures var s, t := g.world.svc, g.world.svc.tickets[id];
            && (t.status.RequiresAcceptance? <==> Tracked(s, t.config, t.matchID) && id in Roster(s, t.config, t.matchID))
            && (forall c, m :: Tracked(s, c, m) && id in Roster(s, c, m) ==> c == t.config && m == t.matchID)
  {
    var s, t := g.world.svc, g.world.svc.tickets[id];
    ReachedTicket(g, id);
    ReachedInv(g);
    hide Reached, Sound, Mirrors, EngineKnows, TicketEvents, Walk, Trace, OpenRel, MatchRel;
    forall c, m | Tracked(s, c, m) && id in Roster(s, c, m)
      ensures c == t.config && m == t.matchID && t.status.RequiresAcceptance? {
      assert RosterRel(s, c, m) && InRoster(s, c, m, id);
    }
  }

  // ----- the order of a Go map

  /** The order in which the first pass of a contracted tick visits the tracked proposals makes no difference. */
  lemma SettlementOrderIrrelevant(g: Session, x: TickInput, other: seq<MatchID>)
    requires Contracted(g, x) && ValidOrder(x.(order := other), g.world.svc)
    ensures var u, v := Settle(x, Begun(g, x), x.order), Settle(x, Begun(g, x), other);
            && SameStore(u.svc, v.svc)
            && (forall id <- g.world.svc.tickets :: Named(u.batch, id) == Named(v.batch, id))
            && (forall m :: AboutMatch(u.batch, m) == AboutMatch(v.batch, m))
  {
    var proposals := g.world.svc.TrackerOf(x.config).Proposals();
    ListingDistinct(x.order, proposals);
    ListingDistinct(other, proposals);
    BegunMid(g, x);
    BegunFailed(g, x);
    hide Contracted, TickMid, FailedStatuses, Settle, SameStore, Named, AboutMatch;
    OrderIrrelevant(g, x, Begun(g, x), g.used, x.order, other);
  }

  /** Nor does it make a difference to the whole tick: the same store, and the same events per ticket and per match. */
  lemma TickOrderIrrelevant(g: Session, x: TickInput, other: seq<MatchID>)
    requires Contracted(g, x) && ValidOrder(x.(order := other), g.world.svc)
    ensures var u, v := RunTick(x, g.world.svc), RunTick(x.(order := other), g.world.svc);
            && u.failed == v.failed && SameStore(u.svc, v.svc)
            && (forall id <- g.world.svc.tickets :: Named(u.batch, id) == Named(v.batch, id))
            && (forall m :: AboutMatch(u.batch, m) == AboutMatch(v.batch, m))
  {
    hide Contracted, Settle, SameStore, Named, AboutMatch, RunTick, ValidOrder;
    SettlementOrderIrrelevant(g, x, other);
    SettleUnfailed(g, x, x.order);
    SettleUnfailed(g, x, other);
    RunTickAlike(x, x.(order := other), g.world.svc, g.world.svc.tickets.Keys);
  }

  lemma SettleUnfailed(g: Session, x: TickInput, order: seq<MatchID>)
    requires Contracted(g, x)
    ensures !Settle(x, Begun(g, x), order).failed
  {
    hide FailedStatuses, Settle, TickMid, TickContract, Mid, Mirrors;
    BegunMid(g, x);
    BegunFailed(g, x);
    hide Contracted;
    SettleMid(g, x, Begun(g, x), g.used, order);
    NotFailed(g, x, Settle(x, Begun(g, x), order), g.used);
  }
}
