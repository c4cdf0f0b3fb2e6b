/**
 The stream of one configuration. A contracted command or tick of another configuration generates no event that names a
 ticket of this one, so the batches of a configuration's own commands, which share its delivery lane, carry the whole
 life of each of its tickets.
 */
module ProtocolStreams {
  import opened Wrappers
  import opened Domain
  import opened RosterKey
  import opened ProposalTracking
  import opened ServiceState
  import opened Tick
  import opened Commands
  import opened Runs
  import opened AnyEngine
  import opened AnyRun
  import opened Traces
  import opened EngineContract
  import opened Protocol
  import opened ProtocolSettle
  import opened ProtocolFinalize
  import opened ProtocolApply
  import opened ProtocolSync
  import opened ProtocolTick
  import opened ProtocolCommands
  import opened ProtocolRun
  import opened ProtocolOrder

  // ----- a tick leaves the tickets of other configurations alone

  /** The ticket of another configuration is as it was, and no new event names it. */
  predicate Spared(x: TickInput, w: Work, v: Work, id: TicketID) {
    id in w.svc.tickets && w.svc.tickets[id].config != x.config ==> Untouched(w, v, id)
  }

  lemma SparedTwice(x: TickInput, w: Work, u: Work, v: Work, id: TicketID)
    requires Spared(x, w, u, id) && Spared(x, u, v, id)
    ensures Spared(x, w, v, id)
  {
    hide Named;
  }

  lemma NothingLeft(x: TickInput, w: Work, id: TicketID)
    ensures Spared(x, w, w, id) && Finalize(x, w, []) == w && Apply(x, w, []) == w
  {
  }

  lemma SettleSpares(g: Session, x: TickInput, id: TicketID)
    requires Contracted(g, x)
    ensures Spared(x, Begun(g, x), Settle(x, Begun(g, x), x.order), id)
  {
    var w := Begun(g, x);
    hide Settle, TickContract, Sound, Named, Mid, Mirrors, EngineKnows, FailedStatuses, MatchFate, SettledWith, Failing;
    BegunMid(g, x);
    BegunFailed(g, x);
    OrderTracked(g, x);
    hide Contracted;
    SettleFate(g, x, w, g.used, x.order);
    assert Fate(x, w, Settle(x, w, x.order), x.order, id);
    if Fails(x, w.svc, x.order, id) { FailsHere(g, x, w, g.used, id); }
  }

  lemma FailsHere(g: Session, x: TickInput, w: Work, used: set<MatchID>, id: TicketID)
    requires TickMid(g, x, w, used) && Fails(x, w.svc, x.order, id)
    ensures w.svc.tickets[id].config == x.config
  {
    var m := w.svc.tickets[id].matchID;
    hide Grew, EndedInTick, StillPending, Matched, TicketRel, OpenRel, MatchRel;
    RosterRelated(g, w, used, x.config, m);
    hide Mid;
    assert InRoster(w.svc, x.config, m, id);
  }

  lemma FinalizeMatchSpares(g: Session, x: TickInput, w: Work, used: set<MatchID>, mt: Match, id: TicketID)
    requires TickMid(g, x, w, used) && Ready(x, w.svc, used, mt)
    ensures Spared(x, w, FinalizeMatch(x, w, mt), id)
  {
    hide FinalizeMatch, Key, Mid, Grew, EndedInTick, AnnouncedID, Success, TrackerAfter, Finalizable, Named, AboutMatch,
         Concluded, TicketRel, Untouched;
    forall i <- mt.ticketIDs ensures i in w.svc.tickets && Finalizable(x, w.svc.tickets[i], i) {
      ReadyTicket(g, x, w, used, mt, i);
    }
    FinalizeMatchExact(x, w, mt);
  }

  lemma {:induction false} FinalizeSpares(g: Session, x: TickInput, w: Work, used: set<MatchID>, matches: seq<Match>,
                                          id: TicketID)
    requires TickMid(g, x, w, used) && MatchesApart(matches)
    requires forall mt <- matches :: Ready(x, w.svc, used, mt)
    ensures Spared(x, w, Finalize(x, w, matches), id)
    decreases |matches|
  {
    hide FinalizeMatch, TickMid, Ready, Proposed, Finalize, Apply, Spared, Within, Tracked;
    NothingLeft(x, w, id);
    if matches != [] {
      assert matches[0] in matches;
      FinalizeMatchSpares(g, x, w, used, matches[0], id);
      FinalizeFirst(g, x, w, used, matches);
      var w1 := FinalizeMatch(x, w, matches[0]);
      FinalizeSpares(g, x, w1, used + {matches[0].newID}, matches[1..], id);
      SparedTwice(x, w, w1, Finalize(x, w, matches), id);
    }
  }

  lemma ApplyOneSpares(g: Session, x: TickInput, w: Work, used: set<MatchID>, p: Proposal, id: TicketID)
    requires TickMid(g, x, w, used) && Appliable(x, w.svc, used, p)
    ensures Spared(x, w, ApplyProposal(x, w, p), id)
  {
    hide ApplyProposal, Key, Mid, Grew, EndedInTick, Named, AboutMatch, Joined, Assignable, SameProposal;
    if k :| TrackedAs(x, w.svc, p, k) {
      ApplyKnown(g, x, w, used, p, k);
    } else {
      NewReady(g, x, w, used, p);
      ApplyNewExact(x, w, p);
    }
  }

  lemma {:induction false} ApplySpares(g: Session, x: TickInput, w: Work, used: set<MatchID>, pending: seq<Proposal>,
                                       id: TicketID)
    requires TickMid(g, x, w, used) && ProposalsApart(pending)
    requires forall p <- pending :: Appliable(x, w.svc, used, p)
    ensures Spared(x, w, Apply(x, w, pending), id)
    decreases |pending|
  {
    hide ApplyProposal, TickMid, Appliable, AddedTo, Finalize, Apply, Spared;
    NothingLeft(x, w, id);
    if pending != [] {
      assert pending[0] in pending;
      ApplyOneSpares(g, x, w, used, pending[0], id);
      ApplyFirst(g, x, w, used, pending);
      var w1 := ApplyProposal(x, w, pending[0]);
      ApplySpares(g, x, w1, used + {pending[0].newID}, pending[1..], id);
      SparedTwice(x, w, w1, Apply(x, w, pending), id);
    }
  }

  lemma SyncOneSpares(g: Session, x: TickInput, w: Work, used: set<MatchID>, settled: set<MatchID>, k: TicketID, id: TicketID)
    requires TickMid(g, x, w, used) && SyncReady(x, w.svc, k)
    ensures Spared(x, w, SyncTicket(x, w, settled, k).0, id)
  {
    DuringTick(g, x, w, used, k);
    assert TicketRel(g, w, k);
    hide Mid, Grew, EndedInTick, Walk, Trace, Placed, Evolves;
    var u := SyncTicketExact(x, w, settled, k);
    hide SyncTicket, TicketOk, SyncedFrom;
    var v := SyncTicket(x, w, settled, k).0;
    if v != w {
      StoredSpares(x, w, v, k, u, id);
    }
  }

  lemma StoredSpares(x: TickInput, w: Work, v: Work, k: TicketID, u: TicketState, id: TicketID)
    requires k in w.svc.tickets && w.svc.tickets[k].config == x.config && SyncedFrom(w.svc.tickets[k], u)
    requires v == w.Store(u) && w.svc.tickets[k].id == k
    ensures Spared(x, w, v, id)
  {
    assert Stepped(w, v, k, u) by { StoredAs(w, u); hide Named; }
    SteppedEvents(w, v, k, u);
    hide Named, SyncedFrom;
  }

  lemma {:induction false} SyncTicketsSpare(g: Session, x: TickInput, w: Work, used: set<MatchID>, settled: set<MatchID>,
                                            ids: seq<TicketID>, id: TicketID)
    requires TickMid(g, x, w, used) && NoDuplicates(ids) && forall k <- ids :: SyncReady(x, w.svc, k)
    ensures Spared(x, w, SyncTickets(x, w, settled, ids), id)
    decreases |ids|
  {
    NothingLeft(x, w, id);
    hide SyncTicket, TickMid, Spared, SameAbout;
    if ids != [] && !w.failed {
      assert ids[0] in ids;
      SyncOneMid(g, x, w, used, settled, ids[0]);
      SyncOneSpares(g, x, w, used, settled, ids[0], id);
      var (w1, s1) := SyncTicket(x, w, settled, ids[0]);
      forall k <- ids[1..] ensures SyncReady(x, w1.svc, k) {
        assert k in ids && k != ids[0];
      }
      SyncTicketsSpare(g, x, w1, used, settled, ids[1..], id);
      SparedTwice(x, w, w1, SyncTickets(x, w, settled, ids), id);
    }
  }

  lemma SyncSpares(g: Session, x: TickInput, w: Work, used: set<MatchID>, id: TicketID)
    requires Contracted(g, x) && TickMid(g, x, w, used) && Mirrors(w.svc, x.config, x.engine.pending)
    ensures Spared(x, w, Sync(x, w), id)
  {
    hide Contracted, SyncReady, Mirrors, Spared, SyncTickets;
    var ids := SortedListing(w.svc.Active(x.config));
    ListingDistinct(ids, w.svc.Active(x.config));
    hide TickMid;
    forall k <- ids ensures SyncReady(x, w.svc, k) { ActiveReady(g, x, w, used, k); }
    SyncTicketsSpare(g, x, w, used, {}, ids, id);
  }

  lemma PassesSpare(g: Session, x: TickInput, id: TicketID)
    requires Contracted(g, x)
    ensures Spared(x, Begun(g, x), Passes(x, g.world.svc), id)
  {
    var w1 := Settle(x, Begun(g, x), x.order);
    var w2 := Finalize(x, w1, x.engine.matches);
    var w3 := Apply(x, w2, x.engine.pending);
    assert g.used + TickIDs(x) == g.used + MatchNewIDs(x.engine.matches) + ProposalNewIDs(x.engine.pending);
    hide Contracted, Settled, TickMid, OnlyPending, Settle, Finalize, Apply, Sync, Mirrors, TickIDs, MatchNewIDs,
         ProposalNewIDs, Spared, SameAbout;
    AfterSettle(g, x);
    SettleSpares(g, x, id);
    AfterFinalize(g, x, w1);
    FinalizeSparesOf(g, x, w1, id);
    SparedTwice(x, Begun(g, x), w1, w2, id);
    AfterApply(g, x, w2);
    ApplySparesOf(g, x, w2, id);
    SparedTwice(x, Begun(g, x), w2, w3, id);
    NotFailed(g, x, w3, g.used + TickIDs(x));
    SyncSpares(g, x, w3, g.used + TickIDs(x), id);
    SparedTwice(x, Begun(g, x), w3, Sync(x, w3), id);
  }

  lemma FinalizeSparesOf(g: Session, x: TickInput, w: Work, id: TicketID)
    requires Contracted(g, x) && Settled(g, x, w)
    ensures Spared(x, w, Finalize(x, w, x.engine.matches), id)
  {
    hide Inv, Sound, Finalize, TickMid, Failing, Ready, RostersOk, IDsOk, CallsOk, PendingOk, AcceptanceOk, AbsorbingOk,
         FailedProposalsOk, Spared;
    RostersApart(g, x);
    hide Contracted;
    forall mt <- x.engine.matches ensures Ready(x, w.svc, g.used, mt) { MatchReady(g, x, w, mt); }
    FinalizeSpares(g, x, w, g.used, x.engine.matches, id);
  }

  lemma ApplySparesOf(g: Session, x: TickInput, w: Work, id: TicketID)
    requires Contracted(g, x) && TickMid(g, x, w, g.used + MatchNewIDs(x.engine.matches)) && OnlyPending(x, w.svc)
    ensures Spared(x, w, Apply(x, w, x.engine.pending), id)
  {
    hide Inv, Sound, Apply, TickMid, Appliable, OnlyPending, RostersOk, IDsOk, CallsOk, PendingOk, AcceptanceOk,
         AbsorbingOk, FailedProposalsOk, Spared;
    RostersApart(g, x);
    hide Contracted;
    forall p <- x.engine.pending ensures Appliable(x, w.svc, g.used + MatchNewIDs(x.engine.matches), p) {
      ProposalGood(g, x, p);
      ProposalAppliable(g, x, w, g.used + MatchNewIDs(x.engine.matches), p);
    }
    ApplySpares(g, x, w, g.used + MatchNewIDs(x.engine.matches), x.engine.pending, id);
  }

  lemma TickSpares(g: Session, x: TickInput, id: TicketID)
    requires Contracted(g, x) && !x.refused && !x.engine.fails
    requires id in g.world.svc.tickets && g.world.svc.tickets[id].config != x.config
    ensures Named(RunTick(x, g.world.svc).batch, id) == []
  {
    var s := g.world.svc;
    hide Contracted, Passes, TickMid, Mirrors, RunTick, Service.Evict;
    PassesSpare(g, x, id);
    PassesMid(g, x);
    NotFailed(g, x, Passes(x, s), g.used + TickIDs(x));
    RunTickPasses(x, s);
  }

  // ----- so does every command

  /** The configuration a command works on; none if it names a ticket that is not registered. */
  function ConfigOf(s: Service, cmd: Command): Option<ConfigurationName> {
    match cmd
    case Start(x) => Some(x.config)
    case Backfill(x) => Some(x.start.config)
    case Accept(x) => if x.ticketID in s.tickets then Some(s.tickets[x.ticketID].config) else None
    case Stop(x) => if x.ticketID in s.tickets then Some(s.tickets[x.ticketID].config) else None
    case DoTick(x) => Some(x.config)
  }

  lemma {:induction false} NoneNames(events: seq<Event>, id: TicketID)
    requires forall e <- events :: !e.Names(id)
    ensures Named(events, id) == []
  {
    if events != [] {
      NoneNames(events[..|events| - 1], id);
      assert events[|events| - 1] in events;
    }
  }

  /** A command of another configuration generates no event that names the ticket. */
  lemma CommandSpares(g: Session, cmd: Command, id: TicketID)
    requires Inv(g) && Sound(g.world) && Legal(g.world, cmd) && Contract(g, cmd)
    requires id in g.world.svc.tickets && ConfigOf(g.world.svc, cmd) != Some(g.world.svc.tickets[id].config)
    ensures Named(Effect(g.world.svc, cmd).1, id) == []
  {
    hide Inv, Sound, Named;
    match cmd
    case Start(x) => StartSpares(g.world.svc, x, id);
    case Backfill(x) => BackfillSpares(g, x, id);
    case Accept(x) => AcceptSpares(g, x, id);
    case Stop(x) => NamedNothing(id);
    case DoTick(x) =>
      if x.refused || x.engine.fails {
        NamedNothing(id);
      } else {
        assert Contracted(g, x);
        hide Contracted, RunTick;
        TickSpares(g, x, id);
      }
  }

  lemma StartSpares(s: Service, x: StartInput, id: TicketID)
    requires id in s.tickets
    ensures Named(StartMatchmaking(x, s).batch, id) == []
  {
    StartCases(x, s);
    hide StartMatchmaking, Named;
    NoneNames(StartMatchmaking(x, s).batch, id);
  }

  lemma BackfillSpares(g: Session, x: BackfillInput, id: TicketID)
    requires Sound(g.world) && id in g.world.svc.tickets && g.world.svc.tickets[id].config != x.start.config
    ensures Named(StartMatchBackfill(x, g.world.svc).batch, id) == []
  {
    var s := g.world.svc;
    SoundFits(g.world);
    hide Sound, StartMatchBackfill, PlanBackfill, ReplaceBackfill, Named;
    if StartMatchBackfill(x, s).outcome.Fail? {
      FailedBackfillUndone(x, s);
      NamedNothing(id);
    } else {
      SucceededPlan(x, s);
      PlanSound(x, s);
      var t, prior := PlanBackfill(x, s).ticket, PlanBackfill(x, s).prior;
      assert prior.Some? ==> prior.value.events == [];
      hide Fit;
      ReplaceNames(x, s, t, prior, id);
      NoneNames(StartMatchBackfill(x, s).batch, id);
    }
  }

  lemma ReplaceNames(x: BackfillInput, s: Service, t: TicketState, prior: Option<TicketState>, id: TicketID)
    requires t.events == [SearchingStarted(t.id)] && t.id != id
    requires prior.Some? ==> prior.value.events == [] && prior.value.id != id
    ensures forall e <- ReplaceBackfill(x, s.Reserve(t.id), t, prior).batch :: !e.Names(id)
  {
  }

  lemma AcceptSpares(g: Session, x: AcceptInput, id: TicketID)
    requires Inv(g) && Sound(g.world) && id in g.world.svc.tickets
    requires x.ticketID in g.world.svc.tickets ==> g.world.svc.tickets[x.ticketID].config != g.world.svc.tickets[id].config
    ensures Named(AcceptMatch(x, g.world.svc).batch, id) == []
  {
    var s, r := g.world.svc, AcceptMatch(x, g.world.svc);
    SoundFits(g.world);
    hide AcceptMatch, Sound, Inv, Fit, Named;
    var e := AcceptCases(x, s);
    if r.outcome.Pass? {
      AcceptNames(g, x, id);
      NoneNames(r.batch, id);
    } else {
      NamedNothing(id);
    }
  }

  lemma AcceptNames(g: Session, x: AcceptInput, id: TicketID)
    requires Inv(g) && Fit(g.world.svc) && AcceptMatch(x, g.world.svc).outcome.Pass? && id in g.world.svc.tickets
    requires x.ticketID in g.world.svc.tickets ==> g.world.svc.tickets[x.ticketID].config != g.world.svc.tickets[id].config
    ensures forall e <- AcceptMatch(x, g.world.svc).batch :: !e.Names(id)
  {
    hide AcceptMatch, Inv, Dedupe, Fit, MergedAcceptances, PlayerIDs;
    AcceptRecorded(g, x);
    var t := g.world.svc.tickets[x.ticketID];
    if id in Roster(g.world.svc, t.config, t.matchID) { OfOneConfig(g, t.config, t.matchID, id); }
  }

  lemma OfOneConfig(g: Session, c: ConfigurationName, m: MatchID, id: TicketID)
    requires Inv(g) && Tracked(g.world.svc, c, m) && id in Roster(g.world.svc, c, m)
    ensures id in g.world.svc.tickets && g.world.svc.tickets[id].config == c
  {
    hide Mirrors, EngineKnows;
    RosterRelated(g, Work(g.world.svc, [], false), g.used, c, m);
    hide Mid;
    assert InRoster(g.world.svc, c, m, id);
  }

  // ----- a ticket belongs to the configuration of the command that registered it

  lemma RegisteredHere(g: Session, cmd: Command, id: TicketID)
    requires Inv(g) && Sound(g.world) && Legal(g.world, cmd) && Contract(g, cmd)
    requires id !in g.world.svc.tickets && id in Effect(g.world.svc, cmd).0.tickets
    ensures ConfigOf(g.world.svc, cmd) == Some(Effect(g.world.svc, cmd).0.tickets[id].config)
  {
    hide Inv, Sound, StartMatchmaking, StartMatchBackfill, AcceptMatch, TickContract, Passes;
    match cmd
    case Start(x) => StartRegisters(g.world.svc, x, id);
    case Backfill(x) => BackfillRegisters(g, x, id);
    case Accept(x) =>
      SoundFits(g.world);
      AcceptMid(g, x);
    case Stop(x) =>
    case DoTick(x) =>
      if !x.refused && !x.engine.fails {
        assert Contracted(g, x);
        hide Contracted, RunTick;
        NoNewTickets(g, x);
      }
  }

  lemma StartRegisters(s: Service, x: StartInput, id: TicketID)
    requires id !in s.tickets && id in StartMatchmaking(x, s).svc.tickets
    ensures StartMatchmaking(x, s).svc.tickets[id].config == x.config
  {
    StartCases(x, s);
    hide StartMatchmaking;
  }

  lemma BackfillRegisters(g: Session, x: BackfillInput, id: TicketID)
    requires Sound(g.world) && id !in g.world.svc.tickets && id in StartMatchBackfill(x, g.world.svc).svc.tickets
    ensures StartMatchBackfill(x, g.world.svc).svc.tickets[id].config == x.start.config
  {
    var s := g.world.svc;
    SoundFits(g.world);
    hide Sound, StartMatchBackfill, PlanBackfill, ReplaceBackfill;
    if StartMatchBackfill(x, s).outcome.Fail? {
      if HalfDone(x, s) { PlanSound(x, s); }
      hide HalfDone;
      FailedBackfillUndone(x, s);
    } else {
      SucceededPlan(x, s);
      PlanSound(x, s);
      hide Fit;
      ReplaceRegisters(x, s.Reserve(PlanBackfill(x, s).ticket.id), PlanBackfill(x, s).ticket, PlanBackfill(x, s).prior, id);
    }
  }

  lemma StoredKeys(s: Service, t: TicketState)
    ensures s.Put(t).tickets.Keys == s.tickets.Keys + {t.id} && s.Save(t).tickets.Keys == s.tickets.Keys + {t.id}
    ensures s.Commit(t).tickets == s.tickets[t.id := t]
  {
  }

  lemma SupersedeKeys(x: BackfillInput, s: Service, prior: TicketState)
    requires prior.id in s.tickets
    ensures SupersedeBackfill(x, s, prior).svc.tickets.Keys == s.tickets.Keys
  {
    hide TicketState.MarkCancelled, TicketState.SetRuleMetrics, TicketState.Drained, Service.Put, Service.Save;
    var t := if x.priorMetrics.Some? then prior.SetRuleMetrics(x.priorMetrics.value) else prior;
    SameID(prior, if x.priorMetrics.Some? then x.priorMetrics.value else [], x.start.now);
    SameID(t, [], x.start.now);
    StoredKeys(s, t);
    var r := t.MarkCancelled(SupersededMessage, x.start.now);
    if r.Some? { StoredKeys(s, r.value.Drained()); }
  }

  lemma SameID(t: TicketState, metrics: seq<RuleMetric>, now: Time)
    ensures t.SetRuleMetrics(metrics).id == t.id
    ensures var r := t.MarkCancelled(SupersededMessage, now); r.Some? ==> r.value.Drained().id == t.id
  {
  }

  lemma ReplaceRegisters(x: BackfillInput, s: Service, t: TicketState, prior: Option<TicketState>, id: TicketID)
    requires id !in s.tickets && (prior.Some? ==> prior.value.id in s.tickets)
    requires id in ReplaceBackfill(x, s, t, prior).svc.tickets
    ensures ReplaceBackfill(x, s, t, prior).svc.tickets[id].config == t.config
  {
    hide SupersedeBackfill, Service.Commit;
    StoredKeys(s, t.Drained());
    if prior.Some? {
      SupersedeKeys(x, s, prior.value);
      StoredKeys(SupersedeBackfill(x, s, prior.value).svc, t.Drained());
    }
  }

  lemma NoNewTickets(g: Session, x: TickInput)
    requires Contracted(g, x) && !x.refused && !x.engine.fails
    ensures RunTick(x, g.world.svc).svc.tickets.Keys <= g.world.svc.tickets.Keys
  {
    var w := Passes(x, g.world.svc);
    PassesMid(g, x);
    hide Contracted, Passes, RunTick, Mid, Mirrors, Fit, Advanced, EndedInTick;
    assert w.svc.tickets.Keys == g.world.svc.tickets.Keys;
    hide TickMid;
    NotFailed(g, x, w, g.used + TickIDs(x));
    RunTickPasses(x, g.world.svc);
    EvictCarried(w, x.config, x.now);
  }
}
