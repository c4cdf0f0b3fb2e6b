/**
 A whole tick under the engine contract: it reports no error, keeps the invariant, and afterwards the tracked proposals
 are exactly those the engine reports pending.
 */
module ProtocolTick {
  import opened Wrappers
  import opened Domain
  import opened RosterKey
  import opened ProposalTracking
  import opened ServiceState
  import opened Tick
  import opened Commands
  import opened Runs
  import opened AnyEngine
  import opened AnyRun
  import opened Traces
  import opened EngineContract
  import opened Protocol
  import opened ProtocolSettle
  import opened ProtocolFinalize
  import opened ProtocolApply
  import opened ProtocolSync
  import opened ProtocolOrder

  /** A tick the engine answers as contracted, from a state that a contract run reaches. */
  ghost predicate Contracted(g: Session, x: TickInput) {
    Inv(g) && Sound(g.world) && TickContract(g, x) && ValidOrder(x, g.world.svc) && g.world.clock <= x.now
  }

  function Begun(g: Session, x: TickInput): Work {
    Work(g.world.svc.WithTracker(x.config), [], false)
  }

  // ----- the start

  lemma BegunMid(g: Session, x: TickInput)
    requires Inv(g) && Sound(g.world)
    ensures TickMid(g, x, Begun(g, x), g.used)
  {
    var w, v := Work(g.world.svc, [], false), Begun(g, x);
    hide TicketRel, RosterRel, OpenRel, MatchRel, Mirrors, EngineKnows, OneBackfillPerSession, TicketSound;
    assert forall d :: v.svc.TrackerOf(d) == w.svc.TrackerOf(d);
    BegunTouches(g, x, w, v);
    GrewTracker(w, x.config, w.svc.TrackerOf(x.config), x.now);
    hide Sound, Grew;
    SameMatchRel(g, w, v, g.used, "");
    NoEmptyID(g, w, g.used);
    forall d ensures !Tracked(v.svc, d, "") { assert !Tracked(w.svc, d, ""); }
    assert w.svc.TrackerOf(x.config).Coherent();
    hide Tracker.Coherent;
    StepMid(g, w, v, g.used, g.used, x.config, {}, "");
  }

  lemma BegunTouches(g: Session, x: TickInput, w: Work, v: Work)
    requires Inv(g) && w == Work(g.world.svc, [], false) && v == Begun(g, x)
    ensures Touches(w, v, x.config, {}, "")
  {
    hide TicketRel, RosterRel, OpenRel, MatchRel, Mirrors, EngineKnows, Named, AboutMatch;
    NoEmptyID(g, w, g.used);
    assert forall d :: v.svc.TrackerOf(d) == w.svc.TrackerOf(d);
  }

  lemma NoEmptyID(g: Session, w: Work, used: set<MatchID>)
    requires Mid(g, w, used)
    ensures forall d :: !Tracked(w.svc, d, "")
  {
    hide TicketRel, OpenRel, MatchRel;
    forall d ensures !Tracked(w.svc, d, "") {
      assert Tracked(w.svc, d, "") ==> RosterRel(w.svc, d, "");
    }
  }

  // ----- the first pass

  /** A ticket of a tracked roster of the session before the tick: registered, and in a proposal pending so far. */
  lemma TrackedTicket(g: Session, x: TickInput, m: MatchID, id: TicketID) returns (p: Proposal)
    requires Contracted(g, x) && Tracked(g.world.svc, x.config, m) && id in Roster(g.world.svc, x.config, m)
    ensures InRoster(g.world.svc, x.config, m, id)
    ensures p in g.Pending(x.config) && id in p.ticketIDs && SameProposal(g.world.svc, x.config, m, p)
  {
    hide TicketRel, OpenRel, MatchRel, EngineKnows, Sound, TickContract;
    assert RosterRel(g.world.svc, x.config, m) && Mirrors(g.world.svc, x.config, g.Pending(x.config));
    p :| p in g.Pending(x.config) && SameProposal(g.world.svc, x.config, m, p);
    SameElements(Roster(g.world.svc, x.config, m), p.ticketIDs);
  }

  /** The tracked proposal of a match: where acceptance is required there is exactly one. */
  lemma MatchProposal(g: Session, x: TickInput, mt: Match) returns (m: MatchID)
    requires Contracted(g, x) && mt in x.engine.matches && x.acceptanceRequired
    ensures Tracked(g.world.svc, x.config, m) && multiset(Roster(g.world.svc, x.config, m)) == multiset(mt.ticketIDs)
  {
    hide Mid, EngineKnows, Sound, RostersOk, CallsOk, PendingOk, FailedProposalsOk, AbsorbingOk, IDsOk;
    var p :| p in g.Pending(x.config) && multiset(p.ticketIDs) == multiset(mt.ticketIDs);
    m :| Tracked(g.world.svc, x.config, m) && SameProposal(g.world.svc, x.config, m, p);
  }

  lemma TrackedNeedsAcceptance(g: Session, x: TickInput, m: MatchID)
    requires Contracted(g, x) && Tracked(g.world.svc, x.config, m)
    ensures x.acceptanceRequired
  {
    hide Mid, EngineKnows, Sound, RostersOk, CallsOk, PendingOk, FailedProposalsOk, AbsorbingOk, IDsOk, Mirrors;
  }

  /** A ticket of a tracked proposal that is in a match makes it the match's proposal. */
  lemma FailingUnmatched(g: Session, x: TickInput, m: MatchID, id: TicketID)
    requires Contracted(g, x) && Failing(x, g.world.svc, m) && id in Roster(g.world.svc, x.config, m)
    ensures !InMatches(x.engine, id)
  {
    hide Contracted, Key, StillPending;
    if mt :| mt in x.engine.matches && id in mt.ticketIDs {
      TrackedNeedsAcceptance(g, x, m);
      var k := MatchProposal(g, x, mt);
      SameElements(Roster(g.world.svc, x.config, k), mt.ticketIDs);
      SameMatchOf(g, x, k, m, id);
      KeyIgnoresOrder(Roster(g.world.svc, x.config, m), mt.ticketIDs);
    }
  }

  lemma SameMatchOf(g: Session, x: TickInput, k: MatchID, m: MatchID, id: TicketID)
    requires Contracted(g, x) && Tracked(g.world.svc, x.config, k) && Tracked(g.world.svc, x.config, m)
    requires id in Roster(g.world.svc, x.config, k) && id in Roster(g.world.svc, x.config, m)
    ensures k == m
  {
    hide Mid, TickContract, Sound, Mirrors, EngineKnows;
    RostersDisjoint(g, Work(g.world.svc, [], false), g.used, x.config, k, x.config, m, id);
  }

  lemma RegisteredCalls(g: Session, x: TickInput, id: TicketID)
    requires Contracted(g, x) && id in g.world.svc.tickets && g.world.svc.tickets[id].config == x.config
    requires !g.world.svc.tickets[id].Terminal()
    ensures id in x.engine.status && id in x.engine.statusAfter && id !in x.engine.completeFails
    ensures !InMatches(x.engine, id) ==> x.engine.statusAfter[id] == x.engine.status[id]
  {
    hide Inv, Sound, RostersOk, AcceptanceOk, PendingOk, FailedProposalsOk, AbsorbingOk, IDsOk;
  }

  lemma FailedTicket(g: Session, x: TickInput, m: MatchID, id: TicketID)
    requires Contracted(g, x) && Failing(x, g.world.svc, m) && id in Roster(g.world.svc, x.config, m)
    ensures FailedStatus(x, id)
  {
    hide Key, Matched, StillPending, InMatches, Contracted, InRoster;
    var p := TrackedTicket(g, x, m, id);
    FailingUnmatched(g, x, m, id);
    RosterTicket(g, x, m, id);
    RegisteredCalls(g, x, id);
    FailedStatusOf(g, x, p, id);
  }

  lemma RosterTicket(g: Session, x: TickInput, m: MatchID, id: TicketID)
    requires InRoster(g.world.svc, x.config, m, id)
    ensures id in g.world.svc.tickets && g.world.svc.tickets[id].config == x.config
    ensures !g.world.svc.tickets[id].Terminal()
  {
  }

  lemma FailedStatusOf(g: Session, x: TickInput, p: Proposal, id: TicketID)
    requires Contracted(g, x) && p in g.Pending(x.config) && id in p.ticketIDs
    requires id in x.engine.status && !InMatches(x.engine, id)
    ensures x.engine.status[id] in {Queued, Searching, RequiresAcceptance, Cancelled, TimedOut}
  {
    hide Inv, Sound, RostersOk, AcceptanceOk, PendingOk, CallsOk, AbsorbingOk, IDsOk, InMatches;
  }

  lemma BegunFailed(g: Session, x: TickInput)
    requires Contracted(g, x)
    ensures FailedStatuses(x, Begun(g, x).svc)
  {
    hide Key, Matched, StillPending, Contracted, FailedStatus;
    var s := Begun(g, x).svc;
    assert s.TrackerOf(x.config) == g.world.svc.TrackerOf(x.config);
    forall m | Failing(x, s, m) ensures forall id <- Roster(s, x.config, m) :: FailedStatus(x, id) {
      assert Failing(x, g.world.svc, m);
      forall id <- Roster(s, x.config, m) ensures FailedStatus(x, id) { FailedTicket(g, x, m, id); }
    }
  }

  /** What the first pass leaves: the tracked proposals that did not fail, as they were. */
  ghost predicate Settled(g: Session, x: TickInput, w: Work) {
    && TickMid(g, x, w, g.used)
    && Within(g.world.svc.TrackerOf(x.config), w.svc.TrackerOf(x.config))
    && (forall m :: Tracked(w.svc, x.config, m) <==> Tracked(g.world.svc, x.config, m) && !Failing(x, g.world.svc, m))
    && (!x.acceptanceRequired ==> w.svc.tickets == g.world.svc.tickets)
  }

  lemma OrderTracked(g: Session, x: TickInput)
    requires Contracted(g, x)
    ensures NoDuplicates(x.order)
    ensures forall m :: m in x.order <==> Tracked(g.world.svc, x.config, m)
  {
    hide TicketRel, OpenRel, MatchRel, EngineKnows, Sound, TickContract, Mirrors;
    ListingDistinct(x.order, g.world.svc.TrackerOf(x.config).Proposals());
    forall m ensures m in x.order <==> Tracked(g.world.svc, x.config, m) {
      assert Tracked(g.world.svc, x.config, m) ==> RosterRel(g.world.svc, x.config, m);
    }
  }

  lemma AfterSettle(g: Session, x: TickInput)
    requires Contracted(g, x)
    ensures Settled(g, x, Settle(x, Begun(g, x), x.order))
  {
    var w := Begun(g, x);
    var v := Settle(x, w, x.order);
    assert x.order == [] ==> v == w;
    hide FailedStatuses, TickMid, TickContract, Inv, Sound, Settle, Failing, Within;
    BegunMid(g, x);
    BegunFailed(g, x);
    hide Contracted;
    OrderTracked(g, x);
    SettleMid(g, x, w, g.used, x.order);
    BegunSame(g, x);
    if x.order != [] {
      assert x.order[0] in x.order;
      TrackedNeedsAcceptance(g, x, x.order[0]);
    }
  }

  /** Making sure there is a tracker changes nothing that can be read. */
  lemma BegunSame(g: Session, x: TickInput)
    ensures Begun(g, x).svc.TrackerOf(x.config) == g.world.svc.TrackerOf(x.config)
    ensures forall m :: Tracked(Begun(g, x).svc, x.config, m) <==> Tracked(g.world.svc, x.config, m)
    ensures forall m :: Failing(x, Begun(g, x).svc, m) <==> Failing(x, g.world.svc, m)
  {
    hide StillPending, Matched;
    assert Begun(g, x).svc.TrackerOf(x.config) == g.world.svc.TrackerOf(x.config);
  }

  // ----- the rosters of the tick

  lemma RostersApart(g: Session, x: TickInput)
    requires RostersOk(g, x) && IDsOk(g, x)
    ensures MatchesApart(x.engine.matches) && ProposalsApart(x.engine.pending)
    ensures forall mt <- x.engine.matches, p <- x.engine.pending :: Apart(mt.ticketIDs, p.ticketIDs) && mt.newID != p.newID
  {
    hide GoodRoster;
    var e := x.engine;
    var r, n, k := Rosters(e), NewIDs(e), |e.matches|;
    forall i, j | 0 <= i < j < k
      ensures Apart(e.matches[i].ticketIDs, e.matches[j].ticketIDs) && e.matches[i].newID != e.matches[j].newID {
      assert Apart(r[i], r[j]) && n[i] != n[j];
    }
    forall i, j | 0 <= i < j < |e.pending|
      ensures Apart(e.pending[i].ticketIDs, e.pending[j].ticketIDs) && e.pending[i].newID != e.pending[j].newID {
      assert Apart(r[k + i], r[k + j]) && n[k + i] != n[k + j];
    }
    forall mt <- e.matches, p <- e.pending ensures Apart(mt.ticketIDs, p.ticketIDs) && mt.newID != p.newID {
      var i :| 0 <= i < k && e.matches[i] == mt;
      var j :| 0 <= j < |e.pending| && e.pending[j] == p;
      assert Apart(r[i], r[k + j]) && n[i] != n[k + j];
    }
  }

  lemma FreshIDs(g: Session, x: TickInput)
    requires IDsOk(g, x)
    ensures forall mt <- x.engine.matches :: mt.newID != "" && mt.newID !in g.used
    ensures forall p <- x.engine.pending :: p.newID != "" && p.newID !in g.used
  {
    var e := x.engine;
    forall mt <- e.matches ensures mt.newID in NewIDs(e) {
      var i :| 0 <= i < |e.matches| && e.matches[i] == mt;
      assert NewIDs(e)[i] == mt.newID;
    }
    forall p <- e.pending ensures p.newID in NewIDs(e) {
      var j :| 0 <= j < |e.pending| && e.pending[j] == p;
      assert NewIDs(e)[|e.matches| + j] == p.newID;
    }
  }

  /** A ticket of a roster the engine reports has not ended, neither for the engine nor for the service. */
  lemma Alive(g: Session, x: TickInput, ids: seq<TicketID>, id: TicketID)
    requires Contracted(g, x) && GoodRoster(g.world.svc, x.config, x.engine, ids) && id in ids
    ensures id in g.world.svc.tickets && g.world.svc.tickets[id].config == x.config && !g.world.svc.tickets[id].Terminal()
    ensures id in x.engine.status && !x.engine.status[id].IsTerminal()
  {
    hide Mid, Mirrors, Sound, RostersOk, CallsOk, PendingOk, FailedProposalsOk, AcceptanceOk, IDsOk;
  }

  /** A ticket of a match that needs no acceptance waits in the pool when the match is finalized. */
  lemma DirectTicket(g: Session, x: TickInput, w: Work, ids: seq<TicketID>, id: TicketID)
    requires Contracted(g, x) && GoodRoster(g.world.svc, x.config, x.engine, ids) && id in ids
    requires Settled(g, x, w) && !x.acceptanceRequired
    ensures id in w.svc.tickets && Pooled(w.svc.tickets[id].status)
  {
    hide Key, Failing, GoodRoster;
    Alive(g, x, ids, id);
    NotTracked(g, x);
    PoolOrProposal(g, x, w, g.used, id);
  }

  lemma NotTracked(g: Session, x: TickInput)
    requires Contracted(g, x) && !x.acceptanceRequired
    ensures forall m :: !Tracked(g.world.svc, x.config, m)
  {
    hide Mid, EngineKnows, Sound, RostersOk, CallsOk, PendingOk, FailedProposalsOk, AbsorbingOk, IDsOk, Mirrors;
  }

  /** An active ticket waits in the pool or is part of a tracked proposal. */
  lemma PoolOrProposal(g: Session, x: TickInput, w: Work, used: set<MatchID>, id: TicketID)
    requires TickMid(g, x, w, used) && id in w.svc.tickets && !w.svc.tickets[id].Terminal()
    ensures var t := w.svc.tickets[id];
            Pooled(t.status) || (t.status.RequiresAcceptance? && Tracked(w.svc, t.config, t.matchID)
                                 && id in Roster(w.svc, t.config, t.matchID))
  {
    hide RosterRel, OpenRel, MatchRel, Walk, Trace, Grew;
    assert TicketRel(g, w, id);
  }

  // ----- the second pass

  lemma MatchReady(g: Session, x: TickInput, w: Work, mt: Match)
    requires Contracted(g, x) && Settled(g, x, w) && mt in x.engine.matches
    ensures Ready(x, w.svc, g.used, mt)
  {
    hide Failing, TickMid, Contracted, Within;
    MatchRosterGood(g, x, mt);
    assert x.acceptanceRequired || w.svc.TrackerOf(x.config).byMatch == map[] by {
      if !x.acceptanceRequired { EmptyAfterSettle(g, x, w); }
    }
    forall id <- mt.ticketIDs
      ensures id in w.svc.tickets && w.svc.tickets[id].config == x.config && id !in x.engine.completeFails
      ensures InMatches(x.engine, id)
    {
      Alive(g, x, mt.ticketIDs, id);
      RegisteredCalls(g, x, id);
      DuringTick(g, x, w, g.used, id);
    }
    if x.acceptanceRequired {
      var m := MatchProposal(g, x, mt);
      MatchStays(g, x, w, mt, m);
    } else {
      forall id <- mt.ticketIDs ensures Pooled(w.svc.tickets[id].status) { DirectTicket(g, x, w, mt.ticketIDs, id); }
    }
  }

  lemma MatchRosterGood(g: Session, x: TickInput, mt: Match)
    requires Contracted(g, x) && mt in x.engine.matches
    ensures GoodRoster(g.world.svc, x.config, x.engine, mt.ticketIDs)
    ensures mt.newID != "" && mt.newID !in g.used
  {
    hide Inv, Sound, CallsOk, PendingOk, FailedProposalsOk, AcceptanceOk, AbsorbingOk, GoodRoster;
    FreshIDs(g, x);
  }

  lemma EmptyAfterSettle(g: Session, x: TickInput, w: Work)
    requires Contracted(g, x) && Settled(g, x, w) && !x.acceptanceRequired
    ensures w.svc.TrackerOf(x.config).byMatch == map[]
  {
    hide Contracted, TickMid, Failing;
    NotTracked(g, x);
    forall m ensures m !in w.svc.TrackerOf(x.config).byMatch {
      assert !Tracked(w.svc, x.config, m);
    }
  }

  lemma MatchStays(g: Session, x: TickInput, w: Work, mt: Match, m: MatchID)
    requires Settled(g, x, w) && mt in x.engine.matches
    requires Tracked(g.world.svc, x.config, m) && multiset(Roster(g.world.svc, x.config, m)) == multiset(mt.ticketIDs)
    ensures Proposed(x, w.svc, mt, m)
  {
    hide TickMid, Key;
    KeyIgnoresOrder(Roster(g.world.svc, x.config, m), mt.ticketIDs);
    assert !Failing(x, g.world.svc, m);
  }

  /** Every tracked proposal is one of those the engine reports pending. */
  ghost predicate OnlyPending(x: TickInput, s: Service) {
    forall m | Tracked(s, x.config, m) :: exists p <- x.engine.pending :: SameProposal(s, x.config, m, p)
  }

  lemma StillPendingMeans(g: Session, x: TickInput, w: Work, used: set<MatchID>, m: MatchID) returns (p: Proposal)
    requires Contracted(g, x) && TickMid(g, x, w, used) && Tracked(w.svc, x.config, m)
    requires StillPending(x, Roster(w.svc, x.config, m), w.svc.TrackerOf(x.config).CreatedAt(m))
    ensures p in x.engine.pending && SameProposal(w.svc, x.config, m, p)
  {
    var ids := Roster(w.svc, x.config, m);
    p :| p in x.engine.pending && Key(p.ticketIDs) == Key(ids) && p.createdAt == w.svc.TrackerOf(x.config).CreatedAt(m);
    hide Contracted, Key;
    RosterPlain(g, w, used, x.config, m);
    ProposalGood(g, x, p);
    GoodPlain(g, x, p.ticketIDs);
    KeyFaithful(ids, p.ticketIDs);
  }

  lemma ProposalGood(g: Session, x: TickInput, p: Proposal)
    requires Contracted(g, x) && p in x.engine.pending
    ensures GoodRoster(g.world.svc, x.config, x.engine, p.ticketIDs) && p.createdAt != 0
    ensures p.newID != "" && p.newID !in g.used
  {
    hide Inv, Sound, CallsOk, PendingOk, FailedProposalsOk, AcceptanceOk, AbsorbingOk, GoodRoster;
    FreshIDs(g, x);
  }

  lemma GoodPlain(g: Session, x: TickInput, ids: seq<TicketID>)
    requires Contracted(g, x) && GoodRoster(g.world.svc, x.config, x.engine, ids)
    ensures ids != [] && PlainIDs(ids)
  {
    hide TickContract, Sound, Mirrors, EngineKnows, RosterRel, OpenRel, MatchRel;
    forall id <- ids ensures PlainID(id) {
      assert TicketRel(g, Work(g.world.svc, [], false), id);
    }
  }

  lemma MatchedMeans(g: Session, x: TickInput, w: Work, used: set<MatchID>, m: MatchID)
    requires Contracted(g, x) && TickMid(g, x, w, used) && Tracked(w.svc, x.config, m)
    requires Matched(x, Roster(w.svc, x.config, m))
    ensures AmongMatches(x, w.svc, x.engine.matches, m)
  {
    var ids := Roster(w.svc, x.config, m);
    var mt :| mt in x.engine.matches && Key(mt.ticketIDs) == Key(ids);
    hide Contracted, Key;
    RosterPlain(g, w, used, x.config, m);
    MatchRosterGood(g, x, mt);
    GoodPlain(g, x, mt.ticketIDs);
    KeyFaithful(ids, mt.ticketIDs);
    assert Proposed(x, w.svc, mt, m);
  }

  lemma AfterFinalize(g: Session, x: TickInput, w: Work)
    requires Contracted(g, x) && Settled(g, x, w)
    ensures var v := Finalize(x, w, x.engine.matches);
            TickMid(g, x, v, g.used + MatchNewIDs(x.engine.matches)) && OnlyPending(x, v.svc)
  {
    var v := Finalize(x, w, x.engine.matches);
    assert RostersOk(g, x) && IDsOk(g, x);
    RostersApart(g, x);
    hide Contracted, Finalize, TickMid, Failing, Ready, AmongMatches, MatchNewIDs;
    forall mt <- x.engine.matches ensures Ready(x, w.svc, g.used, mt) { MatchReady(g, x, w, mt); }
    FinalizeMid(g, x, w, g.used, x.engine.matches);
    forall m | Tracked(v.svc, x.config, m) ensures exists p <- x.engine.pending :: SameProposal(v.svc, x.config, m, p) {
      assert Tracked(w.svc, x.config, m);
      var p := TrackedPending(g, x, w, m);
    }
  }

  lemma TrackedPending(g: Session, x: TickInput, w: Work, m: MatchID) returns (p: Proposal)
    requires Contracted(g, x) && Settled(g, x, w) && Tracked(w.svc, x.config, m) && !AmongMatches(x, w.svc, x.engine.matches, m)
    ensures p in x.engine.pending && SameProposal(w.svc, x.config, m, p)
  {
    hide Contracted, TickMid, StillPending, Matched, AmongMatches;
    assert !Failing(x, g.world.svc, m);
    if Matched(x, Roster(w.svc, x.config, m)) { MatchedMeans(g, x, w, g.used, m); }
    p := StillPendingMeans(g, x, w, g.used, m);
  }

  // ----- the third pass

  /** During the tick a ticket of a reported proposal stays active. */
  lemma ProposalTicket(g: Session, x: TickInput, w: Work, used: set<MatchID>, p: Proposal, id: TicketID)
    requires Contracted(g, x) && TickMid(g, x, w, used) && p in x.engine.pending && id in p.ticketIDs
    ensures id in w.svc.tickets && id in g.world.svc.tickets && !w.svc.tickets[id].Terminal()
    ensures w.svc.tickets[id].config == x.config && w.svc.tickets[id].players == g.world.svc.tickets[id].players
  {
    ProposalGood(g, x, p);
    assert RostersOk(g, x) && IDsOk(g, x);
    RostersApart(g, x);
    hide Contracted, MatchesApart, ProposalsApart, GoodRoster, Mid;
    assert !InMatches(x.engine, id);
    hide InMatches;
    Alive(g, x, p.ticketIDs, id);
    RegisteredCalls(g, x, id);
    DuringTick(g, x, w, used, id);
    assert EndedInTick(g, x, w, id);
  }

  lemma NotShared(pending: seq<Proposal>, i: nat, j: nat, id: TicketID)
    requires ProposalsApart(pending) && i < j < |pending| && id in pending[i].ticketIDs
    ensures id !in pending[j].ticketIDs
  {
  }

  /** Of two reported proposals that share a ticket, one is the other. */
  lemma SharedTicket(g: Session, x: TickInput, p: Proposal, q: Proposal, id: TicketID)
    requires Contracted(g, x) && p in x.engine.pending && q in x.engine.pending && id in p.ticketIDs && id in q.ticketIDs
    ensures p == q
  {
    hide Inv, Sound, CallsOk, PendingOk, FailedProposalsOk, AcceptanceOk, AbsorbingOk, RostersOk, IDsOk,
         ProposalsApart, MatchesApart;
    RostersApart(g, x);
    hide Contracted;
    var i :| 0 <= i < |x.engine.pending| && x.engine.pending[i] == p;
    var j :| 0 <= j < |x.engine.pending| && x.engine.pending[j] == q;
    if i < j { NotShared(x.engine.pending, i, j, id); }
    if j < i { NotShared(x.engine.pending, j, i, id); }
  }

  /** A reported proposal one of whose tickets is in a tracked proposal is that proposal. */
  lemma ProposalKnown(g: Session, x: TickInput, w: Work, p: Proposal, m: MatchID, id: TicketID)
    requires Contracted(g, x) && OnlyPending(x, w.svc) && p in x.engine.pending && id in p.ticketIDs
    requires Tracked(w.svc, x.config, m) && id in Roster(w.svc, x.config, m)
    ensures TrackedAs(x, w.svc, p, m)
  {
    hide Contracted;
    var q :| q in x.engine.pending && SameProposal(w.svc, x.config, m, q);
    SameElements(Roster(w.svc, x.config, m), q.ticketIDs);
    SharedTicket(g, x, p, q, id);
  }

  lemma ProposalAppliable(g: Session, x: TickInput, w: Work, used: set<MatchID>, p: Proposal)
    requires Contracted(g, x) && TickMid(g, x, w, used) && OnlyPending(x, w.svc) && p in x.engine.pending && p.newID !in used
    ensures Appliable(x, w.svc, used, p)
  {
    hide Contracted, TickMid, OnlyPending, SameProposal;
    ProposalGood(g, x, p);
    forall id <- p.ticketIDs
      ensures id in w.svc.tickets && id in g.world.svc.tickets && w.svc.tickets[id].config == x.config
      ensures w.svc.tickets[id].players == g.world.svc.tickets[id].players
    {
      ProposalTicket(g, x, w, used, p, id);
    }
    if id :| id in p.ticketIDs && !Pooled(w.svc.tickets[id].status) {
      ProposalTicket(g, x, w, used, p, id);
      PoolOrProposal(g, x, w, used, id);
      ProposalKnown(g, x, w, p, w.svc.tickets[id].matchID, id);
    }
  }

  lemma AfterApply(g: Session, x: TickInput, w: Work)
    requires Contracted(g, x) && TickMid(g, x, w, g.used + MatchNewIDs(x.engine.matches)) && OnlyPending(x, w.svc)
    ensures var v := Apply(x, w, x.engine.pending);
            && TickMid(g, x, v, g.used + MatchNewIDs(x.engine.matches) + ProposalNewIDs(x.engine.pending))
            && Mirrors(v.svc, x.config, x.engine.pending)
  {
    var used := g.used + MatchNewIDs(x.engine.matches);
    assert RostersOk(g, x) && IDsOk(g, x);
    RostersApart(g, x);
    hide Contracted, TickMid, Apply, ProposalNewIDs, Within, Appliable, OnlyPending;
    forall p <- x.engine.pending ensures Appliable(x, w.svc, used, p) {
      ProposalGood(g, x, p);
      ProposalAppliable(g, x, w, used, p);
    }
    ApplyMid(g, x, w, used, x.engine.pending);
    MirrorsAfter(x, w.svc, Apply(x, w, x.engine.pending).svc);
  }

  lemma MirrorsAfter(x: TickInput, s: Service, r: Service)
    requires OnlyPending(x, s) && Covers(x, s, r, x.engine.pending)
    ensures Mirrors(r, x.config, x.engine.pending)
  {
    forall p <- x.engine.pending ensures exists m :: Tracked(r, x.config, m) && SameProposal(r, x.config, m, p) {
      var m :| TrackedAs(x, r, p, m);
      assert Tracked(r, x.config, m) && SameProposal(r, x.config, m, p);
    }
    forall m | Tracked(r, x.config, m) ensures exists p <- x.engine.pending :: SameProposal(r, x.config, m, p) {
      if Tracked(s, x.config, m) {
        var p :| p in x.engine.pending && SameProposal(s, x.config, m, p);
        assert SameProposal(r, x.config, m, p);
      } else {
        var p :| p in x.engine.pending && TrackedAs(x, r, p, m);
        assert SameProposal(r, x.config, m, p);
      }
    }
  }

  // ----- the fourth pass

  lemma ActiveReady(g: Session, x: TickInput, w: Work, used: set<MatchID>, id: TicketID)
    requires Contracted(g, x) && TickMid(g, x, w, used) && Mirrors(w.svc, x.config, x.engine.pending)
    requires id in w.svc.Active(x.config)
    ensures SyncReady(x, w.svc, id)
  {
    hide Contracted, Mid, EndedInTick, Mirrors, InMatches;
    assert w.svc.Indexed(x.config, id);
    DuringTick(g, x, w, used, id);
    RegisteredCalls(g, x, id);
    PoolOrProposal(g, x, w, used, id);
    hide TickMid;
    if w.svc.tickets[id].status.RequiresAcceptance? {
      ProposalReported(g, x, w, w.svc.tickets[id].matchID, id);
    }
  }

  lemma ProposalReported(g: Session, x: TickInput, w: Work, m: MatchID, id: TicketID)
    requires Contracted(g, x) && Mirrors(w.svc, x.config, x.engine.pending)
    requires Tracked(w.svc, x.config, m) && id in Roster(w.svc, x.config, m) && id in x.engine.status
    ensures x.engine.status[id].RequiresAcceptance? && !InMatches(x.engine, id)
  {
    hide Inv, Sound, CallsOk, FailedProposalsOk, AcceptanceOk, AbsorbingOk, RostersOk, IDsOk;
    assert RostersOk(g, x) && IDsOk(g, x) && PendingOk(x);
    hide Contracted, ProposalsApart, MatchesApart;
    var p :| p in x.engine.pending && SameProposal(w.svc, x.config, m, p);
    SameElements(Roster(w.svc, x.config, m), p.ticketIDs);
    RostersApart(g, x);
    assert InPending(x.engine, id);
  }

  lemma AfterSync(g: Session, x: TickInput, w: Work, used: set<MatchID>)
    requires Contracted(g, x) && TickMid(g, x, w, used) && Mirrors(w.svc, x.config, x.engine.pending)
    ensures TickMid(g, x, Sync(x, w), used) && Mirrors(Sync(x, w).svc, x.config, x.engine.pending)
    ensures Sync(x, w).svc.trackers == w.svc.trackers && SameAbout(w.batch, Sync(x, w).batch)
  {
    hide Contracted, Sync, SyncReady, TickMid, Mirrors, SameAbout;
    forall id <- w.svc.Active(x.config) ensures SyncReady(x, w.svc, id) { ActiveReady(g, x, w, used, id); }
    SyncMid(g, x, w, used);
    hide SameProposal;
    SameMirrors(w.svc, Sync(x, w).svc, x.config, x.engine.pending);
  }

  lemma SameMirrors(s: Service, r: Service, c: ConfigurationName, pending: seq<Proposal>)
    requires Mirrors(s, c, pending) && r.TrackerOf(c) == s.TrackerOf(c)
    ensures Mirrors(r, c, pending)
  {
    forall m, p | Tracked(s, c, m)
      ensures Tracked(r, c, m) && (SameProposal(r, c, m, p) <==> SameProposal(s, c, m, p)) {
      hide Mirrors;
    }
    assert forall m :: Tracked(r, c, m) ==> Tracked(s, c, m);
    hide Tracked, SameProposal;
  }

  // ----- other configurations are not concerned

  lemma {:induction false} FinalizeTicketsTrackers(x: TickInput, w: Work, m: MatchID, teams: map<PlayerID, string>,
                                                   ids: seq<TicketID>, settled: bool)
    ensures FinalizeTickets(x, w, m, teams, ids, settled).0.svc.trackers == w.svc.trackers
    decreases |ids|
  {
    if !w.failed && ids != [] {
      var (w1, s1) := FinalizeTicket(x, w, m, teams, ids[0]);
      FinalizeTicketsTrackers(x, w1, m, teams, ids[1..], settled || s1);
    }
  }

  lemma {:induction false} FinalizeOtherTrackers(x: TickInput, w: Work, matches: seq<Match>, d: ConfigurationName)
    requires d != x.config
    ensures Finalize(x, w, matches).svc.TrackerOf(d) == w.svc.TrackerOf(d)
    decreases |matches|
  {
    hide Key, FinalizeTickets;
    if !w.failed && matches != [] {
      var m := matches[0];
      var tracker := w.svc.TrackerOf(x.config);
      FinalizeTicketsTrackers(x, w, AnnouncedID(x, w.svc, m), m.teams, m.ticketIDs, false);
      FinalizeTicketsTrackers(x, w.(svc := w.svc.SetTracker(x.config, tracker.AssignAt(m.ticketIDs, m.newID, 0))),
                              m.newID, m.teams, m.ticketIDs, false);
      FinalizeOtherTrackers(x, FinalizeMatch(x, w, m), matches[1..], d);
    }
  }

  lemma {:induction false} AssignTicketsTrackers(w: Work, m: MatchID, teams: map<PlayerID, string>, ids: seq<TicketID>)
    ensures AssignTickets(w, m, teams, ids).svc.trackers == w.svc.trackers
    decreases |ids|
  {
    if !w.failed && ids != [] {
      AssignTicketsTrackers(AssignTicket(w, m, teams, ids[0]), m, teams, ids[1..]);
    }
  }

  lemma {:induction false} ApplyOtherTrackers(x: TickInput, w: Work, pending: seq<Proposal>, d: ConfigurationName)
    requires d != x.config
    ensures Apply(x, w, pending).svc.TrackerOf(d) == w.svc.TrackerOf(d)
    decreases |pending|
  {
    hide Key, AssignTickets;
    if !w.failed && pending != [] {
      var p := pending[0];
      var tracker := w.svc.TrackerOf(x.config);
      AssignTicketsTrackers(w.(svc := w.svc.SetTracker(x.config, tracker.AssignAt(p.ticketIDs, p.newID, p.createdAt))),
                            p.newID, p.teams, p.ticketIDs);
      ApplyOtherTrackers(x, ApplyProposal(x, w, p), pending[1..], d);
    }
  }

  // ----- the four passes

  ghost function Passes(x: TickInput, s: Service): Work {
    var w1 := Settle(x, Work(s.WithTracker(x.config), [], false), x.order);
    var w2 := Finalize(x, w1, x.engine.matches);
    var w3 := Apply(x, w2, x.engine.pending);
    if w3.failed then w3 else Sync(x, w3)
  }

  function TickIDs(x: TickInput): set<MatchID> {
    MatchNewIDs(x.engine.matches) + ProposalNewIDs(x.engine.pending)
  }

  /** The four passes of a tick meet no error, keep the invariant, and leave a tracker that mirrors the engine. */
  lemma PassesMid(g: Session, x: TickInput)
    requires Contracted(g, x)
    ensures var v := Passes(x, g.world.svc);
            && TickMid(g, x, v, g.used + TickIDs(x))
            && Mirrors(v.svc, x.config, x.engine.pending)
            && (forall d | d != x.config :: v.svc.TrackerOf(d) == g.world.svc.TrackerOf(d))
  {
    var w0 := Begun(g, x);
    var w1 := Settle(x, w0, x.order);
    var w2 := Finalize(x, w1, x.engine.matches);
    var w3 := Apply(x, w2, x.engine.pending);
    assert g.used + TickIDs(x) == g.used + MatchNewIDs(x.engine.matches) + ProposalNewIDs(x.engine.pending);
    hide Contracted, TickMid, Settle, Finalize, Apply, Sync, Mirrors, OnlyPending, TickIDs, Settled;
    AfterSettle(g, x);
    AfterFinalize(g, x, w1);
    AfterApply(g, x, w2);
    NotFailed(g, x, w3, g.used + TickIDs(x));
    AfterSync(g, x, w3, g.used + TickIDs(x));
    forall d | d != x.config ensures Sync(x, w3).svc.TrackerOf(d) == g.world.svc.TrackerOf(d) {
      OtherTrackers(g, x, d);
    }
  }

  lemma NotFailed(g: Session, x: TickInput, w: Work, used: set<MatchID>)
    requires TickMid(g, x, w, used)
    ensures !w.failed
  {
  }

  lemma OtherTrackers(g: Session, x: TickInput, d: ConfigurationName)
    requires d != x.config
    ensures var w2 := Finalize(x, Settle(x, Begun(g, x), x.order), x.engine.matches);
            Apply(x, w2, x.engine.pending).svc.TrackerOf(d) == g.world.svc.TrackerOf(d)
  {
    hide Settle, Finalize, Apply;
    SettleOtherTrackers(x, Begun(g, x), x.order, d);
    FinalizeOtherTrackers(x, Settle(x, Begun(g, x), x.order), x.engine.matches, d);
    ApplyOtherTrackers(x, Finalize(x, Settle(x, Begun(g, x), x.order), x.engine.matches), x.engine.pending, d);
  }
}
