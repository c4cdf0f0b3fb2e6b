/**
 A match that has been handed out and is not tracked any more is over: no pass of a contracted tick and no command
 generates an event about it again.
 */
module ProtocolSilence {
  import opened Wrappers
  import opened Domain
  import opened RosterKey
  import opened ProposalTracking
  import opened ServiceState
  import opened Tick
  import opened Commands
  import opened Runs
  import opened AnyEngine
  import opened AnyRun
  import opened Traces
  import opened EngineContract
  import opened Protocol
  import opened ProtocolSettle
  import opened ProtocolFinalize
  import opened ProtocolApply
  import opened ProtocolSync
  import opened ProtocolTick
  import opened ProtocolCommands
  import opened ProtocolRun
  import opened ProtocolOrder

  /** The id was handed out, and no configuration tracks it. */
  ghost predicate Spent(s: Service, used: set<MatchID>, m: MatchID) {
    m in used && forall d :: !Tracked(s, d, m)
  }

  // ----- the passes of a tick

  lemma FinalizeMatchSilent(g: Session, x: TickInput, w: Work, used: set<MatchID>, mt: Match, m: MatchID)
    requires TickMid(g, x, w, used) && Ready(x, w.svc, used, mt) && Spent(w.svc, used, m)
    ensures var v := FinalizeMatch(x, w, mt);
            AboutMatch(v.batch, m) == AboutMatch(w.batch, m) && Spent(v.svc, used + {mt.newID}, m)
  {
    hide FinalizeMatch, Key, Mid, Grew, EndedInTick, AnnouncedID, Success, TrackerAfter, Finalizable, Named, AboutMatch,
         Concluded, TicketRel;
    ReadyCases(g, x, w, used, mt);
    forall id <- mt.ticketIDs ensures id in w.svc.tickets && Finalizable(x, w.svc.tickets[id], id) {
      ReadyTicket(g, x, w, used, mt, id);
    }
    FinalizeMatchExact(x, w, mt);
    assert AnnouncedID(x, w.svc, mt) != m by {
      if x.acceptanceRequired { assert Tracked(w.svc, x.config, AnnouncedID(x, w.svc, mt)); }
    }
    var v := FinalizeMatch(x, w, mt);
    forall d ensures !Tracked(v.svc, d, m) {
      assert !Tracked(w.svc, d, m);
      if d == x.config { ForgetsMore(w.svc.TrackerOf(d), AnnouncedID(x, w.svc, mt), m); }
    }
  }

  lemma ForgetsMore(t: Tracker, k: MatchID, m: MatchID)
    requires m !in t.byMatch
    ensures m !in t.Forget(k).byMatch
  {
    hide Key;
  }

  lemma {:induction false} FinalizeSilent(g: Session, x: TickInput, w: Work, used: set<MatchID>, matches: seq<Match>, m: MatchID)
    requires TickMid(g, x, w, used) && MatchesApart(matches) && Spent(w.svc, used, m)
    requires forall mt <- matches :: Ready(x, w.svc, used, mt)
    ensures var v := Finalize(x, w, matches);
            AboutMatch(v.batch, m) == AboutMatch(w.batch, m) && Spent(v.svc, used + MatchNewIDs(matches), m)
    decreases |matches|
  {
    hide FinalizeMatch, TickMid, Ready, AboutMatch, Tracked, Proposed;
    if matches != [] {
      hide Finalize;
      assert matches[0] in matches;
      FinalizeMatchSilent(g, x, w, used, matches[0], m);
      FinalizeFirst(g, x, w, used, matches);
      FinalizeSilent(g, x, FinalizeMatch(x, w, matches[0]), used + {matches[0].newID}, matches[1..], m);
    }
  }

  lemma ApplyOneSilent(g: Session, x: TickInput, w: Work, used: set<MatchID>, p: Proposal, m: MatchID)
    requires TickMid(g, x, w, used) && Appliable(x, w.svc, used, p) && Spent(w.svc, used, m)
    ensures var v := ApplyProposal(x, w, p);
            AboutMatch(v.batch, m) == AboutMatch(w.batch, m) && Spent(v.svc, used + {p.newID}, m)
  {
    hide ApplyProposal, Key, Mid, Grew, EndedInTick, Named, AboutMatch, Joined, Assignable, SameProposal;
    if k :| TrackedAs(x, w.svc, p, k) {
      ApplyKnown(g, x, w, used, p, k);
    } else {
      NewReady(g, x, w, used, p);
      ApplyNewExact(x, w, p);
      var v := ApplyProposal(x, w, p);
      forall d ensures !Tracked(v.svc, d, m) {
        assert !Tracked(w.svc, d, m);
      }
    }
  }

  lemma {:induction false} ApplySilent(g: Session, x: TickInput, w: Work, used: set<MatchID>, pending: seq<Proposal>, m: MatchID)
    requires TickMid(g, x, w, used) && ProposalsApart(pending) && Spent(w.svc, used, m)
    requires forall p <- pending :: Appliable(x, w.svc, used, p)
    ensures var v := Apply(x, w, pending);
            AboutMatch(v.batch, m) == AboutMatch(w.batch, m) && Spent(v.svc, used + ProposalNewIDs(pending), m)
    decreases |pending|
  {
    hide ApplyProposal, TickMid, Appliable, AboutMatch, Tracked, AddedTo;
    if pending != [] {
      hide Apply;
      assert pending[0] in pending;
      ApplyOneSilent(g, x, w, used, pending[0], m);
      ApplyFirst(g, x, w, used, pending);
      ApplySilent(g, x, ApplyProposal(x, w, pending[0]), used + {pending[0].newID}, pending[1..], m);
    }
  }

  /** After the first pass, the rest of a contracted tick says nothing about a match that is over. */
  lemma LaterPassesSilent(g: Session, x: TickInput, m: MatchID)
    requires Contracted(g, x)
    requires Spent(Settle(x, Begun(g, x), x.order).svc, g.used, m)
    ensures var w1, v := Settle(x, Begun(g, x), x.order), Passes(x, g.world.svc);
            AboutMatch(v.batch, m) == AboutMatch(w1.batch, m) && Spent(v.svc, g.used + TickIDs(x), m)
  {
    var w1 := Settle(x, Begun(g, x), x.order);
    var w2 := Finalize(x, w1, x.engine.matches);
    var w3 := Apply(x, w2, x.engine.pending);
    assert g.used + TickIDs(x) == g.used + MatchNewIDs(x.engine.matches) + ProposalNewIDs(x.engine.pending);
    hide Contracted, Settled, TickMid, OnlyPending, Settle, Finalize, Apply, Sync, Mirrors, TickIDs, MatchNewIDs,
         ProposalNewIDs, AboutMatch, Spent, SameAbout;
    AfterSettle(g, x);
    AfterFinalize(g, x, w1);
    AfterApply(g, x, w2);
    NotFailed(g, x, w3, g.used + TickIDs(x));
    AfterSync(g, x, w3, g.used + TickIDs(x));
    FinalizeSilentOf(g, x, w1, m);
    ApplySilentOf(g, x, w2, m);
    SyncSilent(w3, Sync(x, w3), g.used + TickIDs(x), m);
  }

  lemma SyncSilent(w: Work, v: Work, used: set<MatchID>, m: MatchID)
    requires v.svc.trackers == w.svc.trackers && SameAbout(w.batch, v.batch) && Spent(w.svc, used, m)
    ensures AboutMatch(v.batch, m) == AboutMatch(w.batch, m) && Spent(v.svc, used, m)
  {
    hide AboutMatch;
    forall d ensures !Tracked(v.svc, d, m) { assert !Tracked(w.svc, d, m) && v.svc.TrackerOf(d) == w.svc.TrackerOf(d); }
  }

  lemma FinalizeSilentOf(g: Session, x: TickInput, w: Work, m: MatchID)
    requires Contracted(g, x) && Settled(g, x, w) && Spent(w.svc, g.used, m)
    ensures var v := Finalize(x, w, x.engine.matches);
            AboutMatch(v.batch, m) == AboutMatch(w.batch, m) && Spent(v.svc, g.used + MatchNewIDs(x.engine.matches), m)
  {
    hide Inv, Sound, Finalize, TickMid, Failing, Ready, AboutMatch, MatchNewIDs, RostersOk, IDsOk, CallsOk, PendingOk,
         AcceptanceOk, AbsorbingOk, FailedProposalsOk;
    RostersApart(g, x);
    hide Contracted;
    forall mt <- x.engine.matches ensures Ready(x, w.svc, g.used, mt) { MatchReady(g, x, w, mt); }
    FinalizeSilent(g, x, w, g.used, x.engine.matches, m);
  }

  lemma ApplySilentOf(g: Session, x: TickInput, w: Work, m: MatchID)
    requires Contracted(g, x) && TickMid(g, x, w, g.used + MatchNewIDs(x.engine.matches)) && OnlyPending(x, w.svc)
    requires Spent(w.svc, g.used + MatchNewIDs(x.engine.matches), m)
    ensures var v := Apply(x, w, x.engine.pending);
            && AboutMatch(v.batch, m) == AboutMatch(w.batch, m)
            && Spent(v.svc, g.used + MatchNewIDs(x.engine.matches) + ProposalNewIDs(x.engine.pending), m)
  {
    hide Inv, Sound, Apply, TickMid, AboutMatch, Appliable, OnlyPending, RostersOk, IDsOk, CallsOk, PendingOk,
         AcceptanceOk, AbsorbingOk, FailedProposalsOk, ProposalNewIDs;
    RostersApart(g, x);
    hide Contracted;
    forall p <- x.engine.pending ensures Appliable(x, w.svc, g.used + MatchNewIDs(x.engine.matches), p) {
      ProposalGood(g, x, p);
      ProposalAppliable(g, x, w, g.used + MatchNewIDs(x.engine.matches), p);
    }
    ApplySilent(g, x, w, g.used + MatchNewIDs(x.engine.matches), x.engine.pending, m);
  }

  // ----- the first pass

  /** The first pass closes a proposal that failed, with the events `Closing` gives, and it is over. */
  lemma SettledSpent(g: Session, x: TickInput, m: MatchID)
    requires Contracted(g, x) && Failing(x, g.world.svc, m)
    ensures var w1 := Settle(x, Begun(g, x), x.order);
            AboutMatch(w1.batch, m) == Closing(x, g.world.svc, m) && Spent(w1.svc, g.used, m)
  {
    var w1 := Settle(x, Begun(g, x), x.order);
    hide Contracted, Settled, Failing, Closing, Settle, AboutMatch, Spent;
    SettleEvents(g, x, m);
    ListedFailing(g, x, m);
    AfterSettle(g, x);
    TrackedHere(g, x, m);
    SettledUntracked(g, x, w1, m);
  }

  lemma ListedFailing(g: Session, x: TickInput, m: MatchID)
    requires Contracted(g, x) && Failing(x, g.world.svc, m)
    ensures m in x.order && Failing(x, Begun(g, x).svc, m) && Closing(x, Begun(g, x).svc, m) == Closing(x, g.world.svc, m)
  {
    SameFailing(x, g.world.svc, Begun(g, x).svc, m);
    FailingTracked(x, g.world.svc, m);
    hide Contracted, Failing, Closing;
    OrderTracked(g, x);
  }

  lemma FailingTracked(x: TickInput, s: Service, m: MatchID)
    requires Failing(x, s, m)
    ensures Tracked(s, x.config, m)
  {
  }

  /** Whether a proposal fails, and how that is announced, depends on its tracker and the tickets alone. */
  lemma SameFailing(x: TickInput, s: Service, r: Service, m: MatchID)
    requires r.TrackerOf(x.config) == s.TrackerOf(x.config) && r.tickets == s.tickets && Failing(x, s, m)
    ensures Failing(x, r, m) && Closing(x, r, m) == Closing(x, s, m)
  {
    hide StillPending, Matched, Rejects;
  }

  lemma SettledUntracked(g: Session, x: TickInput, w1: Work, m: MatchID)
    requires w1 == Settle(x, Begun(g, x), x.order) && Settled(g, x, w1) && m in g.used
    requires Tracked(g.world.svc, x.config, m) ==> Failing(x, g.world.svc, m)
    requires forall d | d != x.config :: !Tracked(g.world.svc, d, m)
    ensures Spent(w1.svc, g.used, m)
  {
    hide TickMid, Failing, Within, Settle;
    forall d ensures !Tracked(w1.svc, d, m) {
      if d != x.config {
        SettleOtherTrackers(x, Begun(g, x), x.order, d);
        assert !Tracked(g.world.svc, d, m);
      }
    }
  }

  lemma TrackedHere(g: Session, x: TickInput, m: MatchID)
    requires Contracted(g, x) && Failing(x, g.world.svc, m)
    ensures Tracked(g.world.svc, x.config, m) && m in g.used
    ensures forall d | d != x.config :: !Tracked(g.world.svc, d, m)
  {
    var w := Work(g.world.svc, [], false);
    hide TickContract, Sound, Mid, Mirrors, EngineKnows, MatchRel, StillPending, Matched;
    OpenMatch(g, w, g.used, x.config, m);
    forall d | d != x.config ensures !Tracked(g.world.svc, d, m) {
      if Tracked(g.world.svc, d, m) { TrackedOnce(g, w, g.used, x.config, d, m); }
    }
  }

  lemma SettleEvents(g: Session, x: TickInput, m: MatchID)
    requires Contracted(g, x)
    ensures AboutMatch(Settle(x, Begun(g, x), x.order).batch, m)
            == if m in x.order && Failing(x, Begun(g, x).svc, m) then Closing(x, Begun(g, x).svc, m) else []
  {
    var w := Begun(g, x);
    BegunMid(g, x);
    BegunFailed(g, x);
    OrderTracked(g, x);
    NothingAbout("", m);
    hide TickMid, FailedStatuses, Contracted, Failing, Closing, Settle, AboutMatch, Fate;
    SettleFate(g, x, w, g.used, x.order);
    assert MatchFate(x, w, Settle(x, w, x.order), x.order, m);
    assert forall c: seq<Event> :: [] + c == c;
  }

  /** The first pass says nothing about a match that was over before. */
  lemma SettleSilent(g: Session, x: TickInput, m: MatchID)
    requires Contracted(g, x) && Spent(g.world.svc, g.used, m)
    ensures var w1 := Settle(x, Begun(g, x), x.order);
            AboutMatch(w1.batch, m) == [] && Spent(w1.svc, g.used, m)
  {
    var w1 := Settle(x, Begun(g, x), x.order);
    hide Contracted, Settled, Settle, AboutMatch, Key, StillPending, Matched, Closing;
    SettleEvents(g, x, m);
    AfterSettle(g, x);
    assert Begun(g, x).svc.TrackerOf(x.config) == g.world.svc.TrackerOf(x.config);
    assert !Tracked(g.world.svc, x.config, m) && !Failing(x, Begun(g, x).svc, m);
    SettledUntracked(g, x, w1, m);
  }

  // ----- a whole tick

  /** What a whole tick generates about a match that is over after its first pass, the first pass has generated. */
  lemma TickSilent(g: Session, x: TickInput, m: MatchID)
    requires Contracted(g, x) && !x.refused && !x.engine.fails
    requires Spent(Settle(x, Begun(g, x), x.order).svc, g.used, m)
    ensures AboutMatch(RunTick(x, g.world.svc).batch, m) == AboutMatch(Settle(x, Begun(g, x), x.order).batch, m)
    ensures Spent(Advance(g, DoTick(x)).world.svc, Advance(g, DoTick(x)).used, m)
  {
    var s := g.world.svc;
    hide Contracted, Passes, TickMid, Mirrors, Settle, AboutMatch, RunTick, EngineAfterTick, NewIDs, TickIDs, Spent;
    LaterPassesSilent(g, x, m);
    PassesMid(g, x);
    NotFailed(g, x, Passes(x, s), g.used + TickIDs(x));
    RunTickPasses(x, s);
    TickIDsUsed(x);
    EvictCarried(Passes(x, s), x.config, x.now);
    assert Advance(g, DoTick(x)).world.svc == RunTick(x, s).svc;
    CarriedSpent(Passes(x, s), RunTick(x, s).svc, g.used + TickIDs(x), Advance(g, DoTick(x)).used, m);
  }

  lemma CarriedSpent(w: Work, s: Service, used: set<MatchID>, used': set<MatchID>, m: MatchID)
    requires Carried(w, s) && Spent(w.svc, used, m) && used <= used'
    ensures Spent(s, used', m)
  {
    forall d ensures !Tracked(s, d, m) { assert !Tracked(w.svc, d, m) && s.TrackerOf(d) == w.svc.TrackerOf(d); }
  }

  // ----- every command

  lemma {:induction false} NoneAbout(events: seq<Event>, m: MatchID)
    requires forall e <- events :: !e.About(m)
    ensures AboutMatch(events, m) == []
  {
    if events != [] {
      NoneAbout(events[..|events| - 1], m);
      assert events[|events| - 1] in events;
    }
  }

  /** A backfill command announces tickets, never a match. */
  lemma BackfillEvents(x: BackfillInput, s: Service)
    requires Fit(s)
    ensures forall e <- StartMatchBackfill(x, s).batch :: e.SearchingStarted? || e.MatchmakingCancelled?
  {
    hide StartMatchBackfill, PlanBackfill, ReplaceBackfill, SupersedeBackfill;
    if StartMatchBackfill(x, s).outcome.Fail? {
      FailedBackfillUndone(x, s);
    } else {
      SucceededPlan(x, s);
      PlanSound(x, s);
      ReplaceEvents(x, s, PlanBackfill(x, s).ticket, PlanBackfill(x, s).prior);
    }
  }

  lemma ReplaceEvents(x: BackfillInput, s: Service, t: TicketState, prior: Option<TicketState>)
    requires t.events == [SearchingStarted(t.id)] && (prior.Some? ==> prior.value.events == [])
    ensures forall e <- ReplaceBackfill(x, s.Reserve(t.id), t, prior).batch :: e.SearchingStarted? || e.MatchmakingCancelled?
  {
  }

  lemma AcceptSilent(g: Session, x: AcceptInput, m: MatchID)
    requires Inv(g) && Fit(g.world.svc) && Spent(g.world.svc, g.used, m)
    ensures AboutMatch(AcceptMatch(x, g.world.svc).batch, m) == []
  {
    var s, r := g.world.svc, AcceptMatch(x, g.world.svc);
    hide AcceptMatch, Inv, Dedupe, Fit, AboutMatch, MergedAcceptances;
    var e := AcceptCases(x, s);
    if r.outcome.Pass? {
      AcceptRecorded(g, x);
      RecordedEvents(Work(s, [], false), Work(r.svc, r.batch, false), x.ticketID, Dedupe(x.playerIDs), x.accepted);
      var t := s.tickets[x.ticketID];
      assert Tracked(s, t.config, t.matchID) && !Tracked(s, t.config, m);
    } else {
      NothingAbout("", m);
    }
  }

  /** A match that was over before a command or tick is over after it, and no event it generates is about the match. */
  lemma QuietStep(g: Session, cmd: Command, m: MatchID)
    requires Inv(g) && Sound(g.world) && Legal(g.world, cmd) && Contract(g, cmd) && Spent(g.world.svc, g.used, m)
    ensures AboutMatch(Effect(g.world.svc, cmd).1, m) == []
    ensures Spent(Advance(g, cmd).world.svc, Advance(g, cmd).used, m)
  {
    hide Inv, Sound, Advance, AboutMatch;
    match cmd
    case Start(x) => QuietStart(g, x, m);
    case Backfill(x) => QuietBackfill(g, x, m);
    case Accept(x) => QuietAccept(g, x, m);
    case Stop(x) => QuietStop(g, x, m);
    case DoTick(x) => QuietTick(g, x, m);
  }

  lemma QuietStart(g: Session, x: StartInput, m: MatchID)
    requires Spent(g.world.svc, g.used, m)
    ensures AboutMatch(Effect(g.world.svc, Start(x)).1, m) == []
    ensures Spent(Advance(g, Start(x)).world.svc, Advance(g, Start(x)).used, m)
  {
    StartCases(x, g.world.svc);
    hide StartMatchmaking, AboutMatch, Spent;
    NoneAbout(StartMatchmaking(x, g.world.svc).batch, m);
    SpentStays(g.world.svc, StartMatchmaking(x, g.world.svc).svc, g.used, m);
  }

  lemma QuietBackfill(g: Session, x: BackfillInput, m: MatchID)
    requires Inv(g) && Sound(g.world) && PlainID(x.start.ticketID) && PlainID(x.start.generatedID)
    requires Spent(g.world.svc, g.used, m)
    ensures AboutMatch(Effect(g.world.svc, Backfill(x)).1, m) == []
    ensures Spent(Advance(g, Backfill(x)).world.svc, Advance(g, Backfill(x)).used, m)
  {
    hide StartMatchBackfill, AboutMatch, Mid, Inv, Spent;
    BackfillMid(g, x);
    BackfillEvents(x, g.world.svc);
    hide Sound;
    NoneAbout(StartMatchBackfill(x, g.world.svc).batch, m);
    SpentStays(g.world.svc, StartMatchBackfill(x, g.world.svc).svc, g.used, m);
  }

  lemma QuietAccept(g: Session, x: AcceptInput, m: MatchID)
    requires Inv(g) && Sound(g.world) && Spent(g.world.svc, g.used, m)
    ensures AboutMatch(Effect(g.world.svc, Accept(x)).1, m) == []
    ensures Spent(Advance(g, Accept(x)).world.svc, Advance(g, Accept(x)).used, m)
  {
    hide AcceptMatch, AboutMatch, Mid, Inv, Spent;
    AcceptMid(g, x);
    AcceptSilent(g, x, m);
    hide Sound;
    SpentStays(g.world.svc, AcceptMatch(x, g.world.svc).svc, g.used, m);
  }

  lemma QuietStop(g: Session, x: StopInput, m: MatchID)
    requires Spent(g.world.svc, g.used, m)
    ensures AboutMatch(Effect(g.world.svc, Stop(x)).1, m) == []
    ensures Spent(Advance(g, Stop(x)).world.svc, Advance(g, Stop(x)).used, m)
  {
    hide Spent;
    SpentStays(g.world.svc, StopMatchmaking(x, g.world.svc).svc, g.used, m);
  }

  lemma QuietTick(g: Session, x: TickInput, m: MatchID)
    requires Inv(g) && Sound(g.world) && Legal(g.world, DoTick(x)) && Contract(g, DoTick(x))
    requires Spent(g.world.svc, g.used, m)
    ensures AboutMatch(Effect(g.world.svc, DoTick(x)).1, m) == []
    ensures Spent(Advance(g, DoTick(x)).world.svc, Advance(g, DoTick(x)).used, m)
  {
    if x.refused || x.engine.fails {
      NothingAbout("", m);
    } else {
      assert Contracted(g, x);
      hide Contracted, RunTick, Advance, Spent, Settle;
      SettleSilent(g, x, m);
      TickSilent(g, x, m);
    }
  }

  lemma SpentStays(s: Service, r: Service, used: set<MatchID>, m: MatchID)
    requires Spent(s, used, m) && forall d :: r.TrackerOf(d) == s.TrackerOf(d)
    ensures Spent(r, used, m)
  {
    forall d ensures !Tracked(r, d, m) { assert !Tracked(s, d, m); }
  }
}
