/**
 What every tick achieves and leaves alone whatever the engine answers: it ends each active ticket the engine reports as
 ended, it never touches a client's intent to cancel, and its sweep removes exactly the tickets whose retention is over.
 */
module AnyTick {
  import opened Wrappers
  import opened Domain
  import opened RosterKey
  import opened ProposalTracking
  import opened ServiceState
  import opened Tick
  import opened Commands
  import opened Runs
  import opened AnyEngine
  import opened AnyRun
  import opened Traces
  import opened Outcomes
  import opened TicketMoves
  import AnyTicket

  // ----- the client's intent to cancel

  ghost predicate IDsMatch(w: Work) {
    forall id <- w.svc.tickets :: w.svc.tickets[id].id == id
  }

  /** The same tickets, each with the same intent. */
  ghost predicate SameIntent(a: Work, b: Work) {
    && IDsMatch(b) && b.svc.tickets.Keys == a.svc.tickets.Keys
    && forall id <- a.svc.tickets :: b.svc.tickets[id].cancelByAPI == a.svc.tickets[id].cancelByAPI
  }

  /** The ticket keeps its id and the intent. */
  predicate Intends(w: Work, u: TicketState) {
    u.id in w.svc.tickets && u.cancelByAPI == w.svc.tickets[u.id].cancelByAPI
  }

  lemma StoredIntent(w: Work, u: TicketState)
    requires IDsMatch(w) && Intends(w, u)
    ensures SameIntent(w, w.Store(u)) && SameIntent(w, w.Abort(u)) && SameIntent(w, w.(svc := w.svc.Save(u)))
  {
    hide Work.Store, Work.Abort, Service.Save, SameIntent, IDsMatch, TicketState.Drained;
    StoredAs(w, u);
    SavedAs(w.svc, u);
    AbortedAs(w, u);
    PutIntent(w, w.Store(u), u, u.Drained());
    PutIntent(w, w.Abort(u), u, u);
    PutIntent(w, w.(svc := w.svc.Save(u)), u, u);
  }

  lemma AbortedAs(w: Work, u: TicketState)
    ensures w.Abort(u).svc.tickets == w.svc.tickets[u.id := u]
    ensures u.Drained().id == u.id && u.Drained().cancelByAPI == u.cancelByAPI
  {
  }

  lemma PutIntent(w: Work, v: Work, u: TicketState, stored: TicketState)
    requires IDsMatch(w) && Intends(w, u) && stored.id == u.id && stored.cancelByAPI == u.cancelByAPI
    requires v.svc.tickets == w.svc.tickets[u.id := stored]
    ensures SameIntent(w, v)
  {
  }

  lemma SavedAs(s: Service, u: TicketState)
    ensures s.Save(u).tickets == s.tickets[u.id := u]
  {
  }

  lemma FromEngineIntent(x: TickInput, t: TicketState, curr: TicketStatus)
    ensures var u := CaptureRuleMetrics(x, t, curr); u.id == t.id && u.cancelByAPI == t.cancelByAPI
    ensures var r := FromEngine(x, t, curr); r.Some? ==> r.value.id == t.id && r.value.cancelByAPI == t.cancelByAPI
    ensures forall reason :: var r := t.ReturnToSearching(reason);
              r.Some? ==> r.value.id == t.id && r.value.cancelByAPI == t.cancelByAPI
  {
    hide TicketState.ReturnToSearching, CaptureRuleMetrics;
    CapturedIntent(x, t, curr);
    forall reason ensures var r := t.ReturnToSearching(reason);
                          r.Some? ==> r.value.id == t.id && r.value.cancelByAPI == t.cancelByAPI {
      ReturnIntent(t, reason);
    }
  }

  lemma CapturedIntent(x: TickInput, t: TicketState, curr: TicketStatus)
    ensures var u := CaptureRuleMetrics(x, t, curr); u.id == t.id && u.cancelByAPI == t.cancelByAPI
  {
  }

  lemma ReturnIntent(t: TicketState, reason: string)
    ensures var r := t.ReturnToSearching(reason); r.Some? ==> r.value.id == t.id && r.value.cancelByAPI == t.cancelByAPI
  {
    hide SeatedTeams;
  }

  lemma SettleTicketIntent(x: TickInput, w: Work, id: TicketID)
    requires IDsMatch(w)
    ensures SameIntent(w, SettleTicket(x, w, id))
  {
    hide FromEngine, CaptureRuleMetrics, TicketState.ReturnToSearching, Work.Store, Work.Abort;
    if id in w.svc.tickets && w.svc.tickets[id].status.RequiresAcceptance? && id in x.engine.status {
      var curr := x.engine.status[id];
      var t := CaptureRuleMetrics(x, w.svc.tickets[id], curr);
      FromEngineIntent(x, w.svc.tickets[id], curr);
      FromEngineIntent(x, t, curr);
      var r := if curr.RequiresAcceptance? then t.ReturnToSearching("ACCEPTANCE_FAILED") else FromEngine(x, t, curr);
      StoredIntent(w, if r.Some? then r.value else t);
    }
  }

  lemma {:induction false} SettleTicketsIntent(x: TickInput, w: Work, ids: seq<TicketID>)
    requires IDsMatch(w)
    ensures SameIntent(w, SettleTickets(x, w, ids))
    decreases |ids|
  {
    hide SettleTicket;
    if !w.failed && ids != [] {
      SettleTicketIntent(x, w, ids[0]);
      SettleTicketsIntent(x, SettleTicket(x, w, ids[0]), ids[1..]);
    }
  }

  lemma {:induction false} SettleIntent(x: TickInput, w: Work, order: seq<MatchID>)
    requires IDsMatch(w)
    ensures SameIntent(w, Settle(x, w, order))
    decreases |order|
  {
    hide SettleProposal;
    if !w.failed && order != [] {
      SettleProposalIntent(x, w, order[0]);
      SettleIntent(x, SettleProposal(x, w, order[0]), order[1..]);
    }
  }

  lemma SettleProposalIntent(x: TickInput, w: Work, m: MatchID)
    requires IDsMatch(w)
    ensures SameIntent(w, SettleProposal(x, w, m))
  {
    hide Key, SettleTickets, StillPending, Matched, SomeStopped, FailureOutcome, Tracker.Forget;
    var tracker := w.svc.TrackerOf(x.config);
    if m in tracker.byMatch {
      var ids := tracker.byMatch[m];
      var w1 := if SomeStopped(w.svc, ids) then w else w.Add(AcceptMatchCompleted(m, ids, FailureOutcome(w.svc, x.config, m)));
      SettleTicketsIntent(x, w1, ids);
    }
  }

  lemma FinalizeTicketIntent(x: TickInput, w: Work, m: MatchID, teams: map<PlayerID, string>, id: TicketID)
    requires IDsMatch(w)
    ensures SameIntent(w, FinalizeTicket(x, w, m, teams, id).0)
  {
    hide Work.Abort, Service.Save, TicketState.SetPlayerTeams, TicketState.MoveToPlacing, TicketState.Complete, SameIntent, IDsMatch;
    if id in w.svc.tickets {
      var t := w.svc.tickets[id].SetPlayerTeams(teams);
      var placed := if t.status.Placing? then Some(t) else t.MoveToPlacing(m);
      MovesIntent(w.svc.tickets[id], m, teams, x.now);
      MovesIntent(t, m, teams, x.now);
      NamedAs(w, id);
      StoredIntent(w, t);
      if placed.Some? {
        MovesIntent(placed.value, m, teams, x.now);
        StoredIntent(w, placed.value);
        var done := placed.value.Complete(x.now);
        if done.Some? { StoredIntent(w, done.value); }
      }
    } else {
      SameIntentSelf(w);
    }
  }

  lemma NamedAs(w: Work, id: TicketID)
    requires IDsMatch(w) && id in w.svc.tickets
    ensures w.svc.tickets[id].id == id
  {
  }

  lemma SameIntentSelf(w: Work)
    requires IDsMatch(w)
    ensures SameIntent(w, w)
  {
  }

  lemma MovesIntent(t: TicketState, m: MatchID, teams: map<PlayerID, string>, now: Time)
    ensures t.SetPlayerTeams(teams).id == t.id && t.SetPlayerTeams(teams).cancelByAPI == t.cancelByAPI
    ensures t.MoveToPlacing(m).Some? ==>
              t.MoveToPlacing(m).value.id == t.id && t.MoveToPlacing(m).value.cancelByAPI == t.cancelByAPI
    ensures t.Complete(now).Some? ==> t.Complete(now).value.id == t.id && t.Complete(now).value.cancelByAPI == t.cancelByAPI
  {
    hide TeamsOf;
  }

  lemma {:induction false} FinalizeTicketsIntent(x: TickInput, w: Work, m: MatchID, teams: map<PlayerID, string>,
                                                 ids: seq<TicketID>, settled: bool)
    requires IDsMatch(w)
    ensures SameIntent(w, FinalizeTickets(x, w, m, teams, ids, settled).0)
    decreases |ids|
  {
    hide FinalizeTicket;
    if !w.failed && ids != [] {
      FinalizeTicketIntent(x, w, m, teams, ids[0]);
      var (w1, s1) := FinalizeTicket(x, w, m, teams, ids[0]);
      FinalizeTicketsIntent(x, w1, m, teams, ids[1..], settled || s1);
    }
  }

  lemma FinalizeMatchIntent(x: TickInput, w: Work, m: Match)
    requires IDsMatch(w)
    ensures SameIntent(w, FinalizeMatch(x, w, m))
  {
    hide Key, FinalizeTickets, Tracker.Forget, Tracker.AssignAt;
    var tracker := w.svc.TrackerOf(x.config);
    var known := tracker.Known(m.ticketIDs);
    var k := if known.Some? then known.value else m.newID;
    var w1 := if known.Some? then w else w.(svc := w.svc.SetTracker(x.config, tracker.AssignAt(m.ticketIDs, k, 0)));
    FinalizeTicketsIntent(x, w1, k, m.teams, m.ticketIDs, false);
  }

  lemma {:induction false} FinalizeIntent(x: TickInput, w: Work, matches: seq<Match>)
    requires IDsMatch(w)
    ensures SameIntent(w, Finalize(x, w, matches))
    decreases |matches|
  {
    hide FinalizeMatch;
    if !w.failed && matches != [] {
      FinalizeMatchIntent(x, w, matches[0]);
      FinalizeIntent(x, FinalizeMatch(x, w, matches[0]), matches[1..]);
    }
  }

  lemma {:induction false} AssignTicketsIntent(w: Work, m: MatchID, teams: map<PlayerID, string>, ids: seq<TicketID>)
    requires IDsMatch(w)
    ensures SameIntent(w, AssignTickets(w, m, teams, ids))
    decreases |ids|
  {
    hide AssignTicket;
    if !w.failed && ids != [] {
      AssignTicketIntent(w, m, teams, ids[0]);
      AssignTicketsIntent(AssignTicket(w, m, teams, ids[0]), m, teams, ids[1..]);
    }
  }

  lemma AssignTicketIntent(w: Work, m: MatchID, teams: map<PlayerID, string>, id: TicketID)
    requires IDsMatch(w)
    ensures SameIntent(w, AssignTicket(w, m, teams, id))
  {
    hide Work.Abort, Service.Save, TeamsOf;
    if id in w.svc.tickets {
      StoredIntent(w, w.svc.tickets[id]);
      var r := w.svc.tickets[id].AssignToProposal(m);
      if r.Some? { StoredIntent(w, r.value.SetPlayerTeams(teams)); }
    }
  }

  lemma {:induction false} ApplyIntent(x: TickInput, w: Work, pending: seq<Proposal>)
    requires IDsMatch(w)
    ensures SameIntent(w, Apply(x, w, pending))
    decreases |pending|
  {
    hide ApplyProposal;
    if !w.failed && pending != [] {
      ApplyProposalIntent(x, w, pending[0]);
      ApplyIntent(x, ApplyProposal(x, w, pending[0]), pending[1..]);
    }
  }

  lemma ApplyProposalIntent(x: TickInput, w: Work, p: Proposal)
    requires IDsMatch(w)
    ensures SameIntent(w, ApplyProposal(x, w, p))
  {
    hide Key, AssignTickets, Tracker.AssignAt;
    var tracker := w.svc.TrackerOf(x.config);
    AssignTicketsIntent(w.(svc := w.svc.SetTracker(x.config, tracker.AssignAt(p.ticketIDs, p.newID, p.createdAt))),
                        p.newID, p.teams, p.ticketIDs);
  }

  lemma SyncTicketIntent(x: TickInput, w: Work, settled: set<MatchID>, id: TicketID)
    requires IDsMatch(w)
    ensures SameIntent(w, SyncTicket(x, w, settled, id).0)
  {
    hide FromEngine, CaptureRuleMetrics, TicketState.ReturnToSearching, Work.Store, Work.Abort, SameIntent, SyncTicket, IDsMatch;
    SameIntentSelf(w);
    if id in w.svc.tickets && id in x.engine.statusAfter {
      var curr := x.engine.statusAfter[id];
      var t := CaptureRuleMetrics(x, w.svc.tickets[id], curr);
      FromEngineIntent(x, w.svc.tickets[id], curr);
      FromEngineIntent(x, t, curr);
      NamedAs(w, id);
      var r := FromEngine(x, t, curr);
      StoredIntent(w, t);
      var w1 := SyncStores(x, w, settled, id);
      if r.Some? {
        SameIntentIn(w, w1, r.value);
      }
    } else {
      NothingSynced(x, w, settled, id);
    }
  }

  lemma NothingSynced(x: TickInput, w: Work, settled: set<MatchID>, id: TicketID)
    requires id !in w.svc.tickets || id !in x.engine.statusAfter
    ensures SyncTicket(x, w, settled, id) == (w, settled)
  {
  }

  /** The ticket is stored as the engine moved it, after an announcement or without; or an error leaves it mutated. */
  lemma SyncStores(x: TickInput, w: Work, settled: set<MatchID>, id: TicketID) returns (w1: Work)
    requires id in w.svc.tickets && id in x.engine.statusAfter
    ensures w1.svc.tickets == w.svc.tickets
    ensures var curr := x.engine.statusAfter[id];
            var t := CaptureRuleMetrics(x, w.svc.tickets[id], curr);
            var r, v := FromEngine(x, t, curr), SyncTicket(x, w, settled, id).0;
            if curr == w.svc.tickets[id].status then v == w
            else if r.None? then v == w.Abort(t)
            else v == w1.Store(r.value) && w1.failed == w.failed
  {
    hide FromEngine, CaptureRuleMetrics, FailureOutcome, Tracker.Forget, Work.Store, Work.Abort;
    w1 := w;
    var curr := x.engine.statusAfter[id];
    var t := CaptureRuleMetrics(x, w.svc.tickets[id], curr);
    if curr != w.svc.tickets[id].status && FromEngine(x, t, curr).Some? && SettlesAcceptance(t, curr)
       && t.matchID != "" && t.matchID !in settled {
      var tracker := w.svc.TrackerOf(x.config);
      var known := tracker.TicketsFor(t.matchID);
      w1 := w.Add(AcceptMatchCompleted(t.matchID, if known.Some? then known.value else [id],
                                       FailureOutcome(w.svc, x.config, t.matchID)));
      w1 := w1.(svc := w1.svc.SetTracker(x.config, tracker.Forget(t.matchID)));
    }
  }

  lemma SameIntentIn(w: Work, w1: Work, u: TicketState)
    requires IDsMatch(w) && Intends(w, u) && w1.svc.tickets == w.svc.tickets
    ensures SameIntent(w, w1.Store(u))
  {
    StoredIntent(w1, u);
    hide Work.Store;
  }

  lemma {:induction false} SyncIntent(x: TickInput, w: Work, settled: set<MatchID>, ids: seq<TicketID>)
    requires IDsMatch(w)
    ensures SameIntent(w, SyncTickets(x, w, settled, ids))
    decreases |ids|
  {
    hide SyncTicket;
    if !w.failed && ids != [] {
      SyncTicketIntent(x, w, settled, ids[0]);
      var (w1, s1) := SyncTicket(x, w, settled, ids[0]);
      SyncIntent(x, w1, s1, ids[1..]);
    }
  }

  /** No tick records or forgets a client's intent to cancel, whatever the engine answers. */
  lemma TickKeepsIntent(x: TickInput, s: Service, id: TicketID)
    requires Fit(s) && id in RunTick(x, s).svc.tickets
    ensures id in s.tickets && RunTick(x, s).svc.tickets[id].cancelByAPI == s.tickets[id].cancelByAPI
  {
    hide Settle, Finalize, Apply, SyncTickets;
    if !x.refused && !x.engine.fails {
      var w := Work(s.WithTracker(x.config), [], false);
      SettleIntent(x, w, x.order);
      var w1 := Settle(x, w, x.order);
      FinalizeIntent(x, w1, x.engine.matches);
      var w2 := Finalize(x, w1, x.engine.matches);
      ApplyIntent(x, w2, x.engine.pending);
      var w3 := Apply(x, w2, x.engine.pending);
      SyncIntent(x, w3, {}, SortedListing(w3.svc.Active(x.config)));
    }
  }

  // ----- when a ticket is meant to be cancelled

  /** The `j`-th command is a StopMatchmaking for the ticket, and succeeds. */
  ghost predicate StopsAt(worlds: seq<World>, cmds: seq<Command>, j: int, id: TicketID) {
    && 0 <= j < |cmds| && j < |worlds| && cmds[j].Stop? && cmds[j].stop.ticketID == id
    && StopMatchmaking(cmds[j].stop, worlds[j].svc).outcome.Pass?
  }

  /** The id has been registered all the time from the `j`-th state to the later `n`-th. */
  ghost predicate PresentSince(worlds: seq<World>, j: int, n: int, id: TicketID) {
    0 <= j < n < |worlds| && forall k | j <= k <= n :: id in worlds[k].svc.tickets
  }

  /** One command: the intent is recorded by a successful stop, and by nothing else; a new ticket has none. */
  lemma IntentStep(w: World, cmd: Command, id: TicketID)
    requires Sound(w) && Legal(w, cmd) && id in Exec(w, cmd).svc.tickets
    ensures Exec(w, cmd).svc.tickets[id].cancelByAPI <==>
              id in w.svc.tickets
              && (w.svc.tickets[id].cancelByAPI
                  || (cmd.Stop? && cmd.stop.ticketID == id && StopMatchmaking(cmd.stop, w.svc).outcome.Pass?))
  {
    SoundFits(w);
    hide Sound, StartMatchmaking, StartMatchBackfill, AcceptMatch, StopMatchmaking, RunTick, Fit;
    match cmd
    case Start(x) => StartEffect(x, w.svc);
    case Backfill(x) => BackfillIntent(w, x, id);
    case Accept(x) => AcceptEffect(x, w.svc);
    case Stop(x) => StopEffect(x, w.svc); StopOutcome(x, w.svc);
    case DoTick(x) => TickKeepsIntent(x, w.svc, id);
  }

  lemma BackfillIntent(w: World, x: BackfillInput, id: TicketID)
    requires Sound(w) && Fit(w.svc) && id in StartMatchBackfill(x, w.svc).svc.tickets
    ensures StartMatchBackfill(x, w.svc).svc.tickets[id].cancelByAPI <==>
              id in w.svc.tickets && w.svc.tickets[id].cancelByAPI
  {
    assert OneBackfillPerSession(w.svc) by { hide Fit, TicketSound; }
    hide Sound, StartMatchBackfill, Fit, OneBackfillPerSession, Outstanding;
    BackfillEffect(x, w.svc);
    var r := StartMatchBackfill(x, w.svc);
    if r.outcome.Pass? {
      FreeWhenPassed(w, x);
      if prior :| Outstanding(x, w.svc, prior) { PriorThere(x, w.svc, prior); }
    } else if Taken(x, w.svc) {
      var prior :| Outstanding(x, w.svc, prior) && HalfUndone(x, w.svc, r, prior);
      PriorThere(x, w.svc, prior);
    }
  }

  lemma PriorThere(x: BackfillInput, s: Service, prior: TicketID)
    requires Outstanding(x, s, prior)
    ensures prior in s.tickets && Superseded(x, s.tickets[prior]).cancelByAPI == s.tickets[prior].cancelByAPI
  {
  }

  lemma FreeWhenPassed(w: World, x: BackfillInput)
    requires Fit(w.svc) && OneBackfillPerSession(w.svc) && StartMatchBackfill(x, w.svc).outcome.Pass?
    ensures BackfillTicket(x).id !in w.svc.tickets && !BackfillTicket(x).cancelByAPI
  {
    BackfillOutcome(x, w.svc);
  }

  lemma {:induction false} IntentMeans(worlds: seq<World>, cmds: seq<Command>, n: nat, id: TicketID)
    requires FromEmpty(worlds, cmds) && n < |worlds| && id in worlds[n].svc.tickets
    ensures worlds[n].svc.tickets[id].cancelByAPI <==>
              exists j :: StopsAt(worlds, cmds, j, id) && PresentSince(worlds, j, n, id)
  {
    hide Exec, Legal, Sound, StopMatchmaking;
    if n > 0 {
      NewWorldSound(worlds[0].svc.ticketRetention);
      RunSound(worlds, cmds, n - 1);
      assert Runs.Leads(worlds, cmds, n - 1);
      IntentStep(worlds[n - 1], cmds[n - 1], id);
      if id in worlds[n - 1].svc.tickets { IntentMeans(worlds, cmds, n - 1, id); }
      IntentCases(worlds, cmds, n, id);
    }
  }

  lemma IntentCases(worlds: seq<World>, cmds: seq<Command>, n: nat, id: TicketID)
    requires 0 < n < |worlds| && n <= |cmds| && id in worlds[n].svc.tickets
    ensures (exists j :: StopsAt(worlds, cmds, j, id) && PresentSince(worlds, j, n, id)) <==>
              id in worlds[n - 1].svc.tickets
              && (StopsAt(worlds, cmds, n - 1, id)
                  || exists j :: StopsAt(worlds, cmds, j, id) && PresentSince(worlds, j, n - 1, id))
  {
    hide StopMatchmaking;
    if j :| StopsAt(worlds, cmds, j, id) && PresentSince(worlds, j, n, id) {
      assert j == n - 1 || PresentSince(worlds, j, n - 1, id);
    }
    if id in worlds[n - 1].svc.tickets {
      if StopsAt(worlds, cmds, n - 1, id) { assert PresentSince(worlds, n - 1, n, id); }
      if j :| StopsAt(worlds, cmds, j, id) && PresentSince(worlds, j, n - 1, id) { assert PresentSince(worlds, j, n, id); }
    }
  }

  // ----- tickets the engine has ended

  /** If the pass meets no error, every listed ticket the engine reports as ended has ended. */
  lemma {:induction false} SyncEnds(x: TickInput, w: Work, settled: set<MatchID>, ids: seq<TicketID>, id: TicketID)
    requires Fit(w.svc) && NoDuplicates(ids) && !w.failed && !SyncTickets(x, w, settled, ids).failed
    requires forall k <- ids :: k in w.svc.tickets ==> !w.svc.tickets[k].Terminal()
    requires id in w.svc.tickets && id in x.engine.statusAfter && x.engine.statusAfter[id] in {Cancelled, TimedOut}
    requires id in ids || w.svc.tickets[id].Terminal()
    ensures var v := SyncTickets(x, w, settled, ids); id in v.svc.tickets && v.svc.tickets[id].Terminal()
    decreases |ids|
  {
    if ids != [] {
      var (w1, s1) := SyncTicket(x, w, settled, ids[0]);
      SyncTicketGrew(x, w, settled, ids[0]);
      if id == ids[0] { SyncEndsOne(x, w, settled, id); }
      FailedStays(x, w1, s1, ids[1..]);
      hide SyncTicket;
      SyncEndsRest(x, w, w1, ids, id);
      hide Grew, Fit;
      SyncEnds(x, w1, s1, ids[1..], id);
    }
  }

  lemma FailedStays(x: TickInput, w: Work, settled: set<MatchID>, ids: seq<TicketID>)
    ensures w.failed ==> SyncTickets(x, w, settled, ids) == w
  {
  }

  lemma SyncEndsRest(x: TickInput, w: Work, w1: Work, ids: seq<TicketID>, id: TicketID)
    requires ids != [] && NoDuplicates(ids) && id in w.svc.tickets && Grew(w, w1, x.now)
    requires forall k <- w.svc.tickets :: k != ids[0] ==> k in w1.svc.tickets && w1.svc.tickets[k] == w.svc.tickets[k]
    requires forall k <- ids :: k in w.svc.tickets ==> !w.svc.tickets[k].Terminal()
    requires id in ids || w.svc.tickets[id].Terminal()
    requires id == ids[0] ==> id in w1.svc.tickets && w1.svc.tickets[id].Terminal()
    ensures Fit(w1.svc) && id in w1.svc.tickets && (id in ids[1..] || w1.svc.tickets[id].Terminal())
    ensures forall k <- ids[1..] :: k in w1.svc.tickets ==> !w1.svc.tickets[k].Terminal()
  {
    hide Fit;
    forall k <- ids[1..] ensures k in w1.svc.tickets ==> !w1.svc.tickets[k].Terminal() {
      assert k in ids && k != ids[0];
    }
    assert Advanced(w, w1, x.now, id);
  }

  lemma SyncEndsOne(x: TickInput, w: Work, settled: set<MatchID>, id: TicketID)
    requires id in w.svc.tickets && w.svc.tickets[id].id == id && !w.svc.tickets[id].Terminal() && !w.failed
    requires id in x.engine.statusAfter && x.engine.statusAfter[id] in {Cancelled, TimedOut}
    requires !SyncTicket(x, w, settled, id).0.failed
    ensures var v := SyncTicket(x, w, settled, id).0; id in v.svc.tickets && v.svc.tickets[id].Terminal()
  {
    var w1 := SyncStores(x, w, settled, id);
    var curr := x.engine.statusAfter[id];
    var t := CaptureRuleMetrics(x, w.svc.tickets[id], curr);
    EndingMoves(x, w.svc.tickets[id], curr);
    hide SyncTicket, FromEngine, CaptureRuleMetrics;
    if FromEngine(x, t, curr).Some? {
      StoredAs(w1, FromEngine(x, t, curr).value);
      hide Work.Store;
    }
  }

  lemma EndingMoves(x: TickInput, t: TicketState, curr: TicketStatus)
    requires curr in {Cancelled, TimedOut}
    ensures var r := FromEngine(x, CaptureRuleMetrics(x, t, curr), curr);
            r.Some? ==> r.value.Drained().Terminal() && r.value.id == t.id
  {
  }

  /**
   Whatever the engine answers, a tick that reports no error leaves no active ticket of its configuration that the engine
   reports as cancelled or timed out.
   */
  lemma EndedByTick(x: TickInput, s: Service, id: TicketID)
    requires Fit(s) && !RunTick(x, s).failed && id in RunTick(x, s).svc.tickets
    requires RunTick(x, s).svc.tickets[id].config == x.config && id in x.engine.statusAfter
    ensures x.engine.statusAfter[id] in {Cancelled, TimedOut} ==> RunTick(x, s).svc.tickets[id].status.IsTerminal()
  {
    var w1 := Settle(x, Work(s.WithTracker(x.config), [], false), x.order);
    var w3 := Apply(x, Finalize(x, w1, x.engine.matches), x.engine.pending);
    if !x.refused && !x.engine.fails && x.engine.statusAfter[id] in {Cancelled, TimedOut} {
      RunTickGrewFit(x, s);
      hide Settle, Finalize, Apply, SyncTickets, Fit, Grew;
      assert !w3.failed && RunTick(x, s) == Sync(x, w3).(svc := Sync(x, w3).svc.Evict(x.config, x.now));
      EvictKeeps(Sync(x, w3).svc, x.config, x.now, id);
      hide RunTick, Service.Evict;
      SyncEndsAll(x, w3, id);
    }
  }

  lemma RunTickGrewFit(x: TickInput, s: Service)
    requires Fit(s) && !x.refused && !x.engine.fails
    ensures var w1 := Settle(x, Work(s.WithTracker(x.config), [], false), x.order);
            Fit(Apply(x, Finalize(x, w1, x.engine.matches), x.engine.pending).svc)
  {
    hide Settle, Finalize, Apply, Grew, Fit;
    var w, w0 := Work(s, [], false), Work(s.WithTracker(x.config), [], false);
    GrewTracker(w, x.config, s.TrackerOf(x.config), x.now);
    GrewFit(w, w0, x.now);
    var w1 := Settle(x, w0, x.order);
    SettleGrew(x, w0, x.order);
    GrewFit(w0, w1, x.now);
    var w2 := Finalize(x, w1, x.engine.matches);
    FinalizeGrew(x, w1, x.engine.matches);
    GrewFit(w1, w2, x.now);
    ApplyGrew(x, w2, x.engine.pending);
    GrewFit(w2, Apply(x, w2, x.engine.pending), x.now);
  }

  lemma EvictKeeps(s: Service, c: ConfigurationName, now: Time, id: TicketID)
    requires id in s.Evict(c, now).tickets
    ensures id in s.tickets && s.Evict(c, now).tickets[id] == s.tickets[id]
  {
  }

  lemma SyncEndsAll(x: TickInput, w: Work, id: TicketID)
    requires Fit(w.svc) && !w.failed && !Sync(x, w).failed && id in Sync(x, w).svc.tickets
    requires Sync(x, w).svc.tickets[id].config == x.config
    requires id in x.engine.statusAfter && x.engine.statusAfter[id] in {Cancelled, TimedOut}
    ensures Sync(x, w).svc.tickets[id].Terminal()
  {
    SyncGrew(x, w);
    var ids := SortedListing(w.svc.Active(x.config));
    ListingDistinct(ids, w.svc.Active(x.config));
    assert Advanced(w, Sync(x, w), x.now, id) by { assert id in w.svc.tickets; }
    hide Grew, SyncTickets;
    assert w.svc.Indexed(x.config, id);
    forall k <- ids ensures k in w.svc.tickets ==> !w.svc.tickets[k].Terminal() {
      assert w.svc.Indexed(x.config, k);
    }
    SyncEnds(x, w, {}, ids, id);
  }

  // ----- the failures the fourth pass announces

  /** The engine has cancelled the ticket for want of acceptance of match `m`. */
  predicate Gives(x: TickInput, s: Service, id: TicketID, m: MatchID) {
    && id in s.tickets && s.tickets[id].matchID == m && id in x.engine.statusAfter
    && AnyTicket.Declines(s.tickets[id], x.engine.statusAfter[id])
  }

  /** What is announced about match `m`: at most its failure, once. */
  predicate FailsOnce(a: Work, b: Work, m: MatchID, once: bool) {
    if once then
      && |AboutMatch(b.batch, m)| == |AboutMatch(a.batch, m)| + 1 && AboutMatch(a.batch, m) <= AboutMatch(b.batch, m)
      && var e := AboutMatch(b.batch, m)[|AboutMatch(a.batch, m)|];
         e.AcceptMatchCompleted? && e.matchID == m && !e.outcome.Accepted?
    else AboutMatch(b.batch, m) == AboutMatch(a.batch, m)
  }

  lemma FailureAbout(w: Work, v: Work, e: Event, events: seq<Event>, m: MatchID)
    requires v.batch == w.batch + [e] + events && |events| <= 1 && (forall f <- events :: !f.About(m))
    requires e.AcceptMatchCompleted? && !e.outcome.Accepted?
    ensures FailsOnce(w, v, m, e.matchID == m)
  {
    AboutOne(w.batch, e, m);
    if events != [] {
      AboutOne(w.batch + [e], events[0], m);
      assert events == [events[0]];
    } else {
      assert w.batch + [e] + events == w.batch + [e];
    }
    hide AboutMatch;
  }

  lemma QuietAbout(w: Work, v: Work, events: seq<Event>, m: MatchID)
    requires v.batch == w.batch + events && |events| <= 1 && (forall f <- events :: !f.About(m))
    ensures FailsOnce(w, v, m, false)
  {
    if events != [] {
      AboutOne(w.batch, events[0], m);
      assert events == [events[0]];
    } else {
      assert w.batch + events == w.batch;
    }
    hide AboutMatch;
  }

  lemma StepAnnounces(x: TickInput, w: Work, settled: set<MatchID>, id: TicketID, m: MatchID)
    requires Fit(w.svc) && !w.failed
    ensures var (v, after) := SyncTicket(x, w, settled, id);
            && FailsOnce(w, v, m, m !in settled && Gives(x, w.svc, id, m))
            && (m in after <==> m in settled || (m !in settled && Gives(x, w.svc, id, m)))
  {
    var (v, after) := SyncTicket(x, w, settled, id);
    QuietAbout(w, w, [], m);
    if id in w.svc.tickets {
      assert AnyTicket.Here(w, id) by { FitTicket(w.svc, id); }
      hide Fit, FailsOnce;
      AnyTicket.SyncsOne(x, w, settled, id);
      if id in x.engine.statusAfter && x.engine.statusAfter[id] != w.svc.tickets[id].status {
        StepSays(x, w, v, settled, id, m);
      } else {
        NothingGiven(x, w.svc, id, m);
      }
    } else {
      NothingSynced(x, w, settled, id);
    }
    hide SyncTicket;
  }

  lemma NothingGiven(x: TickInput, s: Service, id: TicketID, m: MatchID)
    requires id in s.tickets && id in x.engine.statusAfter ==> x.engine.statusAfter[id] == s.tickets[id].status
    ensures !Gives(x, s, id, m)
  {
  }

  lemma StepSays(x: TickInput, w: Work, v: Work, settled: set<MatchID>, id: TicketID, m: MatchID)
    requires AnyTicket.Here(w, id) && id in x.engine.statusAfter && x.engine.statusAfter[id] != w.svc.tickets[id].status
    requires v == SyncTicket(x, w, settled, id).0
    ensures FailsOnce(w, v, m, m !in settled && Gives(x, w.svc, id, m))
  {
    hide SyncTicket, FailsOnce, EndedAs, EndEvent, Requeued, MetricsOf, AboutMatch, AnyTicket.Failure;
    var t, curr, c := w.svc.tickets[id], x.engine.statusAfter[id], x.config;
    AnyTicket.SyncsOne(x, w, settled, id);
    AboutTicket(x, w.svc, t, curr, m);
    if AnyTicket.Declines(t, curr) && t.matchID !in settled {
      var f, e := AnyTicket.Failure(w.svc, c, t), EndEvent(x, t, curr);
      assert v.batch == w.batch + [f] + [e] by { assert w.batch + [f, e] == w.batch + [f] + [e]; }
      FailureAbout(w, v, f, [e], m);
    } else {
      var e := if AnyTicket.Ends(curr) && (t.Terminal() || t.status.Placing?) then []
               else if AnyTicket.Ends(curr) then [EndEvent(x, t, curr)]
               else if AnyTicket.Pools(curr) && t.status.RequiresAcceptance? then [SearchingStarted(id)] else [];
      QuietAbout(w, v, e, m);
    }
  }

  lemma AboutTicket(x: TickInput, s: Service, t: TicketState, curr: TicketStatus, m: MatchID)
    ensures !EndEvent(x, t, curr).About(m)
    ensures var f := AnyTicket.Failure(s, x.config, t); f.AcceptMatchCompleted? && f.matchID == t.matchID && !f.outcome.Accepted?
  {
    hide EndedAs;
  }

  /** In the fourth pass a match's failure is announced at most once; and, if no error stops it, exactly if it should be. */
  lemma {:induction false} SyncAnnounces(x: TickInput, w: Work, settled: set<MatchID>, ids: seq<TicketID>, m: MatchID)
    requires Fit(w.svc) && NoDuplicates(ids) && !w.failed
    requires forall k <- ids :: k in w.svc.tickets ==> !w.svc.tickets[k].Terminal()
    ensures var v := SyncTickets(x, w, settled, ids);
            && (FailsOnce(w, v, m, false) || (m !in settled && FailsOnce(w, v, m, true)))
            && (!v.failed ==> FailsOnce(w, v, m, m !in settled && exists id <- ids :: Gives(x, w.svc, id, m)))
    decreases |ids|
  {
    hide Grew, Fit, Gives, FailsOnce;
    if ids == [] {
      NothingListed(x, w, settled, m);
    } else {
      var (w1, s1) := SyncTicket(x, w, settled, ids[0]);
      StepAnnounces(x, w, settled, ids[0], m);
      SyncTicketGrew(x, w, settled, ids[0]);
      GrewFit(w, w1, x.now);
      FailedStays(x, w1, s1, ids[1..]);
      hide SyncTicket;
      if !w1.failed {
        forall k <- ids[1..] ensures k in w1.svc.tickets ==> !w1.svc.tickets[k].Terminal() {
          StillActive(x, w, w1, ids, k);
        }
        SyncAnnounces(x, w1, s1, ids[1..], m);
        GivesLater(x, w, w1, ids, m);
        FailsTwice(w, w1, SyncTickets(x, w1, s1, ids[1..]), m);
      }
    }
  }

  lemma NothingListed(x: TickInput, w: Work, settled: set<MatchID>, m: MatchID)
    ensures SyncTickets(x, w, settled, []) == w && FailsOnce(w, w, m, false)
  {
  }

  lemma StillActive(x: TickInput, w: Work, w1: Work, ids: seq<TicketID>, k: TicketID)
    requires ids != [] && NoDuplicates(ids) && Grew(w, w1, x.now) && k in ids[1..]
    requires forall i <- w.svc.tickets :: i != ids[0] ==> i in w1.svc.tickets && w1.svc.tickets[i] == w.svc.tickets[i]
    requires forall i <- ids :: i in w.svc.tickets ==> !w.svc.tickets[i].Terminal()
    ensures k in ids && k != ids[0] && (k in w1.svc.tickets ==> !w1.svc.tickets[k].Terminal())
    ensures k in w1.svc.tickets <==> k in w.svc.tickets
  {
    hide Fit, Advanced;
  }

  lemma GivesLater(x: TickInput, w: Work, w1: Work, ids: seq<TicketID>, m: MatchID)
    requires ids != [] && NoDuplicates(ids) && Grew(w, w1, x.now)
    requires forall i <- w.svc.tickets :: i != ids[0] ==> i in w1.svc.tickets && w1.svc.tickets[i] == w.svc.tickets[i]
    requires forall i <- ids :: i in w.svc.tickets ==> !w.svc.tickets[i].Terminal()
    ensures (exists id <- ids :: Gives(x, w.svc, id, m)) <==>
              Gives(x, w.svc, ids[0], m) || exists id <- ids[1..] :: Gives(x, w1.svc, id, m)
  {
    hide Grew;
    forall id <- ids[1..] ensures Gives(x, w1.svc, id, m) <==> Gives(x, w.svc, id, m) { StillActive(x, w, w1, ids, id); }
    if id :| id in ids && Gives(x, w.svc, id, m) && id != ids[0] { assert id in ids[1..]; }
    if id :| id in ids[1..] && Gives(x, w1.svc, id, m) { assert id in ids && Gives(x, w.svc, id, m); }
  }

  lemma FailsTwice(w: Work, w1: Work, v: Work, m: MatchID)
    ensures FailsOnce(w, w1, m, false) && FailsOnce(w1, v, m, false) ==> FailsOnce(w, v, m, false)
    ensures FailsOnce(w, w1, m, false) && FailsOnce(w1, v, m, true) ==> FailsOnce(w, v, m, true)
    ensures FailsOnce(w, w1, m, true) && FailsOnce(w1, v, m, false) ==> FailsOnce(w, v, m, true)
  {
    hide AboutMatch;
  }

  // ----- the matches the second pass completes

  lemma {:induction false} FinalizeTicketsComplete(x: TickInput, w: Work, m: MatchID, teams: map<PlayerID, string>,
                                                   ids: seq<TicketID>, settled: bool)
    requires Fit(w.svc) && !w.failed && !FinalizeTickets(x, w, m, teams, ids, settled).0.failed
    ensures var v := FinalizeTickets(x, w, m, teams, ids, settled).0;
            forall id <- ids :: id in w.svc.tickets ==> id !in x.engine.completeFails && CompletedIn(v.svc, id)
    decreases |ids|
  {
    if ids != [] {
      var (w1, s1) := FinalizeTicket(x, w, m, teams, ids[0]);
      FinalizeTicketGrew(x, w, m, teams, ids[0]);
      GrewFit(w, w1, x.now);
      if ids[0] in w.svc.tickets {
        assert AnyTicket.Here(w, ids[0]) by { FitTicket(w.svc, ids[0]); }
        AnyTicket.FinalizesOne(x, w, m, teams, ids[0]);
      }
      FinalizeFailedStays(x, w1, m, teams, ids[1..], settled || s1);
      var v := FinalizeTickets(x, w, m, teams, ids, settled).0;
      hide FinalizeTicket;
      FinalizeTicketsComplete(x, w1, m, teams, ids[1..], settled || s1);
      FinalizeTicketsGrew(x, w1, m, teams, ids[1..], settled || s1);
      hide FinalizeTickets, Fit;
      if ids[0] in w.svc.tickets { CompletedStays(w1, v, x.now, ids[0]); }
      forall id <- ids | id in w.svc.tickets ensures id !in x.engine.completeFails && CompletedIn(v.svc, id) {
        assert id == ids[0] || id in ids[1..];
      }
    }
  }

  predicate CompletedIn(s: Service, id: TicketID) {
    id in s.tickets && s.tickets[id].status.Completed?
  }

  lemma CompletedStays(w: Work, v: Work, now: Time, id: TicketID)
    requires Grew(w, v, now) && CompletedIn(w.svc, id)
    ensures CompletedIn(v.svc, id)
  {
    hide Fit;
    assert Advanced(w, v, now, id);
  }

  lemma FinalizeFailedStays(x: TickInput, w: Work, m: MatchID, teams: map<PlayerID, string>, ids: seq<TicketID>, settled: bool)
    ensures w.failed ==> FinalizeTickets(x, w, m, teams, ids, settled) == (w, settled)
  {
  }

  /** Every ticket of the match that is registered in `s` is completed in `v`, and the engine has taken note of it. */
  predicate AllCompleted(x: TickInput, s: Service, v: Service, ids: seq<TicketID>) {
    forall id <- ids :: id in s.tickets ==> id !in x.engine.completeFails && CompletedIn(v, id)
  }

  /** A pass without error completes every registered ticket of its matches, and each completion was taken note of. */
  lemma {:induction false} FinalizeCompletes(x: TickInput, w: Work, matches: seq<Match>)
    requires Fit(w.svc) && !w.failed && !Finalize(x, w, matches).failed
    ensures forall mt <- matches :: AllCompleted(x, w.svc, Finalize(x, w, matches).svc, mt.ticketIDs)
    decreases |matches|
  {
    hide FinalizeMatch, Fit, Grew, AllCompleted;
    if matches != [] {
      var w1 := FinalizeMatch(x, w, matches[0]);
      FinalizeMatchGrew(x, w, matches[0]);
      GrewFit(w, w1, x.now);
      FinalizeStops(x, w1, matches[1..]);
      FinalizeMatchCompletes(x, w, matches[0]);
      FinalizeCompletes(x, w1, matches[1..]);
      FinalizeGrew(x, w1, matches[1..]);
      var v := Finalize(x, w1, matches[1..]);
      assert v == Finalize(x, w, matches);
      hide Finalize;
      forall mt <- matches ensures AllCompleted(x, w.svc, v.svc, mt.ticketIDs) {
        if mt == matches[0] { CompletedOnward(x, w, w1, v, mt.ticketIDs); }
        else { assert mt in matches[1..]; CompletedBefore(x, w, w1, v, mt.ticketIDs); }
      }
    }
  }

  lemma CompletedOnward(x: TickInput, w: Work, w1: Work, v: Work, ids: seq<TicketID>)
    requires AllCompleted(x, w.svc, w1.svc, ids) && Grew(w1, v, x.now)
    ensures AllCompleted(x, w.svc, v.svc, ids)
  {
    hide Grew, CompletedIn;
    forall id <- ids | id in w.svc.tickets ensures CompletedIn(v.svc, id) { CompletedStays(w1, v, x.now, id); }
  }

  lemma CompletedBefore(x: TickInput, w: Work, w1: Work, v: Work, ids: seq<TicketID>)
    requires AllCompleted(x, w1.svc, v.svc, ids) && Grew(w, w1, x.now)
    ensures AllCompleted(x, w.svc, v.svc, ids)
  {
    hide Advanced, CompletedIn;
  }

  lemma FinalizeStops(x: TickInput, w: Work, matches: seq<Match>)
    ensures w.failed ==> Finalize(x, w, matches) == w
  {
  }

  lemma FinalizeMatchCompletes(x: TickInput, w: Work, mt: Match)
    requires Fit(w.svc) && !w.failed && !FinalizeMatch(x, w, mt).failed
    ensures AllCompleted(x, w.svc, FinalizeMatch(x, w, mt).svc, mt.ticketIDs)
  {
    hide Key, FinalizeTickets, Tracker.Forget, Tracker.AssignAt, Fit;
    var tracker := w.svc.TrackerOf(x.config);
    var known := tracker.Known(mt.ticketIDs);
    var k := if known.Some? then known.value else mt.newID;
    var w1 := if known.Some? then w else w.(svc := w.svc.SetTracker(x.config, tracker.AssignAt(mt.ticketIDs, k, 0)));
    GrewTracker(w, x.config, tracker.AssignAt(mt.ticketIDs, k, 0), x.now);
    FitAfterTracker(w, w1, x.config, x.now);
    FinalizeTicketsComplete(x, w1, k, mt.teams, mt.ticketIDs, false);
  }

  lemma FitAfterTracker(w: Work, w1: Work, c: ConfigurationName, now: Time)
    requires Fit(w.svc) && (w1 == w || Grew(w, w1, now))
    ensures Fit(w1.svc)
  {
  }

  /**
   Whatever the engine answers, a tick that reports no error has completed every registered ticket of every match the
   engine reported, and the engine has taken note of each completion.
   */
  lemma MatchesCompleted(x: TickInput, s: Service, mt: Match, id: TicketID)
    requires Fit(s) && !RunTick(x, s).failed && mt in x.engine.matches && id in mt.ticketIDs && id in s.tickets
    ensures id !in x.engine.completeFails
    ensures id in RunTick(x, s).svc.tickets ==> RunTick(x, s).svc.tickets[id].status.Completed?
  {
    var w, w0 := Work(s, [], false), Work(s.WithTracker(x.config), [], false);
    var w1 := Settle(x, w0, x.order);
    var w2 := Finalize(x, w1, x.engine.matches);
    var w3 := Apply(x, w2, x.engine.pending);
    hide Settle, Finalize, Apply, Sync, Grew, Fit, Service.Evict;
    GrewTracker(w, x.config, s.TrackerOf(x.config), x.now);
    GrewFit(w, w0, x.now);
    SettleGrew(x, w0, x.order);
    GrewFit(w0, w1, x.now);
    FinalizeStops(x, w1, x.engine.matches);
    ApplyStops(x, w2, x.engine.pending);
    assert id in w1.svc.tickets by { GrewKeys(w, w0, w1, x.now); }
    FinalizeCompletes(x, w1, x.engine.matches);
    FinalizeGrew(x, w1, x.engine.matches);
    GrewFit(w1, w2, x.now);
    ApplyGrew(x, w2, x.engine.pending);
    GrewFit(w2, w3, x.now);
    SyncGrew(x, w3);
    CompletedStays(w2, w3, x.now, id);
    CompletedStays(w3, Sync(x, w3), x.now, id);
    if id in RunTick(x, s).svc.tickets { EvictKeeps(Sync(x, w3).svc, x.config, x.now, id); }
  }

  lemma ApplyStops(x: TickInput, w: Work, pending: seq<Proposal>)
    ensures w.failed ==> Apply(x, w, pending) == w
  {
  }

  lemma GrewKeys(w: Work, u: Work, v: Work, now: Time)
    requires Grew(w, u, now) && Grew(u, v, now)
    ensures v.svc.tickets.Keys == w.svc.tickets.Keys
  {
  }

  // ----- the proposals the third pass tracks

  /** The ids generated for these proposals are new, and each its own. */
  ghost predicate NewIDs(t: Tracker, pending: seq<Proposal>) {
    && (forall k <- t.matchIDs :: t.matchIDs[k] in t.createdAt)
    && (forall i | 0 <= i < |pending| :: pending[i].newID !in t.createdAt)
    && (forall i, j | 0 <= i < j < |pending| :: pending[i].newID != pending[j].newID)
  }

  /** The roster of the proposal is tracked with the time at which the proposal was made. */
  predicate TrackedAt(t: Tracker, p: Proposal) {
    t.Known(p.ticketIDs).Some? && t.CreatedAt(t.Known(p.ticketIDs).value) == p.createdAt
  }

  lemma ApplyOneTracks(x: TickInput, w: Work, pending: seq<Proposal>)
    requires pending != [] && NewIDs(w.svc.TrackerOf(x.config), pending)
    ensures var t, u := w.svc.TrackerOf(x.config), ApplyProposal(x, w, pending[0]).svc.TrackerOf(x.config);
            TrackedAt(u, pending[0]) && NewIDs(u, pending[1..])
            && forall p: Proposal | Key(p.ticketIDs) != Key(pending[0].ticketIDs) && TrackedAt(t, p) :: TrackedAt(u, p)
  {
    var t, p := w.svc.TrackerOf(x.config), pending[0];
    ApplyOneTracker(x, w, p);
    hide Key, ApplyProposal;
    assert forall i | 0 <= i < |pending| - 1 :: pending[1..][i] == pending[i + 1];
    forall q: Proposal | Key(q.ticketIDs) != Key(p.ticketIDs) && TrackedAt(t, q)
      ensures TrackedAt(t.AssignAt(p.ticketIDs, p.newID, p.createdAt), q) {
      assert t.matchIDs[Key(q.ticketIDs)] in t.createdAt;
    }
  }

  lemma ApplyOneTracker(x: TickInput, w: Work, p: Proposal)
    ensures var t := w.svc.TrackerOf(x.config);
            ApplyProposal(x, w, p).svc.TrackerOf(x.config)
            == if TrackedAt(t, p) then t else t.AssignAt(p.ticketIDs, p.newID, p.createdAt)
  {
    hide Key, Tracker.AssignAt, AssignTickets;
    var w1 := w.(svc := w.svc.SetTracker(x.config, w.svc.TrackerOf(x.config).AssignAt(p.ticketIDs, p.newID, p.createdAt)));
    AssignTicketsTracker(x.config, w1, p.newID, p.teams, p.ticketIDs);
  }

  lemma {:induction false} AssignTicketsTracker(c: ConfigurationName, w: Work, m: MatchID, teams: map<PlayerID, string>,
                                                ids: seq<TicketID>)
    ensures AssignTickets(w, m, teams, ids).svc.trackers == w.svc.trackers
    decreases |ids|
  {
    if !w.failed && ids != [] {
      assert AssignTicket(w, m, teams, ids[0]).svc.trackers == w.svc.trackers;
      hide AssignTicket;
      AssignTicketsTracker(c, AssignTicket(w, m, teams, ids[0]), m, teams, ids[1..]);
    }
  }

  /** Proposals of other rosters do not disturb what is tracked. */
  lemma {:induction false} ApplyKeepsTracked(x: TickInput, w: Work, pending: seq<Proposal>, p: Proposal)
    requires NewIDs(w.svc.TrackerOf(x.config), pending) && TrackedAt(w.svc.TrackerOf(x.config), p)
    requires forall q <- pending :: Key(q.ticketIDs) != Key(p.ticketIDs)
    ensures TrackedAt(Apply(x, w, pending).svc.TrackerOf(x.config), p)
    decreases |pending|
  {
    hide ApplyProposal, NewIDs, TrackedAt, Key;
    if !w.failed && pending != [] {
      ApplyOneTracks(x, w, pending);
      ApplyKeepsTracked(x, ApplyProposal(x, w, pending[0]), pending[1..], p);
    }
  }

  /**
   Whatever rosters and times the engine reports, the third pass leaves each pending roster tracked with the time of the
   last proposal of that roster: a roster proposed anew is a new match, also while the earlier one is still tracked.
   */
  lemma {:induction false} ApplyTracksLast(x: TickInput, w: Work, pending: seq<Proposal>, i: nat)
    requires !w.failed && !Apply(x, w, pending).failed && NewIDs(w.svc.TrackerOf(x.config), pending)
    requires i < |pending| && forall j | i < j < |pending| :: Key(pending[j].ticketIDs) != Key(pending[i].ticketIDs)
    ensures TrackedAt(Apply(x, w, pending).svc.TrackerOf(x.config), pending[i])
    decreases |pending|
  {
    hide ApplyProposal, NewIDs, TrackedAt, Key;
    var w1 := ApplyProposal(x, w, pending[0]);
    ApplyOneTracks(x, w, pending);
    ApplyStops(x, w1, pending[1..]);
    if i == 0 {
      ApplyKeepsTracked(x, w1, pending[1..], pending[0]);
    } else {
      ApplyTracksLast(x, w1, pending[1..], i - 1);
    }
  }

  // ----- the sweep

  /** When its sweep is due, an unfailed tick removes exactly the ended tickets of its configuration that are old enough. */
  lemma TickSweeps(w: World, x: TickInput, id: TicketID)
    requires Sound(w) && w.clock <= x.now && !RunTick(x, w.svc).failed && id in w.svc.tickets
    ensures var t, s, r := w.svc.tickets[id], w.svc, RunTick(x, w.svc).svc;
            && (id !in r.tickets <==> s.NextCleanup(x.config) <= x.now && t.config == x.config && t.status.IsTerminal()
                                      && x.now - t.endTime >= KeptFor(s))
            && r.NextCleanup(x.config) == (if s.NextCleanup(x.config) <= x.now then x.now + SweptEvery(s)
                                           else s.NextCleanup(x.config))
  {
    hide Settle, Finalize, Apply, Sync, StateSound, Service.IndexOk, Advanced, RunTick;
    SoundFits(w);
    var v := PassesOf(w, x);
    SweepTimes(w.svc);
    assert Advanced(Work(w.svc, [], false), v, x.now, id);
    EndTimeSet(w, id);
    SweptTicket(w.svc, v, x, id);
  }

  /** The state of an unfailed tick before its sweep. */
  lemma PassesOf(w: World, x: TickInput) returns (v: Work)
    requires Fit(w.svc) && !RunTick(x, w.svc).failed
    ensures Grew(Work(w.svc, [], false), v, x.now) && RunTick(x, w.svc) == v.(svc := v.svc.Evict(x.config, x.now))
  {
    hide Settle, Finalize, Apply, Sync, Grew, Fit, Service.Evict;
    RunTickGrew(x, w.svc);
    v := Sync(x, Apply(x, Finalize(x, Settle(x, Work(w.svc.WithTracker(x.config), [], false), x.order), x.engine.matches),
                       x.engine.pending));
  }

  lemma SweptTicket(s: Service, v: Work, x: TickInput, id: TicketID)
    requires id in s.tickets && Grew(Work(s, [], false), v, x.now)
    requires s.tickets[id].endTime != 0 <==> s.tickets[id].status.IsTerminal()
    ensures var t, r := s.tickets[id], v.svc.Evict(x.config, x.now);
            && (id !in r.tickets <==> s.NextCleanup(x.config) <= x.now && t.config == x.config && t.status.IsTerminal()
                                      && x.now - t.endTime >= s.Retention())
            && r.NextCleanup(x.config) == (if s.NextCleanup(x.config) <= x.now then x.now + s.CleanupInterval()
                                           else s.NextCleanup(x.config))
  {
    assert Advanced(Work(s, [], false), v, x.now, id);
    assert v.svc.Indexed(x.config, id);
    hide Endings;
  }
}
