/**
 From stores that cannot be told apart and batches with the same events per ticket and per match, the passes of a tick
 and the sweep lead to such stores and batches again. No pass but the first looks at the order of the tracked proposals.
 */
module ProtocolAlike {
  import opened Wrappers
  import opened Domain
  import opened RosterKey
  import opened ProposalTracking
  import opened ServiceState
  import opened Tick
  import opened AnyEngine
  import opened Traces
  import opened ProtocolOrder

  /** The same store, and the same events for each of the tickets and for each match. */
  ghost predicate Alike(u: Work, v: Work, ids: set<TicketID>) {
    && u.failed == v.failed && SameStore(u.svc, v.svc)
    && (forall id <- ids :: Named(u.batch, id) == Named(v.batch, id))
    && (forall m :: AboutMatch(u.batch, m) == AboutMatch(v.batch, m))
  }

  /** The inputs differ at most in the order of the tracked proposals. */
  predicate SameInput(x: TickInput, y: TickInput) {
    y == x.(order := y.order)
  }

  // ----- the elementary steps

  lemma AddAlike(u: Work, v: Work, e: Event, ids: set<TicketID>)
    requires Alike(u, v, ids)
    ensures Alike(u.Add(e), v.Add(e), ids)
  {
    hide Named, AboutMatch, SameStore;
    forall id <- ids ensures Named(u.batch + [e], id) == Named(v.batch + [e], id) {
      NamedOne(u.batch, e, id);
      NamedOne(v.batch, e, id);
    }
    forall m ensures AboutMatch(u.batch + [e], m) == AboutMatch(v.batch + [e], m) {
      AboutOne(u.batch, e, m);
      AboutOne(v.batch, e, m);
    }
  }

  lemma AppendAlike(u: Work, v: Work, events: seq<Event>, ids: set<TicketID>)
    requires Alike(u, v, ids)
    ensures Alike(u.(batch := u.batch + events), v.(batch := v.batch + events), ids)
  {
    hide Named, AboutMatch, SameStore;
    forall id <- ids ensures Named(u.batch + events, id) == Named(v.batch + events, id) {
      NamedAppend(u.batch, events, id);
      NamedAppend(v.batch, events, id);
    }
    forall m ensures AboutMatch(u.batch + events, m) == AboutMatch(v.batch + events, m) {
      AboutAppend(u.batch, events, m);
      AboutAppend(v.batch, events, m);
    }
  }

  lemma SameStored(a: Service, b: Service, t: TicketState)
    requires SameStore(a, b)
    ensures SameStore(a.Save(t), b.Save(t)) && SameStore(a.Put(t), b.Put(t))
  {
    var r, q := a.Save(t), b.Save(t);
    assert r.tickets == q.tickets;
    forall c
      ensures r.ByConfig(c) == q.ByConfig(c) && r.Active(c) == q.Active(c) && r.TrackerOf(c) == q.TrackerOf(c)
      ensures a.Put(t).ByConfig(c) == b.Put(t).ByConfig(c) && a.Put(t).Active(c) == b.Put(t).Active(c)
      ensures a.Put(t).TrackerOf(c) == b.Put(t).TrackerOf(c)
    {
      assert a.ByConfig(c) == b.ByConfig(c) && a.Active(c) == b.Active(c) && a.TrackerOf(c) == b.TrackerOf(c);
      assert a.ByConfig(t.config) == b.ByConfig(t.config) && a.Active(t.config) == b.Active(t.config);
    }
  }

  lemma SameTracked(a: Service, b: Service, c: ConfigurationName, t: Tracker)
    requires SameStore(a, b)
    ensures SameStore(a.SetTracker(c, t), b.SetTracker(c, t))
  {
    var r, q := a.SetTracker(c, t), b.SetTracker(c, t);
    forall d ensures r.ByConfig(d) == q.ByConfig(d) && r.Active(d) == q.Active(d) && r.TrackerOf(d) == q.TrackerOf(d) {
      assert a.ByConfig(d) == b.ByConfig(d) && a.Active(d) == b.Active(d) && a.TrackerOf(d) == b.TrackerOf(d);
    }
  }

  lemma SaveAlike(u: Work, v: Work, t: TicketState, ids: set<TicketID>)
    requires Alike(u, v, ids)
    ensures Alike(u.(svc := u.svc.Save(t)), v.(svc := v.svc.Save(t)), ids)
    ensures Alike(u.Abort(t), v.Abort(t), ids)
    ensures Alike(u.Store(t), v.Store(t), ids)
  {
    hide Named, AboutMatch, Service.Save, Service.Put, SameStore;
    SameStored(u.svc, v.svc, t);
    SameStored(u.svc, v.svc, t.Drained());
    AppendAlike(u, v, t.events, ids);
  }

  lemma TrackerAlike(u: Work, v: Work, c: ConfigurationName, t: Tracker, ids: set<TicketID>)
    requires Alike(u, v, ids)
    ensures Alike(u.(svc := u.svc.SetTracker(c, t)), v.(svc := v.svc.SetTracker(c, t)), ids)
  {
    hide Named, AboutMatch, Service.SetTracker, SameStore;
    SameTracked(u.svc, v.svc, c, t);
  }

  /** What can be read of the two stores. */
  lemma SameReads(u: Work, v: Work, ids: set<TicketID>, c: ConfigurationName)
    requires Alike(u, v, ids)
    ensures u.failed == v.failed && u.svc.tickets == v.svc.tickets && u.svc.TrackerOf(c) == v.svc.TrackerOf(c)
    ensures u.svc.Active(c) == v.svc.Active(c)
  {
    hide Named, AboutMatch;
  }

  // ----- the second pass

  /** What finalizing does to a ticket, and whether it gets to be saved. */
  function FinalState(x: TickInput, t: TicketState, m: MatchID, teams: map<PlayerID, string>, id: TicketID): (TicketState, bool) {
    var seated := t.SetPlayerTeams(teams);
    var placed := if seated.status.Placing? then Some(seated) else seated.MoveToPlacing(m);
    if placed.None? then (seated, false)
    else if id in x.engine.completeFails then (placed.value, false)
    else
      var done := placed.value.Complete(x.now);
      if done.None? then (placed.value, false) else (done.value, true)
  }

  lemma FinalizeTicketIs(x: TickInput, w: Work, m: MatchID, teams: map<PlayerID, string>, id: TicketID)
    requires id in w.svc.tickets
    ensures var (t, saved) := FinalState(x, w.svc.tickets[id], m, teams, id);
            FinalizeTicket(x, w, m, teams, id).0 == if saved then w.(svc := w.svc.Save(t)) else w.Abort(t)
    ensures FinalizeTicket(x, w, m, teams, id).1 == (x.acceptanceRequired && w.svc.tickets[id].status.RequiresAcceptance?)
  {
    hide TicketState.MoveToPlacing, TicketState.Complete, Service.Save, Work.Abort;
  }

  lemma FinalizeTicketAlike(x: TickInput, y: TickInput, u: Work, v: Work, m: MatchID, teams: map<PlayerID, string>,
                            id: TicketID, ids: set<TicketID>)
    requires SameInput(x, y) && Alike(u, v, ids)
    ensures Alike(FinalizeTicket(x, u, m, teams, id).0, FinalizeTicket(y, v, m, teams, id).0, ids)
    ensures FinalizeTicket(x, u, m, teams, id).1 == FinalizeTicket(y, v, m, teams, id).1
  {
    SameReads(u, v, ids, x.config);
    hide Alike;
    if id in u.svc.tickets {
      FinalizeTicketIs(x, u, m, teams, id);
      FinalizeTicketIs(y, v, m, teams, id);
      assert FinalState(x, u.svc.tickets[id], m, teams, id) == FinalState(y, u.svc.tickets[id], m, teams, id);
      hide FinalizeTicket, FinalState, Service.Save, Work.Abort;
      SaveAlike(u, v, FinalState(x, u.svc.tickets[id], m, teams, id).0, ids);
    }
  }

  lemma {:induction false} FinalizeTicketsAlike(x: TickInput, y: TickInput, u: Work, v: Work, m: MatchID,
                                                teams: map<PlayerID, string>, roster: seq<TicketID>, settled: bool,
                                                ids: set<TicketID>)
    requires SameInput(x, y) && Alike(u, v, ids)
    ensures Alike(FinalizeTickets(x, u, m, teams, roster, settled).0, FinalizeTickets(y, v, m, teams, roster, settled).0, ids)
    ensures FinalizeTickets(x, u, m, teams, roster, settled).1 == FinalizeTickets(y, v, m, teams, roster, settled).1
    decreases |roster|
  {
    SameReads(u, v, ids, x.config);
    hide Alike, FinalizeTicket;
    if !u.failed && roster != [] {
      FinalizeTicketAlike(x, y, u, v, m, teams, roster[0], ids);
      var (u1, s1) := FinalizeTicket(x, u, m, teams, roster[0]);
      FinalizeTicketsAlike(x, y, u1, FinalizeTicket(y, v, m, teams, roster[0]).0, m, teams, roster[1..], settled || s1, ids);
    }
  }

  /** The second half of finalizing a match: the announcement, and the tracker forgets it. */
  function ConcludeMatch(x: TickInput, w: Work, m: Match, known: bool, k: MatchID, settled: bool): Work {
    if w.failed then w
    else
      var w3 := if known then w else w.Add(PotentialMatchCreated(k, m.ticketIDs, m.metrics));
      var w4 := if settled then w3.Add(AcceptMatchCompleted(k, m.ticketIDs, Accepted)) else w3;
      var w5 := w4.Add(MatchmakingSucceeded(k, m.ticketIDs));
      w5.(svc := w5.svc.SetTracker(x.config, w5.svc.TrackerOf(x.config).Forget(k)))
  }

  lemma ConcludeAlike(x: TickInput, y: TickInput, u: Work, v: Work, m: Match, known: bool, k: MatchID, settled: bool,
                       ids: set<TicketID>)
    requires SameInput(x, y) && Alike(u, v, ids)
    ensures Alike(ConcludeMatch(x, u, m, known, k, settled), ConcludeMatch(y, v, m, known, k, settled), ids)
  {
    SameReads(u, v, ids, x.config);
    hide Alike, Service.SetTracker, Tracker.Forget;
    if !u.failed {
      var created := PotentialMatchCreated(k, m.ticketIDs, m.metrics);
      var completed := AcceptMatchCompleted(k, m.ticketIDs, Accepted);
      AddAlike(u, v, created, ids);
      var u3, v3 := if known then u else u.Add(created), if known then v else v.Add(created);
      AddAlike(u3, v3, completed, ids);
      var u4, v4 := if settled then u3.Add(completed) else u3, if settled then v3.Add(completed) else v3;
      AddAlike(u4, v4, MatchmakingSucceeded(k, m.ticketIDs), ids);
      var u5, v5 := u4.Add(MatchmakingSucceeded(k, m.ticketIDs)), v4.Add(MatchmakingSucceeded(k, m.ticketIDs));
      SameReads(u5, v5, ids, x.config);
      TrackerAlike(u5, v5, x.config, u5.svc.TrackerOf(x.config).Forget(k), ids);
    }
  }

  lemma FinalizeMatchAlike(x: TickInput, y: TickInput, u: Work, v: Work, m: Match, ids: set<TicketID>)
    requires SameInput(x, y) && Alike(u, v, ids)
    ensures Alike(FinalizeMatch(x, u, m), FinalizeMatch(y, v, m), ids)
  {
    SameReads(u, v, ids, x.config);
    hide Alike, FinalizeTickets, Tracker.Forget, Tracker.AssignAt, Tracker.Known;
    var tracker := u.svc.TrackerOf(x.config);
    var known := tracker.Known(m.ticketIDs);
    var k := if known.Some? then known.value else m.newID;
    var next := tracker.AssignAt(m.ticketIDs, k, 0);
    TrackerAlike(u, v, x.config, next, ids);
    var u1 := if known.Some? then u else u.(svc := u.svc.SetTracker(x.config, next));
    var v1 := if known.Some? then v else v.(svc := v.svc.SetTracker(x.config, next));
    FinalizeTicketsAlike(x, y, u1, v1, k, m.teams, m.ticketIDs, false, ids);
    var (u2, settled) := FinalizeTickets(x, u1, k, m.teams, m.ticketIDs, false);
    var (v2, settled') := FinalizeTickets(y, v1, k, m.teams, m.ticketIDs, false);
    ConcludeAlike(x, y, u2, v2, m, known.Some?, k, settled, ids);
    assert FinalizeMatch(x, u, m) == ConcludeMatch(x, u2, m, known.Some?, k, settled);
    assert FinalizeMatch(y, v, m) == ConcludeMatch(y, v2, m, known.Some?, k, settled);
  }

  lemma {:induction false} FinalizeAlike(x: TickInput, y: TickInput, u: Work, v: Work, matches: seq<Match>,
                                         ids: set<TicketID>)
    requires SameInput(x, y) && Alike(u, v, ids)
    ensures Alike(Finalize(x, u, matches), Finalize(y, v, matches), ids)
    decreases |matches|
  {
    SameReads(u, v, ids, x.config);
    hide Alike, FinalizeMatch;
    if !u.failed && matches != [] {
      FinalizeMatchAlike(x, y, u, v, matches[0], ids);
      FinalizeAlike(x, y, FinalizeMatch(x, u, matches[0]), FinalizeMatch(y, v, matches[0]), matches[1..], ids);
    }
  }

  // ----- the third pass

  lemma {:induction false} AssignTicketsAlike(u: Work, v: Work, m: MatchID, teams: map<PlayerID, string>,
                                              roster: seq<TicketID>, ids: set<TicketID>)
    requires Alike(u, v, ids)
    ensures Alike(AssignTickets(u, m, teams, roster), AssignTickets(v, m, teams, roster), ids)
    decreases |roster|
  {
    SameReads(u, v, ids, "");
    hide Alike, Service.Save, Work.Abort;
    if !u.failed && roster != [] {
      AssignTicketAlike(u, v, m, teams, roster[0], ids);
      hide AssignTicket;
      AssignTicketsAlike(AssignTicket(u, m, teams, roster[0]), AssignTicket(v, m, teams, roster[0]), m, teams, roster[1..], ids);
    }
  }

  lemma AssignTicketAlike(u: Work, v: Work, m: MatchID, teams: map<PlayerID, string>, id: TicketID, ids: set<TicketID>)
    requires Alike(u, v, ids)
    ensures Alike(AssignTicket(u, m, teams, id), AssignTicket(v, m, teams, id), ids)
  {
    SameReads(u, v, ids, "");
    hide Alike, Service.Save, Work.Abort;
    if id in u.svc.tickets {
      var r := u.svc.tickets[id].AssignToProposal(m);
      SaveAlike(u, v, if r.None? then u.svc.tickets[id] else r.value.SetPlayerTeams(teams), ids);
    }
  }

  lemma ApplyProposalAlike(x: TickInput, y: TickInput, u: Work, v: Work, p: Proposal, ids: set<TicketID>)
    requires SameInput(x, y) && Alike(u, v, ids)
    ensures Alike(ApplyProposal(x, u, p), ApplyProposal(y, v, p), ids)
  {
    SameReads(u, v, ids, x.config);
    hide Alike, AssignTickets, Tracker.AssignAt, Tracker.Known;
    var next := u.svc.TrackerOf(x.config).AssignAt(p.ticketIDs, p.newID, p.createdAt);
    TrackerAlike(u, v, x.config, next, ids);
    var u1, v1 := u.(svc := u.svc.SetTracker(x.config, next)), v.(svc := v.svc.SetTracker(x.config, next));
    AssignTicketsAlike(u1, v1, p.newID, p.teams, p.ticketIDs, ids);
    var u2, v2 := AssignTickets(u1, p.newID, p.teams, p.ticketIDs), AssignTickets(v1, p.newID, p.teams, p.ticketIDs);
    SameReads(u2, v2, ids, x.config);
    AddAlike(u2, v2, PotentialMatchCreated(p.newID, p.ticketIDs, p.metrics), ids);
  }

  lemma {:induction false} ApplyAlike(x: TickInput, y: TickInput, u: Work, v: Work, pending: seq<Proposal>,
                                      ids: set<TicketID>)
    requires SameInput(x, y) && Alike(u, v, ids)
    ensures Alike(Apply(x, u, pending), Apply(y, v, pending), ids)
    decreases |pending|
  {
    SameReads(u, v, ids, x.config);
    hide Alike, ApplyProposal;
    if !u.failed && pending != [] {
      ApplyProposalAlike(x, y, u, v, pending[0], ids);
      ApplyAlike(x, y, ApplyProposal(x, u, pending[0]), ApplyProposal(y, v, pending[0]), pending[1..], ids);
    }
  }

  // ----- the fourth pass

  /** What synchronizing a ticket does, read off the store. */
  function SyncEffect(x: TickInput, s: Service, settled: set<MatchID>, id: TicketID): SyncCase {
    if id !in s.tickets || id !in x.engine.statusAfter || x.engine.statusAfter[id] == s.tickets[id].status then Unchanged
    else
      var curr := x.engine.statusAfter[id];
      var t := CaptureRuleMetrics(x, s.tickets[id], curr);
      var r := FromEngine(x, t, curr);
      if r.None? then Aborted(t)
      else if SettlesAcceptance(t, curr) && t.matchID != "" && t.matchID !in settled then
        var tracker := s.TrackerOf(x.config);
        var known := tracker.TicketsFor(t.matchID);
        var ids := if known.Some? then known.value else [id];
        SettledToo(r.value, AcceptMatchCompleted(t.matchID, ids, FailureOutcome(s, x.config, t.matchID)), tracker.Forget(t.matchID))
      else Stored(r.value)
  }

  function Perform(x: TickInput, w: Work, c: SyncCase): Work {
    match c
    case Unchanged => w
    case Aborted(u) => w.Abort(u)
    case Stored(u) => w.Store(u)
    case SettledToo(u, e, tracker) => w.Add(e).(svc := w.svc.SetTracker(x.config, tracker)).Store(u)
  }

  function SettledIDs(settled: set<MatchID>, c: SyncCase): set<MatchID> {
    if c.SettledToo? && c.e.AcceptMatchCompleted? then settled + {c.e.matchID} else settled
  }

  lemma SyncTicketIs(x: TickInput, w: Work, settled: set<MatchID>, id: TicketID)
    ensures var c := SyncEffect(x, w.svc, settled, id);
            SyncTicket(x, w, settled, id) == (Perform(x, w, c), SettledIDs(settled, c))
  {
    hide FromEngine, CaptureRuleMetrics, Work.Store, Work.Abort, Service.SetTracker, Tracker.Forget, FailureOutcome;
  }

  lemma SyncEffectSame(x: TickInput, y: TickInput, a: Service, b: Service, settled: set<MatchID>, id: TicketID)
    requires SameInput(x, y) && a.tickets == b.tickets && a.TrackerOf(x.config) == b.TrackerOf(x.config)
    ensures SyncEffect(x, a, settled, id) == SyncEffect(y, b, settled, id)
  {
    hide Tracker.Forget, TicketState.MarkCancelled, TicketState.MarkTimedOut, TicketState.ReturnToSearching, SomeRejection;
    forall ids ensures SomeRejection(a, ids) == SomeRejection(b, ids) { SameRejection(a, b, ids); }
  }

  lemma SameRejection(a: Service, b: Service, ids: seq<TicketID>)
    requires a.tickets == b.tickets
    ensures SomeRejection(a, ids) == SomeRejection(b, ids)
  {
  }

  lemma PerformAlike(x: TickInput, y: TickInput, u: Work, v: Work, c: SyncCase, ids: set<TicketID>)
    requires SameInput(x, y) && Alike(u, v, ids)
    ensures Alike(Perform(x, u, c), Perform(y, v, c), ids)
  {
    hide Alike, Work.Store, Work.Abort, Service.SetTracker;
    match c
    case Unchanged =>
    case Aborted(t) => SaveAlike(u, v, t, ids);
    case Stored(t) => SaveAlike(u, v, t, ids);
    case SettledToo(t, e, tracker) =>
      AddAlike(u, v, e, ids);
      TrackerAlike(u.Add(e), v.Add(e), x.config, tracker, ids);
      SaveAlike(u.Add(e).(svc := u.svc.SetTracker(x.config, tracker)), v.Add(e).(svc := v.svc.SetTracker(x.config, tracker)),
                t, ids);
  }

  lemma SyncTicketAlike(x: TickInput, y: TickInput, u: Work, v: Work, settled: set<MatchID>, id: TicketID,
                        ids: set<TicketID>)
    requires SameInput(x, y) && Alike(u, v, ids)
    ensures Alike(SyncTicket(x, u, settled, id).0, SyncTicket(y, v, settled, id).0, ids)
    ensures SyncTicket(x, u, settled, id).1 == SyncTicket(y, v, settled, id).1
  {
    SameReads(u, v, ids, x.config);
    hide Alike, SyncTicket, SyncEffect, Perform;
    SyncTicketIs(x, u, settled, id);
    SyncTicketIs(y, v, settled, id);
    SyncEffectSame(x, y, u.svc, v.svc, settled, id);
    PerformAlike(x, y, u, v, SyncEffect(x, u.svc, settled, id), ids);
  }

  lemma {:induction false} SyncTicketsAlike(x: TickInput, y: TickInput, u: Work, v: Work, settled: set<MatchID>,
                                            active: seq<TicketID>, ids: set<TicketID>)
    requires SameInput(x, y) && Alike(u, v, ids)
    ensures Alike(SyncTickets(x, u, settled, active), SyncTickets(y, v, settled, active), ids)
    decreases |active|
  {
    SameReads(u, v, ids, x.config);
    hide Alike, SyncTicket;
    if !u.failed && active != [] {
      SyncTicketAlike(x, y, u, v, settled, active[0], ids);
      var (u1, s1) := SyncTicket(x, u, settled, active[0]);
      SyncTicketsAlike(x, y, u1, SyncTicket(y, v, settled, active[0]).0, s1, active[1..], ids);
    }
  }

  // ----- the sweep, and the first pass

  lemma EvictSame(a: Service, b: Service, c: ConfigurationName, now: Time)
    requires SameStore(a, b)
    ensures SameStore(a.Evict(c, now), b.Evict(c, now))
  {
    var r, q := a.Evict(c, now), b.Evict(c, now);
    assert a.ByConfig(c) == b.ByConfig(c) && a.Expired(c, now) == b.Expired(c, now);
    hide Service.Expired;
    forall d ensures r.ByConfig(d) == q.ByConfig(d) && r.Active(d) == q.Active(d) && r.TrackerOf(d) == q.TrackerOf(d) {
      assert a.ByConfig(d) == b.ByConfig(d) && a.Active(d) == b.Active(d) && a.TrackerOf(d) == b.TrackerOf(d);
      assert a.Active(c) == b.Active(c);
    }
  }

  lemma SettleTicketSame(x: TickInput, y: TickInput, w: Work, id: TicketID)
    requires SameInput(x, y)
    ensures SettleTicket(x, w, id) == SettleTicket(y, w, id)
  {
    hide TicketState.MarkCancelled, TicketState.MarkTimedOut, TicketState.ReturnToSearching, Work.Store, Work.Abort;
  }

  lemma {:induction false} SettleTicketsSame(x: TickInput, y: TickInput, w: Work, roster: seq<TicketID>)
    requires SameInput(x, y)
    ensures SettleTickets(x, w, roster) == SettleTickets(y, w, roster)
    decreases |roster|
  {
    hide SettleTicket;
    if !w.failed && roster != [] {
      SettleTicketSame(x, y, w, roster[0]);
      SettleTicketsSame(x, y, SettleTicket(x, w, roster[0]), roster[1..]);
    }
  }

  lemma {:induction false} SettleSame(x: TickInput, y: TickInput, w: Work, order: seq<MatchID>)
    requires SameInput(x, y)
    ensures Settle(x, w, order) == Settle(y, w, order)
    decreases |order|
  {
    hide SettleTickets, Key;
    if !w.failed && order != [] {
      var m := order[0];
      if m in w.svc.TrackerOf(x.config).byMatch {
        var ids := w.svc.TrackerOf(x.config).byMatch[m];
        SettleTicketsSame(x, y, w, ids);
        SettleTicketsSame(x, y, w.Add(AcceptMatchCompleted(m, ids, FailureOutcome(w.svc, x.config, m))), ids);
      }
      SettleSame(x, y, SettleProposal(x, w, m), order[1..]);
    }
  }

  /** What the first pass makes alike, the whole tick does. */
  lemma RunTickAlike(x: TickInput, y: TickInput, s: Service, ids: set<TicketID>)
    requires SameInput(x, y)
    requires var w := Work(s.WithTracker(x.config), [], false); Alike(Settle(x, w, x.order), Settle(x, w, y.order), ids)
    ensures Alike(RunTick(x, s), RunTick(y, s), ids)
  {
    if x.refused || x.engine.fails {
      assert RunTick(x, s) == RunTick(y, s);
    } else {
      var w := Work(s.WithTracker(x.config), [], false);
      SettleSame(x, y, w, y.order);
      hide Alike, Settle, Finalize, Apply, SyncTickets, Service.Evict;
      var u1, v1 := Settle(x, w, x.order), Settle(y, w, y.order);
      FinalizeAlike(x, y, u1, v1, x.engine.matches, ids);
      var u2, v2 := Finalize(x, u1, x.engine.matches), Finalize(y, v1, x.engine.matches);
      ApplyAlike(x, y, u2, v2, x.engine.pending, ids);
      var u3, v3 := Apply(x, u2, x.engine.pending), Apply(y, v2, x.engine.pending);
      SameReads(u3, v3, ids, x.config);
      SyncTicketsAlike(x, y, u3, v3, {}, SortedListing(u3.svc.Active(x.config)), ids);
      var u4, v4 := if u3.failed then u3 else Sync(x, u3), if v3.failed then v3 else Sync(y, v3);
      SweptAlike(u4, v4, x.config, x.now, ids);
    }
  }

  lemma SweptAlike(u: Work, v: Work, c: ConfigurationName, now: Time, ids: set<TicketID>)
    requires Alike(u, v, ids)
    ensures u.failed == v.failed && Alike(u.(svc := u.svc.Evict(c, now)), v.(svc := v.svc.Evict(c, now)), ids)
  {
    hide Named, AboutMatch, Service.Evict, SameStore;
    EvictSame(u.svc, v.svc, c, now);
  }
}
