/**
 What one tick may do to the tickets whatever the engine answers: no ticket comes or goes, one that has ended stays as
 it ended, each end is announced at most once and only as it happens, and the indices keep agreeing with the tickets.
 The statement composes (`GrewTransitive`), so each pass follows from the elementary steps it is made of.
 */
module AnyEngine {
  import opened Wrappers
  import opened Domain
  import opened RosterKey
  import opened ProposalTracking
  import opened ServiceState
  import opened Tick

  // ----- counting announcements

  /** How many of the events announce the end of ticket `id`. */
  function Endings(events: seq<Event>, id: TicketID): nat {
    if events == [] then 0 else Endings(events[..|events| - 1], id) + if events[|events| - 1].Ends(id) then 1 else 0
  }

  lemma {:induction false} EndingsAppend(a: seq<Event>, b: seq<Event>, id: TicketID)
    ensures Endings(a + b, id) == Endings(a, id) + Endings(b, id)
  {
    if b == [] {
      assert a + b == a;
    } else {
      EndingsAppend(a, b[..|b| - 1], id);
      assert (a + b)[..|a + b| - 1] == a + b[..|b| - 1];
    }
  }

  function Ended(t: TicketState): nat {
    if t.Terminal() then 1 else 0
  }

  // ----- how one command may change the tickets it finds

  /** What a ticket was made with stays; an ended ticket keeps its status and end time; an end is stamped with `now`. */
  predicate Evolves(t: TicketState, u: TicketState, now: Time) {
    && u.id == t.id && u.config == t.config && u.players == t.players && u.isBackfill == t.isBackfill
    && u.gameSessionARN == t.gameSessionARN && u.startTime == t.startTime
    && (t.Terminal() ==> u.status == t.status && u.endTime == t.endTime)
    && (!t.Terminal() ==> u.endTime == if u.Terminal() then now else t.endTime)
  }

  ghost predicate Fit(s: Service) {
    s.IndexOk() && s.Quiet()
  }

  /** From `a` to `b` no ticket came or went, each evolved, and a ticket's end was announced only as it ended. */
  ghost predicate Grew(a: Work, b: Work, now: Time) {
    && b.svc.tickets.Keys == a.svc.tickets.Keys
    && b.svc.reserved == a.svc.reserved && b.svc.nextCleanup == a.svc.nextCleanup
    && b.svc.ticketRetention == a.svc.ticketRetention
    && a.batch <= b.batch
    && Fit(b.svc)
    && forall id <- a.svc.tickets :: Advanced(a, b, now, id)
  }

  predicate Advanced(a: Work, b: Work, now: Time, id: TicketID)
    requires id in a.svc.tickets
  {
    && id in b.svc.tickets
    && Evolves(a.svc.tickets[id], b.svc.tickets[id], now)
    && Endings(b.batch, id) + Ended(a.svc.tickets[id]) <= Endings(a.batch, id) + Ended(b.svc.tickets[id])
  }

  lemma GrewTransitive(a: Work, b: Work, c: Work, now: Time)
    requires Grew(a, b, now) && Grew(b, c, now)
    ensures Grew(a, c, now)
  {
    forall id <- a.svc.tickets ensures Advanced(a, c, now, id) {
      assert Advanced(a, b, now, id) && Advanced(b, c, now, id);
    }
  }

  // ----- the elementary steps

  lemma GrewAdd(w: Work, e: Event, now: Time)
    requires Fit(w.svc) && forall id <- w.svc.tickets :: !e.Ends(id)
    ensures Grew(w, w.Add(e), now)
  {
    forall id <- w.svc.tickets ensures Advanced(w, w.Add(e), now, id) {
      assert (w.batch + [e])[..|w.batch|] == w.batch;
    }
  }

  lemma GrewTracker(w: Work, c: ConfigurationName, tracker: Tracker, now: Time)
    requires Fit(w.svc)
    ensures Grew(w, w.(svc := w.svc.SetTracker(c, tracker)), now)
  {
    var v := w.(svc := w.svc.SetTracker(c, tracker));
    forall d, id ensures v.svc.Indexed(d, id) {
      assert w.svc.Indexed(d, id);
    }
    forall id <- w.svc.tickets ensures Advanced(w, v, now, id) {
    }
  }

  /** The events a ticket recorded while changing from `t` to `u` announce its end only if it ended, and once. */
  predicate Announced(t: TicketState, u: TicketState) {
    || u.events == []
    || (|u.events| == 1 && (u.events[0] == SearchingStarted(t.id)
                            || ((u.events[0].MatchmakingTimedOut? || u.events[0].MatchmakingCancelled?)
                                && u.events[0].ticketID == t.id && !t.Terminal() && u.Terminal())))
  }

  lemma GrewStore(w: Work, u: TicketState, now: Time)
    requires Fit(w.svc) && u.id in w.svc.tickets
    requires Evolves(w.svc.tickets[u.id], u, now) && Announced(w.svc.tickets[u.id], u)
    ensures Grew(w, w.Store(u), now)
  {
    var v := w.Store(u);
    SaveIndexOk(w.svc, u.Drained());
    StoredAs(w, u);
    hide Service.Save, Work.Store, Service.IndexOk, Endings, Evolves, Announced;
    forall id <- w.svc.tickets ensures Advanced(w, v, now, id) {
      StoredAdvanced(w, v, u, now, id);
    }
  }

  lemma StoredAs(w: Work, u: TicketState)
    ensures var v := w.Store(u);
            && v.svc.tickets == w.svc.tickets[u.id := u.Drained()] && v.batch == w.batch + u.events && v.failed == w.failed
            && v.svc.reserved == w.svc.reserved && v.svc.nextCleanup == w.svc.nextCleanup
            && v.svc.ticketRetention == w.svc.ticketRetention
  {
  }

  lemma StoredAdvanced(w: Work, v: Work, u: TicketState, now: Time, id: TicketID)
    requires id in w.svc.tickets && u.id in w.svc.tickets && w.svc.tickets[u.id].id == u.id
    requires v.svc.tickets == w.svc.tickets[u.id := u.Drained()] && v.batch == w.batch + u.events
    requires Evolves(w.svc.tickets[u.id], u, now) && Announced(w.svc.tickets[u.id], u)
    ensures Advanced(w, v, now, id)
  {
    EndingsAppend(w.batch, u.events, id);
    AnnouncedEndings(w.svc.tickets[u.id], u, id);
    hide Endings, Announced;
  }

  lemma AnnouncedEndings(t: TicketState, u: TicketState, id: TicketID)
    requires Announced(t, u) && u.id == t.id
    ensures Endings(u.events, id) <= if id == t.id && !t.Terminal() && u.Terminal() then 1 else 0
  {
    if |u.events| == 1 {
      assert u.events[..0] == [];
      assert Endings(u.events, id) == if u.events[0].Ends(id) then 1 else 0;
    }
  }

  /** Saving a ticket that recorded nothing. */
  lemma GrewSave(w: Work, u: TicketState, now: Time)
    requires Fit(w.svc) && u.id in w.svc.tickets
    requires Evolves(w.svc.tickets[u.id], u, now) && u.events == []
    ensures Grew(w, w.(svc := w.svc.Save(u)), now)
  {
    GrewStore(w, u, now);
    assert u.Drained() == u && w.batch + u.events == w.batch;
  }

  lemma GrewAbort(w: Work, u: TicketState, now: Time)
    requires Fit(w.svc) && u.id in w.svc.tickets && u.events == []
    requires Evolves(w.svc.tickets[u.id], u, now) && u.Terminal() == w.svc.tickets[u.id].Terminal()
    ensures Grew(w, w.Abort(u), now)
  {
    var v := w.Abort(u);
    PutIndexOk(w.svc, u);
    assert v.batch == w.batch && v.svc.tickets.Keys == w.svc.tickets.Keys;
    forall id <- w.svc.tickets ensures Advanced(w, v, now, id) {
      assert v.svc.tickets[id] == if id == u.id then u else w.svc.tickets[id];
    }
  }

  lemma GrewNothing(w: Work, now: Time)
    requires Fit(w.svc)
    ensures Grew(w, w, now)
  {
    forall id <- w.svc.tickets ensures Advanced(w, w, now, id) {
    }
  }

  // ----- the passes

  /** An active ticket, whatever the engine reports about it. */
  lemma FromEngineEvolves(x: TickInput, t: TicketState, curr: TicketStatus)
    requires !t.Terminal() && t.events == []
    ensures var r := FromEngine(x, t, curr);
            r.Some? ==> Evolves(t, r.value, x.now) && Announced(t, r.value)
  {
    match curr
    case Cancelled => EndingEvolves(t, if t.cancelByAPI then StoppedMessage else AcceptanceFailedMessage, x.now);
    case TimedOut => EndingEvolves(t, "Matchmaking timed out", x.now);
    case _ => PoolingEvolves(t, StatusReason(x, t.id), x.now);
  }

  lemma EndingEvolves(t: TicketState, message: string, now: Time)
    requires !t.Terminal() && t.events == []
    ensures var r := t.MarkCancelled(message, now); r.Some? ==> Evolves(t, r.value, now) && Announced(t, r.value)
    ensures var r := t.MarkTimedOut("TimedOut", message, now); r.Some? ==> Evolves(t, r.value, now) && Announced(t, r.value)
  {
  }

  lemma PoolingEvolves(t: TicketState, reason: string, now: Time)
    requires !t.Terminal() && t.events == []
    ensures var r := t.ReturnToSearching(reason); r.Some? ==> Evolves(t, r.value, now) && Announced(t, r.value)
    ensures Evolves(t, t.ObserveSearching(), now) && Announced(t, t.ObserveSearching())
    ensures Evolves(t, t, now) && Announced(t, t)
  {
  }

  lemma SettleTicketGrew(x: TickInput, w: Work, id: TicketID)
    requires Fit(w.svc)
    ensures Grew(w, SettleTicket(x, w, id), x.now)
  {
    if id in w.svc.tickets && w.svc.tickets[id].status.RequiresAcceptance? && id in x.engine.status {
      var curr := x.engine.status[id];
      var t := CaptureRuleMetrics(x, w.svc.tickets[id], curr);
      var r := if curr.RequiresAcceptance? then t.ReturnToSearching("ACCEPTANCE_FAILED") else FromEngine(x, t, curr);
      FromEngineEvolves(x, t, curr);
      if r.Some? { GrewStore(w, r.value, x.now); } else { GrewAbort(w, t, x.now); }
    } else {
      GrewNothing(w, x.now);
    }
  }

  lemma {:induction false} SettleTicketsGrew(x: TickInput, w: Work, ids: seq<TicketID>)
    requires Fit(w.svc)
    ensures Grew(w, SettleTickets(x, w, ids), x.now)
    decreases |ids|
  {
    if w.failed || ids == [] {
      GrewNothing(w, x.now);
    } else {
      var w1 := SettleTicket(x, w, ids[0]);
      SettleTicketGrew(x, w, ids[0]);
      SettleTicketsGrew(x, w1, ids[1..]);
      GrewTransitive(w, w1, SettleTickets(x, w1, ids[1..]), x.now);
    }
  }

  lemma SettleProposalGrew(x: TickInput, w: Work, m: MatchID)
    requires Fit(w.svc)
    ensures Grew(w, SettleProposal(x, w, m), x.now)
  {
    hide Key;
    GrewNothing(w, x.now);
    var tracker := w.svc.TrackerOf(x.config);
    if m in tracker.byMatch {
      var ids := tracker.byMatch[m];
      var e := AcceptMatchCompleted(m, ids, FailureOutcome(w.svc, x.config, m));
      var w1 := if SomeStopped(w.svc, ids) then w else w.Add(e);
      GrewAdd(w, e, x.now);
      var w2 := SettleTickets(x, w1, ids);
      SettleTicketsGrew(x, w1, ids);
      GrewTransitive(w, w1, w2, x.now);
      var forgotten := w2.svc.TrackerOf(x.config).Forget(m);
      GrewTracker(w2, x.config, forgotten, x.now);
      GrewTransitive(w, w2, w2.(svc := w2.svc.SetTracker(x.config, forgotten)), x.now);
    }
  }

  lemma {:induction false} SettleGrew(x: TickInput, w: Work, order: seq<MatchID>)
    requires Fit(w.svc)
    ensures Grew(w, Settle(x, w, order), x.now)
    decreases |order|
  {
    if w.failed || order == [] {
      GrewNothing(w, x.now);
    } else {
      var w1 := SettleProposal(x, w, order[0]);
      SettleProposalGrew(x, w, order[0]);
      SettleGrew(x, w1, order[1..]);
      GrewTransitive(w, w1, Settle(x, w1, order[1..]), x.now);
    }
  }

  /** What finalizing a registered ticket does: it is completed and saved, or left mutated but not ended by an error. */
  lemma FinalizeTicketCases(x: TickInput, w: Work, m: MatchID, teams: map<PlayerID, string>, id: TicketID)
    returns (u: TicketState, saved: bool)
    requires id in w.svc.tickets && w.svc.tickets[id].id == id && w.svc.tickets[id].events == []
    ensures FinalizeTicket(x, w, m, teams, id).0 == if saved then w.(svc := w.svc.Save(u)) else w.Abort(u)
    ensures u.id == id && u.events == [] && Evolves(w.svc.tickets[id], u, x.now)
    ensures if saved then !w.svc.tickets[id].Terminal() && u.Terminal() else u.Terminal() == w.svc.tickets[id].Terminal()
  {
    var t := w.svc.tickets[id].SetPlayerTeams(teams);
    var placed := if t.status.Placing? then Some(t) else t.MoveToPlacing(m);
    SeatedEvolves(w.svc.tickets[id], teams, m, x.now);
    hide TicketState.SetPlayerTeams, TicketState.MoveToPlacing, Evolves;
    saved := placed.Some? && id !in x.engine.completeFails;
    if placed.None? {
      u := t;
    } else {
      CompletedEvolves(w.svc.tickets[id], placed.value, x.now);
      hide TicketState.Complete;
      u := if saved then placed.value.Complete(x.now).value else placed.value;
    }
  }

  lemma SeatedEvolves(t: TicketState, teams: map<PlayerID, string>, m: MatchID, now: Time)
    requires t.events == []
    ensures var s := t.SetPlayerTeams(teams);
            && s.id == t.id && s.events == [] && Evolves(t, s, now) && s.Terminal() == t.Terminal()
            && (s.MoveToPlacing(m).Some? ==>
                  var u := s.MoveToPlacing(m).value;
                  u.status.Placing? && u.id == t.id && u.events == [] && Evolves(t, u, now) && !t.Terminal())
  {
  }

  lemma CompletedEvolves(t: TicketState, placed: TicketState, now: Time)
    requires placed.status.Placing? && placed.events == [] && Evolves(t, placed, now) && !t.Terminal()
    ensures var r := placed.Complete(now);
            && r.Some? && r.value.id == placed.id && r.value.events == [] && Evolves(t, r.value, now) && r.value.Terminal()
  {
  }

  lemma FinalizeTicketGrew(x: TickInput, w: Work, m: MatchID, teams: map<PlayerID, string>, id: TicketID)
    requires Fit(w.svc) && !w.failed
    ensures var r := FinalizeTicket(x, w, m, teams, id).0;
            && Grew(w, r, x.now) && r.batch == w.batch
            && (!r.failed && id in w.svc.tickets ==> !w.svc.tickets[id].Terminal() && r.svc.tickets[id].Terminal())
  {
    if id in w.svc.tickets {
      var u, saved := FinalizeTicketCases(x, w, m, teams, id);
      hide FinalizeTicket;
      if saved { GrewSave(w, u, x.now); } else { GrewAbort(w, u, x.now); }
    } else {
      GrewNothing(w, x.now);
    }
  }

  /** A match that is finalized without error found all its registered tickets active and left them ended. */
  lemma {:induction false} FinalizeTicketsGrew(x: TickInput, w: Work, m: MatchID, teams: map<PlayerID, string>,
                                               ids: seq<TicketID>, settled: bool)
    requires Fit(w.svc) && !w.failed
    ensures var r := FinalizeTickets(x, w, m, teams, ids, settled).0;
            && Grew(w, r, x.now) && r.batch == w.batch
            && (!r.failed ==> forall id <- ids :: id in w.svc.tickets ==>
                  !w.svc.tickets[id].Terminal() && r.svc.tickets[id].Terminal())
    decreases |ids|
  {
    if ids == [] {
      GrewNothing(w, x.now);
    } else {
      var (w1, s1) := FinalizeTicket(x, w, m, teams, ids[0]);
      FinalizeTicketGrew(x, w, m, teams, ids[0]);
      if !w1.failed {
        var r := FinalizeTickets(x, w1, m, teams, ids[1..], settled || s1).0;
        FinalizeTicketsGrew(x, w1, m, teams, ids[1..], settled || s1);
        GrewTransitive(w, w1, r, x.now);
        if !r.failed {
          forall id <- ids | id in w.svc.tickets ensures !w.svc.tickets[id].Terminal() && r.svc.tickets[id].Terminal() {
            assert Advanced(w, w1, x.now, id) && Advanced(w1, r, x.now, id);
            assert id == ids[0] || id in ids[1..];
          }
        }
      }
    }
  }

  lemma FinalizeMatchGrew(x: TickInput, w: Work, m: Match)
    requires Fit(w.svc) && !w.failed
    ensures Grew(w, FinalizeMatch(x, w, m), x.now)
  {
    hide Key;
    var tracker := w.svc.TrackerOf(x.config);
    var known := tracker.Known(m.ticketIDs);
    var matchID := if known.Some? then known.value else m.newID;
    var withMatch := tracker.AssignAt(m.ticketIDs, matchID, 0);
    var w1 := if known.Some? then w else w.(svc := w.svc.SetTracker(x.config, withMatch));
    GrewNothing(w, x.now);
    GrewTracker(w, x.config, withMatch, x.now);
    var (w2, settled) := FinalizeTickets(x, w1, matchID, m.teams, m.ticketIDs, false);
    FinalizeTicketsGrew(x, w1, matchID, m.teams, m.ticketIDs, false);
    GrewTransitive(w, w1, w2, x.now);
    if !w2.failed {
      var w3 := if known.Some? then w2 else w2.Add(PotentialMatchCreated(matchID, m.ticketIDs, m.metrics));
      var w4 := if settled then w3.Add(AcceptMatchCompleted(matchID, m.ticketIDs, Accepted)) else w3;
      var w5 := w4.Add(MatchmakingSucceeded(matchID, m.ticketIDs));
      GrewNothing(w2, x.now);
      GrewAdd(w2, PotentialMatchCreated(matchID, m.ticketIDs, m.metrics), x.now);
      GrewNothing(w3, x.now);
      GrewAdd(w3, AcceptMatchCompleted(matchID, m.ticketIDs, Accepted), x.now);
      GrewTransitive(w, w2, w3, x.now);
      GrewTransitive(w, w3, w4, x.now);
      SucceededGrew(x, w, w1, w2, w4, m.ticketIDs, matchID);
      GrewTracker(w5, x.config, w5.svc.TrackerOf(x.config).Forget(matchID), x.now);
      GrewTransitive(w, w5, FinalizeMatch(x, w, m), x.now);
    }
  }

  /** The tickets a success is announced for were active before the match and have ended since. */
  lemma SucceededGrew(x: TickInput, w: Work, w1: Work, w2: Work, w4: Work, ids: seq<TicketID>, matchID: MatchID)
    requires Grew(w, w1, x.now) && Grew(w, w4, x.now)
    requires w1.batch == w2.batch == w.batch && w1.svc.tickets == w.svc.tickets && w4.svc == w2.svc
    requires forall id <- w.svc.tickets :: Endings(w4.batch, id) == Endings(w.batch, id)
    requires forall id <- ids :: id in w1.svc.tickets ==>
               id in w2.svc.tickets && !w1.svc.tickets[id].Terminal() && w2.svc.tickets[id].Terminal()
    ensures Grew(w, w4.Add(MatchmakingSucceeded(matchID, ids)), x.now)
  {
    var w5 := w4.Add(MatchmakingSucceeded(matchID, ids));
    forall id <- w.svc.tickets ensures Advanced(w, w5, x.now, id) {
      assert Advanced(w, w4, x.now, id);
      assert (w4.batch + [MatchmakingSucceeded(matchID, ids)])[..|w4.batch|] == w4.batch;
    }
  }

  lemma {:induction false} FinalizeGrew(x: TickInput, w: Work, matches: seq<Match>)
    requires Fit(w.svc)
    ensures Grew(w, Finalize(x, w, matches), x.now)
    decreases |matches|
  {
    if w.failed || matches == [] {
      GrewNothing(w, x.now);
    } else {
      var w1 := FinalizeMatch(x, w, matches[0]);
      FinalizeMatchGrew(x, w, matches[0]);
      FinalizeGrew(x, w1, matches[1..]);
      GrewTransitive(w, w1, Finalize(x, w1, matches[1..]), x.now);
    }
  }

  lemma {:induction false} AssignTicketsGrew(x: TickInput, w: Work, m: MatchID, teams: map<PlayerID, string>,
                                             ids: seq<TicketID>)
    requires Fit(w.svc)
    ensures Grew(w, AssignTickets(w, m, teams, ids), x.now)
    decreases |ids|
  {
    GrewNothing(w, x.now);
    if !w.failed && ids != [] {
      var w1 := AssignTicket(w, m, teams, ids[0]);
      if ids[0] in w.svc.tickets {
        var t := w.svc.tickets[ids[0]];
        var r := t.AssignToProposal(m);
        if r.None? { GrewAbort(w, t, x.now); } else { GrewSave(w, r.value.SetPlayerTeams(teams), x.now); }
      }
      AssignTicketsGrew(x, w1, m, teams, ids[1..]);
      GrewTransitive(w, w1, AssignTickets(w1, m, teams, ids[1..]), x.now);
    }
  }

  lemma {:induction false} ApplyGrew(x: TickInput, w: Work, pending: seq<Proposal>)
    requires Fit(w.svc)
    ensures Grew(w, Apply(x, w, pending), x.now)
    decreases |pending|
  {
    hide Key;
    GrewNothing(w, x.now);
    if !w.failed && pending != [] {
      var p := pending[0];
      var w3 := ApplyProposal(x, w, p);
      var withMatch := w.svc.TrackerOf(x.config).AssignAt(p.ticketIDs, p.newID, p.createdAt);
      var w1 := w.(svc := w.svc.SetTracker(x.config, withMatch));
      GrewTracker(w, x.config, withMatch, x.now);
      var w2 := AssignTickets(w1, p.newID, p.teams, p.ticketIDs);
      AssignTicketsGrew(x, w1, p.newID, p.teams, p.ticketIDs);
      GrewTransitive(w, w1, w2, x.now);
      GrewAdd(w2, PotentialMatchCreated(p.newID, p.ticketIDs, p.metrics), x.now);
      GrewTransitive(w, w2, w2.Add(PotentialMatchCreated(p.newID, p.ticketIDs, p.metrics)), x.now);
      ApplyGrew(x, w3, pending[1..]);
      GrewTransitive(w, w3, Apply(x, w3, pending[1..]), x.now);
    }
  }

  /** Emitting a match's AcceptMatchCompleted, forgetting the match, and then storing the ticket. */
  lemma GrewSettleAndStore(w: Work, e: Event, c: ConfigurationName, tracker: Tracker, u: TicketState, now: Time)
    requires Fit(w.svc) && u.id in w.svc.tickets && e.AcceptMatchCompleted?
    requires Evolves(w.svc.tickets[u.id], u, now) && Announced(w.svc.tickets[u.id], u)
    ensures var w1 := w.Add(e); Grew(w, w1.(svc := w1.svc.SetTracker(c, tracker)).Store(u), now)
  {
    var w1 := w.Add(e);
    var w2 := w1.(svc := w1.svc.SetTracker(c, tracker));
    GrewAdd(w, e, now);
    GrewTracker(w1, c, tracker, now);
    GrewTransitive(w, w1, w2, now);
    GrewStore(w2, u, now);
    GrewTransitive(w, w2, w2.Store(u), now);
  }

  datatype SyncCase =
    | Unchanged
    | Aborted(u: TicketState)
    | Stored(u: TicketState)
    | SettledToo(u: TicketState, e: Event, tracker: Tracker)

  /** What synchronizing a ticket does to the work, and how the ticket changes. */
  lemma SyncTicketCases(x: TickInput, w: Work, settled: set<MatchID>, id: TicketID) returns (c: SyncCase)
    requires id in w.svc.tickets ==>
               w.svc.tickets[id].id == id && w.svc.tickets[id].events == [] && !w.svc.tickets[id].Terminal()
    ensures SyncTicket(x, w, settled, id).0 ==
            match c
            case Unchanged => w
            case Aborted(u) => w.Abort(u)
            case Stored(u) => w.Store(u)
            case SettledToo(u, e, tracker) =>
              var w1 := w.Add(e); w1.(svc := w1.svc.SetTracker(x.config, tracker)).Store(u)
    ensures !c.Unchanged? ==>
              && id in w.svc.tickets && c.u.id == id && Evolves(w.svc.tickets[id], c.u, x.now)
              && (c.Aborted? ==> c.u.events == [] && c.u.Terminal() == w.svc.tickets[id].Terminal())
              && (!c.Aborted? ==> Announced(w.svc.tickets[id], c.u))
    ensures c.SettledToo? ==> c.e.AcceptMatchCompleted?
  {
    hide Key;
    if id in w.svc.tickets && id in x.engine.statusAfter && x.engine.statusAfter[id] != w.svc.tickets[id].status {
      var curr := x.engine.statusAfter[id];
      var t := CaptureRuleMetrics(x, w.svc.tickets[id], curr);
      var r := FromEngine(x, t, curr);
      FromEngineEvolves(x, t, curr);
      hide FromEngine, FailureOutcome, Tracker.Forget;
      if r.None? {
        c := Aborted(t);
      } else if SettlesAcceptance(t, curr) && t.matchID != "" && t.matchID !in settled {
        var tracker := w.svc.TrackerOf(x.config);
        var known := tracker.TicketsFor(t.matchID);
        c := SettledToo(r.value,
                        AcceptMatchCompleted(t.matchID, if known.Some? then known.value else [id],
                                             FailureOutcome(w.svc, x.config, t.matchID)),
                        tracker.Forget(t.matchID));
      } else {
        c := Stored(r.value);
      }
    } else {
      c := Unchanged;
    }
  }

  lemma SyncTicketGrew(x: TickInput, w: Work, settled: set<MatchID>, id: TicketID)
    requires Fit(w.svc) && !w.failed
    requires id in w.svc.tickets ==> !w.svc.tickets[id].Terminal()
    ensures var r := SyncTicket(x, w, settled, id).0;
            && Grew(w, r, x.now)
            && (forall k <- w.svc.tickets :: k != id ==> k in r.svc.tickets && r.svc.tickets[k] == w.svc.tickets[k])
  {
    FitTicket(w.svc, id);
    hide SyncTicket, Grew, Evolves, Announced, Fit, Work.Store, Work.Abort, Service.SetTracker;
    var c := SyncTicketCases(x, w, settled, id);
    match c
    case Unchanged => GrewNothing(w, x.now);
    case Aborted(u) => GrewAbort(w, u, x.now); AbortedOthers(w, u);
    case Stored(u) => GrewStore(w, u, x.now); StoredAs(w, u);
    case SettledToo(u, e, tracker) =>
      GrewSettleAndStore(w, e, x.config, tracker, u, x.now);
      TrackerKeepsTickets(w.svc, x.config, tracker);
      StoredAs(w.Add(e).(svc := w.svc.SetTracker(x.config, tracker)), u);
  }

  lemma FitTicket(s: Service, id: TicketID)
    requires Fit(s)
    ensures id in s.tickets ==> s.tickets[id].id == id && s.tickets[id].events == []
  {
  }

  lemma AbortedOthers(w: Work, u: TicketState)
    ensures forall k <- w.svc.tickets :: k != u.id ==>
              k in w.Abort(u).svc.tickets && w.Abort(u).svc.tickets[k] == w.svc.tickets[k]
  {
  }

  lemma TrackerKeepsTickets(s: Service, c: ConfigurationName, tracker: Tracker)
    ensures s.SetTracker(c, tracker).tickets == s.tickets
  {
  }

  /** Each active ticket is looked at once, so none is looked at after it has ended. */
  lemma {:induction false} SyncTicketsGrew(x: TickInput, w: Work, settled: set<MatchID>, ids: seq<TicketID>)
    requires Fit(w.svc) && NoDuplicates(ids)
    requires forall id <- ids :: id in w.svc.tickets ==> !w.svc.tickets[id].Terminal()
    ensures Grew(w, SyncTickets(x, w, settled, ids), x.now)
    decreases |ids|
  {
    if w.failed || ids == [] {
      GrewNothing(w, x.now);
    } else {
      var (w1, s1) := SyncTicket(x, w, settled, ids[0]);
      SyncTicketGrew(x, w, settled, ids[0]);
      forall id <- ids[1..] ensures id in w1.svc.tickets ==> !w1.svc.tickets[id].Terminal() {
        assert id in ids && id != ids[0];
      }
      SyncTicketsGrew(x, w1, s1, ids[1..]);
      GrewTransitive(w, w1, SyncTickets(x, w1, s1, ids[1..]), x.now);
    }
  }

  lemma SyncGrew(x: TickInput, w: Work)
    requires Fit(w.svc)
    ensures Grew(w, Sync(x, w), x.now)
  {
    var ids := SortedListing(w.svc.Active(x.config));
    ListingDistinct(ids, w.svc.Active(x.config));
    forall id <- ids ensures id in w.svc.tickets ==> !w.svc.tickets[id].Terminal() {
      assert w.svc.Indexed(x.config, id);
    }
    SyncTicketsGrew(x, w, {}, ids);
  }
}
