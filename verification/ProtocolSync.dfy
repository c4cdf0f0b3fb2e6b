/** The fourth pass under the engine contract: what the engine reports about the tickets that are still active. */
module ProtocolSync {
  import opened Wrappers
  import opened Domain
  import opened RosterKey
  import opened ProposalTracking
  import opened ServiceState
  import opened Tick
  import opened Commands
  import opened Runs
  import opened AnyEngine
  import opened Traces
  import opened EngineContract
  import opened Protocol
  import opened ProtocolSettle

  /** An active ticket; if it is part of a proposal, the engine says so too. */
  predicate SyncReady(x: TickInput, s: Service, id: TicketID) {
    && id in s.tickets && s.tickets[id].config == x.config && !s.tickets[id].Terminal() && id in x.engine.statusAfter
    && (s.tickets[id].status.RequiresAcceptance? ==> x.engine.statusAfter[id].RequiresAcceptance?)
  }

  /** A waiting ticket keeps waiting, silently, or ends, announcing so without a match. */
  predicate SyncedFrom(t: TicketState, u: TicketState) {
    && u.id == t.id && u.config == t.config && u.players == t.players && u.playerAcceptances == t.playerAcceptances
    && if Pooled(u.status) then u.events == [] && Clean(u)
       else
         && (u.status.Cancelled? || u.status.TimedOut?)
         && |u.events| == 1 && u.events[0].Names(t.id) && (u.events[0].MatchmakingCancelled? || u.events[0].MatchmakingTimedOut?)
         && TicketStep(Waiting, u.events[0]) == Over
  }

  lemma SyncMoveOk(x: TickInput, t: TicketState, curr: TicketStatus)
    requires Pooled(t.status) && Clean(t) && t.events == []
    ensures var r := FromEngine(x, CaptureRuleMetrics(x, t, curr), curr);
            r.Some? && SyncedFrom(t, r.value) && (r.value.Terminal() ==> curr.IsTerminal())
  {
    hide SeatedTeams;
  }

  /** From `w` to `v` a waiting ticket became `u`, and its event, if any, was appended; nothing else changed. */
  ghost predicate Stepped(w: Work, v: Work, id: TicketID, u: TicketState) {
    && id in w.svc.tickets && u.id == id && SyncedFrom(w.svc.tickets[id], u)
    && v.svc.tickets == w.svc.tickets[id := u.Drained()] && v.svc.trackers == w.svc.trackers && v.batch == w.batch + u.events
  }

  lemma SteppedEvents(w: Work, v: Work, id: TicketID, u: TicketState)
    requires Stepped(w, v, id, u)
    ensures forall k :: Named(v.batch, k) == if k == id then Named(w.batch, k) + u.events else Named(w.batch, k)
    ensures forall m :: AboutMatch(v.batch, m) == AboutMatch(w.batch, m)
  {
    if u.events == [] {
      assert w.batch + u.events == w.batch;
    } else {
      var e := u.events[0];
      assert u.events == [e];
      hide TicketStep;
      forall k ensures Named(w.batch + [e], k) == if k == id then Named(w.batch, k) + [e] else Named(w.batch, k) {
        NamedOne(w.batch, e, k);
      }
      forall m ensures AboutMatch(w.batch + [e], m) == AboutMatch(w.batch, m) {
        AboutOne(w.batch, e, m);
      }
    }
  }

  /** Synchronizing a ticket either leaves everything alone or stores a waiting ticket the engine has moved. */
  lemma SyncTicketExact(x: TickInput, w: Work, settled: set<MatchID>, id: TicketID) returns (u: TicketState)
    requires SyncReady(x, w.svc, id) && TicketOk(w.svc.tickets[id], id) && w.svc.tickets[id].events == []
    ensures if SyncTicket(x, w, settled, id) == (w, settled) then u == w.svc.tickets[id]
            else
              && SyncTicket(x, w, settled, id) == (w.Store(u), settled)
              && Pooled(w.svc.tickets[id].status) && SyncedFrom(w.svc.tickets[id], u)
              && (u.Terminal() ==> x.engine.statusAfter[id].IsTerminal())
  {
    var t, curr := w.svc.tickets[id], x.engine.statusAfter[id];
    u := t;
    if curr != t.status {
      SyncMoveOk(x, t, curr);
      u := FromEngine(x, CaptureRuleMetrics(x, t, curr), curr).value;
      var c := CaptureRuleMetrics(x, t, curr);
      assert c.status == t.status;
      hide FromEngine, CaptureRuleMetrics, SyncedFrom, FailureOutcome, Work.Store;
      assert SyncTicket(x, w, settled, id) == (w.Store(u), settled);
      if w.Store(u) == w { u := t; }
    }
  }

  lemma SyncedTicketRel(g: Session, w: Work, v: Work, id: TicketID, u: TicketState)
    requires id in w.svc.tickets && TicketRel(g, w, id) && Pooled(w.svc.tickets[id].status) && SyncedFrom(w.svc.tickets[id], u)
    requires id in v.svc.tickets && v.svc.tickets[id] == u.Drained() && Named(v.batch, id) == Named(w.batch, id) + u.events
    ensures TicketRel(g, v, id)
  {
    hide Named, SeatedTeams;
    var before := Trace(g, w, id);
    assert Trace(g, v, id) == before + u.events;
    if u.events == [] {
      assert before + u.events == before;
    } else {
      assert u.events == [u.events[0]];
      WalkOne(Unborn, before, u.events[0]);
    }
    hide Walk, Trace;
  }

  lemma SyncTouches(g: Session, w: Work, v: Work, used: set<MatchID>, c: ConfigurationName, id: TicketID)
    requires Mid(g, w, used) && id in w.svc.tickets && w.svc.tickets[id].config == c && Pooled(w.svc.tickets[id].status)
    requires id in v.svc.tickets && v.svc.tickets == w.svc.tickets[id := v.svc.tickets[id]] && v.svc.trackers == w.svc.trackers
    requires forall k :: k != id ==> Named(v.batch, k) == Named(w.batch, k)
    requires forall m :: AboutMatch(v.batch, m) == AboutMatch(w.batch, m)
    ensures Touches(w, v, c, {id}, "") && forall d :: !Tracked(v.svc, d, "")
  {
    hide Named, AboutMatch, TicketRel, OpenRel, MatchRel;
    assert forall d :: v.svc.TrackerOf(d) == w.svc.TrackerOf(d);
    forall d ensures !Tracked(w.svc, d, "") && !Tracked(v.svc, d, "") {
      assert v.svc.TrackerOf(d) == w.svc.TrackerOf(d);
      assert Tracked(w.svc, d, "") ==> RosterRel(w.svc, d, "");
    }
    forall k | Tracked(w.svc, c, k) ensures id !in Roster(w.svc, c, k) {
      assert RosterRel(w.svc, c, k);
      assert id in Roster(w.svc, c, k) ==> InRoster(w.svc, c, k, id);
    }
  }

  lemma SyncOneMid(g: Session, x: TickInput, w: Work, used: set<MatchID>, settled: set<MatchID>, id: TicketID)
    requires TickMid(g, x, w, used) && SyncReady(x, w.svc, id)
    ensures var (v, s) := SyncTicket(x, w, settled, id);
            && TickMid(g, x, v, used) && s == settled && v.svc.trackers == w.svc.trackers && SameAbout(w.batch, v.batch)
            && (forall k <- w.svc.tickets | k != id :: k in v.svc.tickets && v.svc.tickets[k] == w.svc.tickets[k])
  {
    DuringTick(g, x, w, used, id);
    assert TicketRel(g, w, id);
    hide Walk, Trace;
    var u := SyncTicketExact(x, w, settled, id);
    var v := SyncTicket(x, w, settled, id).0;
    if v != w {
      assert v == w.Store(u);
      SyncTicketGrew(x, w, settled, id);
      hide SyncTicket, Named, AboutMatch, SyncReady, TicketRel, Mid, RosterRel, OpenRel, MatchRel, Walk;
      SyncStoredMid(g, x, w, v, used, id, u);
    }
  }

  lemma SyncStoredMid(g: Session, x: TickInput, w: Work, v: Work, used: set<MatchID>, id: TicketID, u: TicketState)
    requires TickMid(g, x, w, used) && SyncReady(x, w.svc, id) && v == w.Store(u) && Grew(w, v, x.now)
    requires Pooled(w.svc.tickets[id].status) && SyncedFrom(w.svc.tickets[id], u) && u.id == id
    requires u.Terminal() ==> x.engine.statusAfter[id].IsTerminal()
    ensures TickMid(g, x, v, used) && v.svc.trackers == w.svc.trackers && SameAbout(w.batch, v.batch)
    ensures forall k <- w.svc.tickets | k != id :: k in v.svc.tickets && v.svc.tickets[k] == w.svc.tickets[k]
  {
    hide Mid, SyncedFrom;
    assert Stepped(w, v, id, u);
    SteppedMid(g, w, v, used, id, u);
    assert SameAbout(w.batch, v.batch) by { SteppedEvents(w, v, id, u); }
    hide Work.Store, SameAbout;
    GrewTransitive(Work(g.world.svc, [], false), w, v, x.now);
    hide Grew;
    SyncedEnded(g, x, w, v, id, u);
  }

  /** A waiting ticket that keeps waiting or ends keeps the invariant. */
  lemma SteppedMid(g: Session, w: Work, v: Work, used: set<MatchID>, id: TicketID, u: TicketState)
    requires Mid(g, w, used) && Stepped(w, v, id, u) && Pooled(w.svc.tickets[id].status)
    ensures Mid(g, v, used)
  {
    hide Named, AboutMatch, TicketRel, RosterRel, OpenRel, MatchRel, SyncedFrom;
    SteppedEvents(w, v, id, u);
    assert TicketRel(g, w, id);
    SyncedTicketRel(g, w, v, id, u);
    SyncTouches(g, w, v, used, w.svc.tickets[id].config, id);
    assert v.svc.TrackerOf(w.svc.tickets[id].config) == w.svc.TrackerOf(w.svc.tickets[id].config);
    assert w.svc.TrackerOf(w.svc.tickets[id].config).Coherent();
    assert AboutMatch(v.batch, "") == AboutMatch(w.batch, "");
    SameMatchRel(g, w, v, used, "");
    hide Tracker.Coherent;
    StepMid(g, w, v, used, used, w.svc.tickets[id].config, {id}, "");
  }

  lemma SameMatchRel(g: Session, w: Work, v: Work, used: set<MatchID>, m: MatchID)
    requires Mid(g, w, used) && AboutMatch(v.batch, m) == AboutMatch(w.batch, m)
    ensures MatchRel(g, v, used, m)
  {
    hide AboutMatch, TicketRel, RosterRel, OpenRel;
    assert MatchRel(g, w, used, m);
  }

  lemma SyncedEnded(g: Session, x: TickInput, w: Work, v: Work, id: TicketID, u: TicketState)
    requires SyncReady(x, w.svc, id) && (forall k <- w.svc.tickets :: EndedInTick(g, x, w, k))
    requires v.svc.tickets == w.svc.tickets[id := u.Drained()] && SyncedFrom(w.svc.tickets[id], u)
    requires u.Terminal() ==> x.engine.statusAfter[id].IsTerminal()
    ensures forall k <- v.svc.tickets :: EndedInTick(g, x, v, k)
  {
    forall k <- v.svc.tickets ensures EndedInTick(g, x, v, k) {
      if k != id { assert EndedInTick(g, x, w, k); }
    }
  }

  lemma {:induction false} SyncTicketsMid(g: Session, x: TickInput, w: Work, used: set<MatchID>,
                                          settled: set<MatchID>, ids: seq<TicketID>)
    requires TickMid(g, x, w, used) && NoDuplicates(ids) && forall id <- ids :: SyncReady(x, w.svc, id)
    ensures var v := SyncTickets(x, w, settled, ids);
            TickMid(g, x, v, used) && v.svc.trackers == w.svc.trackers && SameAbout(w.batch, v.batch)
    decreases |ids|
  {
    if ids != [] {
      assert ids[0] in ids;
      SyncOneMid(g, x, w, used, settled, ids[0]);
      var (w1, s1) := SyncTicket(x, w, settled, ids[0]);
      hide SyncTicket, Mid, Grew, EndedInTick, AboutMatch;
      forall id <- ids[1..] ensures SyncReady(x, w1.svc, id) {
        assert id in ids && id != ids[0];
      }
      SyncTicketsMid(g, x, w1, used, settled, ids[1..]);
    }
  }

  /** The pass keeps the invariant and the tracker, and says nothing about any match. */
  lemma SyncMid(g: Session, x: TickInput, w: Work, used: set<MatchID>)
    requires TickMid(g, x, w, used)
    requires forall id <- w.svc.Active(x.config) :: id in w.svc.tickets ==> SyncReady(x, w.svc, id)
    ensures TickMid(g, x, Sync(x, w), used) && Sync(x, w).svc.trackers == w.svc.trackers
    ensures SameAbout(w.batch, Sync(x, w).batch)
  {
    hide Mid, SyncTickets, EndedInTick, SyncReady;
    var ids := SortedListing(w.svc.Active(x.config));
    ListingDistinct(ids, w.svc.Active(x.config));
    forall id <- ids ensures SyncReady(x, w.svc, id) {
      assert w.svc.Indexed(x.config, id);
    }
    SyncTicketsMid(g, x, w, used, {}, ids);
  }
}
