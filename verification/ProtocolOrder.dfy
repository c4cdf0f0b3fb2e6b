/**
 The order in which Go happens to iterate over the map of tracked proposals does not matter: settling them in any
 order leaves the same tickets, indices and tracker, and generates the same events for each ticket and each match.
 */
module ProtocolOrder {
  import opened Wrappers
  import opened Domain
  import opened RosterKey
  import opened ProposalTracking
  import opened ServiceState
  import opened Tick
  import opened Commands
  import opened Runs
  import opened AnyEngine
  import opened Traces
  import opened EngineContract
  import opened Protocol
  import opened ProtocolSettle

  /** The ticket is in the roster of a listed proposal that fails: the one its match id names. */
  predicate Fails(x: TickInput, s: Service, order: seq<MatchID>, id: TicketID) {
    && id in s.tickets
    && var m := s.tickets[id].matchID;
       m in order && Failing(x, s, m) && id in Roster(s, x.config, m)
  }

  /** What becomes of one ticket, and which events name it, without reference to the order. */
  predicate Fate(x: TickInput, w: Work, v: Work, order: seq<MatchID>, id: TicketID) {
    id in w.svc.tickets ==>
      if Fails(x, w.svc, order, id) then SettledWith(x, w, v, w.svc.tickets[id].matchID, id) else Untouched(w, v, id)
  }

  /** Which events are generated about one match, without reference to the order. */
  predicate MatchFate(x: TickInput, w: Work, v: Work, order: seq<MatchID>, m: MatchID) {
    AboutMatch(v.batch, m) ==
      AboutMatch(w.batch, m) + if m in order && Failing(x, w.svc, m) then Closing(x, w.svc, m) else []
  }

  lemma StepFate(g: Session, x: TickInput, w: Work, used: set<MatchID>, m: MatchID)
    requires TickMid(g, x, w, used) && FailedStatuses(x, w.svc)
    ensures var v := SettleProposal(x, w, m);
            (forall id :: Fate(x, w, v, [m], id)) && (forall k :: MatchFate(x, w, v, [m], k))
  {
    var v := SettleProposal(x, w, m);
    hide Key, StillPending, Matched, Grew, Named, AboutMatch, SettleMove, SettleTickets, Closing, EndedInTick,
         TicketRel, OpenRel, MatchRel;
    if Failing(x, w.svc, m) {
      SettleRoster(g, x, w, used, m);
      SettleProposalExact(x, w, m);
      hide SettleProposal, Settleable, SettledWith, Mid;
      forall id ensures Fate(x, w, v, [m], id) {
        if id in Roster(w.svc, x.config, m) { assert InRoster(w.svc, x.config, m, id); }
      }
    } else {
      assert v == w;
    }
  }

  /** A proposal that was not touched yet will be settled as if it were the first. */
  lemma LaterSame(x: TickInput, w: Work, w1: Work, v: Work, k: MatchID, id: TicketID)
    requires Tracked(w.svc, x.config, k) && Tracked(w1.svc, x.config, k)
    requires Roster(w1.svc, x.config, k) == Roster(w.svc, x.config, k) && id in Roster(w.svc, x.config, k)
    requires forall i <- Roster(w.svc, x.config, k) :: i in w.svc.tickets && Untouched(w, w1, i)
    ensures Closing(x, w1.svc, k) == Closing(x, w.svc, k)
    ensures SettledWith(x, w1, v, k, id) ==> SettledWith(x, w, v, k, id)
  {
    var ids := Roster(w.svc, x.config, k);
    forall i <- ids ensures i in w1.svc.tickets && w1.svc.tickets[i] == w.svc.tickets[i] {
      assert Untouched(w, w1, i);
    }
    assert SomeStopped(w1.svc, ids) <==> SomeStopped(w.svc, ids);
    assert SomeRejection(w1.svc, ids) <==> SomeRejection(w.svc, ids);
    hide Named, SettleMove, SomeStopped, SomeRejection;
    assert Untouched(w, w1, id);
  }

  /** For a ticket the first step leaves alone, the remaining steps decide as the whole list does. */
  lemma FailsLater(x: TickInput, w: Work, w1: Work, order: seq<MatchID>, id: TicketID)
    requires order != [] && id in w.svc.tickets && Untouched(w, w1, id) && !Fails(x, w.svc, [order[0]], id)
    requires forall j :: Tracked(w1.svc, x.config, j) <==>
               Tracked(w.svc, x.config, j) && !(j == order[0] && Failing(x, w.svc, order[0]))
    requires Within(w.svc.TrackerOf(x.config), w1.svc.TrackerOf(x.config))
    ensures Fails(x, w1.svc, order[1..], id) <==> Fails(x, w.svc, order, id)
    ensures Fails(x, w.svc, order, id) ==>
              var k := w.svc.tickets[id].matchID;
              && k != order[0] && Tracked(w.svc, x.config, k) && Tracked(w1.svc, x.config, k)
              && Roster(w1.svc, x.config, k) == Roster(w.svc, x.config, k)
  {
    hide Key, StillPending, Matched, Named;
    var k := w.svc.tickets[id].matchID;
    assert k in order <==> k == order[0] || k in order[1..];
    assert Tracked(w1.svc, x.config, k) ==> (Failing(x, w1.svc, k) <==> Failing(x, w.svc, k));
  }

  /** A ticket settled by the first step is in no tracked roster any more. */
  lemma SettledOnce(g: Session, x: TickInput, w: Work, w1: Work, used: set<MatchID>, m: MatchID, id: TicketID,
                    rest: seq<MatchID>)
    requires TickMid(g, x, w, used) && TickMid(g, x, w1, used) && FailedStatuses(x, w.svc)
    requires Failing(x, w.svc, m) && id in Roster(w.svc, x.config, m) && SettledWith(x, w, w1, m, id)
    ensures !Fails(x, w1.svc, rest, id)
  {
    hide Key, StillPending, Matched, SettleMove, Grew, TicketRel, OpenRel, MatchRel, SeatedTeams, Named;
    SettleRoster(g, x, w, used, m);
    SettleMoveOk(x, w.svc.tickets[id], id);
    hide Settleable, Closing;
    var k := w1.svc.tickets[id].matchID;
    if Tracked(w1.svc, x.config, k) {
      assert RosterRel(w1.svc, x.config, k);
      assert id in Roster(w1.svc, x.config, k) ==> InRoster(w1.svc, x.config, k, id);
    }
  }

  /** The tickets of another tracked roster are not touched by the first step. */
  lemma OthersUntouched(g: Session, x: TickInput, w: Work, used: set<MatchID>, m: MatchID, k: MatchID)
    requires TickMid(g, x, w, used) && FailedStatuses(x, w.svc) && k != m && Tracked(w.svc, x.config, k)
    ensures forall i <- Roster(w.svc, x.config, k) :: i in w.svc.tickets && Untouched(w, SettleProposal(x, w, m), i)
  {
    hide SettleProposal, Key, StillPending, Matched, Grew, Named, MatchFate, TicketRel, OpenRel,
         MatchRel, EndedInTick;
    hide FailedStatuses, SettledWith;
    StepFate(g, x, w, used, m);
    assert RosterRel(w.svc, x.config, k);
    forall i <- Roster(w.svc, x.config, k) ensures i in w.svc.tickets && Untouched(w, SettleProposal(x, w, m), i) {
      assert InRoster(w.svc, x.config, k, i);
      assert Fate(x, w, SettleProposal(x, w, m), [m], i) && !Fails(x, w.svc, [m], i);
    }
  }

  /** A ticket the first step settles keeps that fate. */
  lemma FateFirst(g: Session, x: TickInput, w: Work, v: Work, used: set<MatchID>, order: seq<MatchID>, id: TicketID)
    requires TickMid(g, x, w, used) && FailedStatuses(x, w.svc) && order != []
    requires id in w.svc.tickets && Fails(x, w.svc, [order[0]], id)
    requires Fate(x, SettleProposal(x, w, order[0]), v, order[1..], id)
    ensures Fate(x, w, v, order, id)
  {
    hide Key, Named, AboutMatch, Closing, SettleMove, SettleProposal, Mid, Grew, StillPending, Matched;
    var m := order[0];
    var w1 := SettleProposal(x, w, m);
    StepFate(g, x, w, used, m);
    SettleFirst(g, x, w, used, m);
    assert w.svc.tickets[id].matchID == m && Fate(x, w, w1, [m], id);
    assert SettledWith(x, w, w1, m, id);
    SettledOnce(g, x, w, w1, used, m, id, order[1..]);
    hide SettleProposal, SettledWith, Failing, TickMid, FailedStatuses, MatchFate, Untouched;
    assert id in w1.svc.tickets && Untouched(w1, v, id);
    SettledThenUntouched(x, w, w1, v, m, id);
  }

  lemma SettledThenUntouched(x: TickInput, w: Work, w1: Work, v: Work, m: MatchID, id: TicketID)
    requires Tracked(w.svc, x.config, m) && SettledWith(x, w, w1, m, id) && Untouched(w1, v, id)
    ensures SettledWith(x, w, v, m, id)
  {
    hide Named, Closing, SettleMove;
  }

  /** A ticket the first step leaves alone has the fate the remaining steps give it. */
  lemma FateLater(g: Session, x: TickInput, w: Work, v: Work, used: set<MatchID>, order: seq<MatchID>, id: TicketID)
    requires TickMid(g, x, w, used) && FailedStatuses(x, w.svc) && order != []
    requires id in w.svc.tickets && !Fails(x, w.svc, [order[0]], id)
    requires Fate(x, SettleProposal(x, w, order[0]), v, order[1..], id)
    ensures Fate(x, w, v, order, id)
  {
    var m := order[0];
    var w1 := SettleProposal(x, w, m);
    var k := w.svc.tickets[id].matchID;
    StepFate(g, x, w, used, m);
    assert Fate(x, w, w1, [m], id) && Untouched(w, w1, id);
    SettleFirst(g, x, w, used, m);
    FailsLater(x, w, w1, order, id);
    if Fails(x, w.svc, order, id) {
      OthersUntouched(g, x, w, used, m, k);
      hide SettleProposal, SettledWith, Closing, TickMid, FailedStatuses, Failing, Untouched;
      LaterSame(x, w, w1, v, k, id);
    } else {
      hide SettleProposal, SettledWith, TickMid, FailedStatuses, Fails, MatchFate;
    }
  }

  lemma FateOf(g: Session, x: TickInput, w: Work, v: Work, used: set<MatchID>, order: seq<MatchID>, id: TicketID)
    requires TickMid(g, x, w, used) && FailedStatuses(x, w.svc) && order != []
    requires Fate(x, SettleProposal(x, w, order[0]), v, order[1..], id)
    ensures Fate(x, w, v, order, id)
  {
    hide SettleProposal, Failing, TickMid, FailedStatuses, SettledWith, Untouched;
    if id in w.svc.tickets {
      if Fails(x, w.svc, [order[0]], id) {
        FateFirst(g, x, w, v, used, order, id);
      } else {
        FateLater(g, x, w, v, used, order, id);
      }
    }
  }

  lemma MatchFateOf(g: Session, x: TickInput, w: Work, v: Work, used: set<MatchID>, order: seq<MatchID>, k: MatchID)
    requires TickMid(g, x, w, used) && FailedStatuses(x, w.svc) && order != [] && NoDuplicates(order)
    requires MatchFate(x, SettleProposal(x, w, order[0]), v, order[1..], k)
    ensures MatchFate(x, w, v, order, k)
  {
    hide Key, Named, AboutMatch, SettleMove, SettleProposal, Mid, Grew, StillPending, Matched, SettledWith, Fate,
         Closing;
    var m := order[0];
    var w1 := SettleProposal(x, w, m);
    StepFate(g, x, w, used, m);
    SettleFirst(g, x, w, used, m);
    assert MatchFate(x, w, w1, [m], k);
    assert k in order <==> k == m || k in order[1..];
    assert m !in order[1..];
    if k != m && Failing(x, w.svc, k) {
      SameClosing(g, x, w, used, m, k);
    }
    hide TickMid, FailedStatuses;
    assert k != m ==> (Failing(x, w1.svc, k) <==> Failing(x, w.svc, k));
  }

  lemma SameClosing(g: Session, x: TickInput, w: Work, used: set<MatchID>, m: MatchID, k: MatchID)
    requires TickMid(g, x, w, used) && FailedStatuses(x, w.svc) && k != m && Tracked(w.svc, x.config, k)
    ensures var w1 := SettleProposal(x, w, m);
            Tracked(w1.svc, x.config, k) && Closing(x, w1.svc, k) == Closing(x, w.svc, k)
  {
    var w1 := SettleProposal(x, w, m);
    SettleFirst(g, x, w, used, m);
    OthersUntouched(g, x, w, used, m, k);
    assert RosterRel(w.svc, x.config, k);
    hide Key, Named, AboutMatch, SettleMove, SettleProposal, Mid, Grew, StillPending, Matched, SettledWith,
         FailedStatuses;
    var id := Roster(w.svc, x.config, k)[0];
    assert id in Roster(w.svc, x.config, k);
    LaterSame(x, w, w1, w1, k, id);
  }

  lemma NoFate(x: TickInput, w: Work)
    ensures (forall id :: Fate(x, w, w, [], id)) && (forall k :: MatchFate(x, w, w, [], k))
  {
    hide Failing, Named, AboutMatch, SettledWith, Closing;
  }

  lemma {:induction false} SettleFate(g: Session, x: TickInput, w: Work, used: set<MatchID>, order: seq<MatchID>)
    requires TickMid(g, x, w, used) && FailedStatuses(x, w.svc) && NoDuplicates(order)
    ensures forall id :: Fate(x, w, Settle(x, w, order), order, id)
    ensures forall k :: MatchFate(x, w, Settle(x, w, order), order, k)
    decreases |order|
  {
    var v := Settle(x, w, order);
    if order == [] {
      hide TickMid, FailedStatuses, Fate, MatchFate;
      NoFate(x, w);
    } else {
      hide SettleProposal, Fate, MatchFate, Mid, Grew, FailedStatuses, Failing, EndedInTick, Within;
      var w1 := SettleProposal(x, w, order[0]);
      assert v == Settle(x, w1, order[1..]);
      SettleFirst(g, x, w, used, order[0]);
      SettleFate(g, x, w1, used, order[1..]);
      hide Settle, SettleProposal, Fate, MatchFate, TickMid, FailedStatuses;
      forall id ensures Fate(x, w, v, order, id) { FateOf(g, x, w, v, used, order, id); }
      forall k ensures MatchFate(x, w, v, order, k) { MatchFateOf(g, x, w, v, used, order, k); }
    }
  }

  // ----- the result

  /** The same tickets, indices, trackers, reservations and sweep times. */
  ghost predicate SameStore(a: Service, b: Service) {
    && a.tickets == b.tickets
    && (forall c :: a.ByConfig(c) == b.ByConfig(c) && a.Active(c) == b.Active(c) && a.TrackerOf(c) == b.TrackerOf(c))
    && a.reserved == b.reserved && a.nextCleanup == b.nextCleanup && a.ticketRetention == b.ticketRetention
  }

  lemma SameIndices(a: Service, b: Service)
    requires a.IndexOk() && b.IndexOk() && a.tickets == b.tickets
    ensures forall c :: a.ByConfig(c) == b.ByConfig(c) && a.Active(c) == b.Active(c)
  {
    forall c ensures a.ByConfig(c) == b.ByConfig(c) && a.Active(c) == b.Active(c) {
      forall id ensures (id in a.ByConfig(c) <==> id in b.ByConfig(c)) && (id in a.Active(c) <==> id in b.Active(c)) {
        assert a.Indexed(c, id) && b.Indexed(c, id);
      }
    }
  }

  /** Coherent trackers with the same matches are equal. */
  lemma SameTracker(a: Tracker, b: Tracker)
    requires a.Coherent() && b.Coherent()
    requires forall k :: k in a.byMatch <==> k in b.byMatch
    requires forall k <- a.byMatch :: a.byMatch[k] == b.byMatch[k] && a.CreatedAt(k) == b.CreatedAt(k)
    ensures a == b
  {
    hide Key;
    assert a.byMatch == b.byMatch;
    assert a.createdAt.Keys == b.createdAt.Keys;
    forall k <- a.createdAt ensures a.createdAt[k] == b.createdAt[k] { assert a.CreatedAt(k) == b.CreatedAt(k); }
    assert a.createdAt == b.createdAt;
    forall k ensures k in a.matchIDs <==> k in b.matchIDs {
      if k in a.matchIDs { assert a.matchIDs[k] in b.byMatch; }
      if k in b.matchIDs { assert b.matchIDs[k] in a.byMatch; }
    }
    forall k <- a.matchIDs ensures a.matchIDs[k] == b.matchIDs[k] { assert a.matchIDs[k] in b.byMatch; }
    assert a.matchIDs == b.matchIDs;
  }

  lemma {:induction false} SettleTicketsTrackers(x: TickInput, w: Work, ids: seq<TicketID>)
    ensures SettleTickets(x, w, ids).svc.trackers == w.svc.trackers
    decreases |ids|
  {
    if !w.failed && ids != [] {
      SettleTicketsTrackers(x, SettleTicket(x, w, ids[0]), ids[1..]);
    }
  }

  lemma {:induction false} SettleOtherTrackers(x: TickInput, w: Work, order: seq<MatchID>, d: ConfigurationName)
    requires d != x.config
    ensures Settle(x, w, order).svc.TrackerOf(d) == w.svc.TrackerOf(d)
    decreases |order|
  {
    hide Key, SettleTickets, StillPending, Matched;
    if !w.failed && order != [] {
      var m := order[0];
      if Tracked(w.svc, x.config, m) {
        var ids := Roster(w.svc, x.config, m);
        SettleTicketsTrackers(x, w, ids);
        SettleTicketsTrackers(x, w.Add(AcceptMatchCompleted(m, ids, FailureOutcome(w.svc, x.config, m))), ids);
      }
      SettleOtherTrackers(x, SettleProposal(x, w, m), order[1..], d);
    }
  }

  /** Two orders with the same elements give every ticket and every match the same fate. */
  lemma SameFate(x: TickInput, w: Work, u: Work, v: Work, a: seq<MatchID>, b: seq<MatchID>)
    requires forall m :: m in a <==> m in b
    requires u.svc.tickets.Keys == v.svc.tickets.Keys == w.svc.tickets.Keys
    requires forall id :: Fate(x, w, u, a, id) && Fate(x, w, v, b, id)
    requires forall k :: MatchFate(x, w, u, a, k) && MatchFate(x, w, v, b, k)
    ensures u.svc.tickets == v.svc.tickets
    ensures forall id <- w.svc.tickets :: Named(u.batch, id) == Named(v.batch, id)
    ensures forall k :: AboutMatch(u.batch, k) == AboutMatch(v.batch, k)
  {
    hide Key, Named, AboutMatch, SettleMove, Failing, Closing;
    forall id <- w.svc.tickets
      ensures u.svc.tickets[id] == v.svc.tickets[id] && Named(u.batch, id) == Named(v.batch, id)
    {
      assert Fate(x, w, u, a, id) && Fate(x, w, v, b, id);
    }
    forall k ensures AboutMatch(u.batch, k) == AboutMatch(v.batch, k) {
      assert MatchFate(x, w, u, a, k) && MatchFate(x, w, v, b, k);
    }
  }

  /** The store after settling, described without reference to the order. */
  ghost predicate SettledStore(x: TickInput, w: Work, v: Work, order: seq<MatchID>) {
    && v.svc.tickets.Keys == w.svc.tickets.Keys && v.svc.IndexOk()
    && v.svc.reserved == w.svc.reserved && v.svc.nextCleanup == w.svc.nextCleanup
    && v.svc.ticketRetention == w.svc.ticketRetention
    && (forall d | d != x.config :: v.svc.TrackerOf(d) == w.svc.TrackerOf(d))
    && v.svc.TrackerOf(x.config).Coherent()
    && Within(w.svc.TrackerOf(x.config), v.svc.TrackerOf(x.config))
    && (forall m :: Tracked(v.svc, x.config, m) <==> Tracked(w.svc, x.config, m) && !(m in order && Failing(x, w.svc, m)))
  }

  lemma SettleStore(g: Session, x: TickInput, w: Work, used: set<MatchID>, order: seq<MatchID>)
    requires TickMid(g, x, w, used) && FailedStatuses(x, w.svc)
    ensures SettledStore(x, w, Settle(x, w, order), order)
  {
    var v := Settle(x, w, order);
    SettleMid(g, x, w, used, order);
    SettleGrew(x, w, order);
    hide Settle, Key, Failing, TicketRel, RosterRel, OpenRel, MatchRel, Advanced, EndedInTick;
    forall d | d != x.config ensures v.svc.TrackerOf(d) == w.svc.TrackerOf(d) {
      SettleOtherTrackers(x, w, order, d);
    }
  }

  lemma SameStoreAfter(x: TickInput, w: Work, u: Work, v: Work, a: seq<MatchID>, b: seq<MatchID>)
    requires SettledStore(x, w, u, a) && SettledStore(x, w, v, b) && u.svc.tickets == v.svc.tickets
    requires forall m :: m in a <==> m in b
    ensures SameStore(u.svc, v.svc)
  {
    hide Failing, Key;
    SameIndices(u.svc, v.svc);
    forall k ensures k in u.svc.TrackerOf(x.config).byMatch <==> k in v.svc.TrackerOf(x.config).byMatch {
      assert Tracked(u.svc, x.config, k) <==> Tracked(v.svc, x.config, k);
    }
    SameTracker(u.svc.TrackerOf(x.config), v.svc.TrackerOf(x.config));
    hide Service.IndexOk, Tracker.Coherent;
    forall d ensures u.svc.TrackerOf(d) == v.svc.TrackerOf(d) {
      if d != x.config { assert u.svc.TrackerOf(d) == w.svc.TrackerOf(d) == v.svc.TrackerOf(d); }
    }
  }

  /**
   Settling the tracked proposals in two different orders leaves the same store, and generates the same events,
   in the same order, for each ticket and for each match.
   */
  lemma OrderIrrelevant(g: Session, x: TickInput, w: Work, used: set<MatchID>, a: seq<MatchID>, b: seq<MatchID>)
    requires TickMid(g, x, w, used) && FailedStatuses(x, w.svc)
    requires NoDuplicates(a) && NoDuplicates(b) && forall m :: m in a <==> m in b
    ensures SameStore(Settle(x, w, a).svc, Settle(x, w, b).svc)
    ensures forall id <- w.svc.tickets :: Named(Settle(x, w, a).batch, id) == Named(Settle(x, w, b).batch, id)
    ensures forall m :: AboutMatch(Settle(x, w, a).batch, m) == AboutMatch(Settle(x, w, b).batch, m)
  {
    hide Settle, Fate, MatchFate, Key, Failing, Named, AboutMatch, TickMid, FailedStatuses;
    SettleStore(g, x, w, used, a);
    SettleStore(g, x, w, used, b);
    SettleFate(g, x, w, used, a);
    SettleFate(g, x, w, used, b);
    SameFate(x, w, Settle(x, w, a), Settle(x, w, b), a, b);
    SameStoreAfter(x, w, Settle(x, w, a), Settle(x, w, b), a, b);
  }
}
