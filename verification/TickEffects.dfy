/**
 What a contracted tick makes of each ticket of its configuration: the ticket it leaves, and the events that name the
 ticket, in terms of the ticket before, the tracked proposals before, and the engine's answers.
 */
module TickEffects {
  import opened Wrappers
  import opened Domain
  import opened RosterKey
  import opened ProposalTracking
  import opened ServiceState
  import opened Tick
  import opened Commands
  import opened Runs
  import opened AnyEngine
  import opened AnyRun
  import opened Traces
  import opened EngineContract
  import opened Protocol
  import opened ProtocolSettle
  import opened ProtocolFinalize
  import opened ProtocolApply
  import opened ProtocolSync
  import opened ProtocolTick
  import opened ProtocolCommands
  import opened ProtocolRun
  import opened ProtocolOrder
  import opened ProtocolStreams
  import opened TicketMoves
  import opened PassEffects

  // ----- the passes of a contracted tick

  lemma SecondPassOf(g: Session, x: TickInput, w: Work, id: TicketID)
    requires Contracted(g, x) && Settled(g, x, w) && id in w.svc.tickets
    ensures var v, t := Finalize(x, w, x.engine.matches), w.svc.tickets[id];
            && (forall mt <- x.engine.matches | id in mt.ticketIDs ::
                  Becomes(w, v, id, CompletedIn(x, t, MatchOf(x, t, mt), mt.teams), SuccessOf(x, t, mt)))
            && (!InMatches(x.engine, id) ==> Becomes(w, v, id, t, []))
  {
    hide Inv, Sound, Finalize, TickMid, Failing, Ready, RostersOk, IDsOk, CallsOk, PendingOk, AcceptanceOk, AbsorbingOk,
         FailedProposalsOk, Becomes, CompletedIn, MatchOf, SuccessOf;
    RostersApart(g, x);
    assert TickMid(g, x, w, g.used);
    forall mt <- x.engine.matches ensures Ready(x, w.svc, g.used, mt) { MatchReady(g, x, w, mt); }
    hide Contracted, Settled;
    SecondPass(g, x, w, g.used, x.engine.matches, id);
  }

  lemma ThirdPassOf(g: Session, x: TickInput, w: Work, id: TicketID)
    requires Contracted(g, x) && TickMid(g, x, w, g.used + MatchNewIDs(x.engine.matches)) && OnlyPending(x, w.svc)
    requires id in w.svc.tickets
    ensures var v, t := Apply(x, w, x.engine.pending), w.svc.tickets[id];
            && (forall p <- x.engine.pending | id in p.ticketIDs :: Becomes(w, v, id, AppliedTo(t, p), AppliedEvents(t, p)))
            && (!InPending(x.engine, id) ==> Becomes(w, v, id, t, []))
  {
    hide Inv, Sound, Apply, TickMid, Appliable, OnlyPending, RostersOk, IDsOk, CallsOk, PendingOk, AcceptanceOk,
         AbsorbingOk, FailedProposalsOk, Becomes, AppliedTo, AppliedEvents;
    RostersApart(g, x);
    var used := g.used + MatchNewIDs(x.engine.matches);
    forall p <- x.engine.pending ensures Appliable(x, w.svc, used, p) {
      ProposalGood(g, x, p);
      ProposalAppliable(g, x, w, used, p);
    }
    hide Contracted;
    ThirdPass(g, x, w, used, x.engine.pending, id);
  }

  lemma FourthPassOf(g: Session, x: TickInput, w: Work, used: set<MatchID>, id: TicketID)
    requires Contracted(g, x) && TickMid(g, x, w, used) && Mirrors(w.svc, x.config, x.engine.pending)
    requires id in w.svc.tickets && w.svc.tickets[id].config == x.config
    ensures var v, t := Sync(x, w), w.svc.tickets[id];
            if t.Terminal() then Becomes(w, v, id, t, [])
            else
              && id in x.engine.statusAfter
              && var curr := x.engine.statusAfter[id]; Becomes(w, v, id, SyncedTo(x, t, curr), SyncedEvents(x, t, curr))
  {
    hide Contracted, SyncReady, Mirrors, SyncTickets, Becomes, SyncedTo, SyncedEvents;
    var ids := SortedListing(w.svc.Active(x.config));
    ListingDistinct(ids, w.svc.Active(x.config));
    assert id in ids <==> !w.svc.tickets[id].Terminal() by { IndexedHere(g, x, w, used, id); }
    hide TickMid;
    forall k <- ids ensures SyncReady(x, w.svc, k) { ActiveReady(g, x, w, used, k); }
    FourthPass(g, x, w, used, {}, ids, id);
  }

  lemma IndexedHere(g: Session, x: TickInput, w: Work, used: set<MatchID>, id: TicketID)
    requires TickMid(g, x, w, used) && id in w.svc.tickets && w.svc.tickets[id].config == x.config
    ensures id in w.svc.Active(x.config) <==> !w.svc.tickets[id].Terminal()
  {
    hide Mid, EndedInTick, Advanced;
    assert w.svc.Indexed(x.config, id);
  }

  // ----- which case a ticket is in

  /** An unmatched ticket's proposal fails exactly if it is not pending any more. */
  lemma FailsUnless(g: Session, x: TickInput, id: TicketID)
    requires Contracted(g, x) && id in g.world.svc.tickets && g.world.svc.tickets[id].config == x.config
    requires !g.world.svc.tickets[id].Terminal() && !InMatches(x.engine, id)
    ensures var t := g.world.svc.tickets[id];
            && (t.status.RequiresAcceptance? || Pooled(t.status))
            && (FailsNow(g, x, id) <==> t.status.RequiresAcceptance? && !Continues(x, g.world.svc, t))
            && (t.status.RequiresAcceptance? ==> Tracked(g.world.svc, x.config, t.matchID))
            && (t.status.RequiresAcceptance? && Continues(x, g.world.svc, t) ==> InPending(x.engine, id))
  {
    var s, t := g.world.svc, g.world.svc.tickets[id];
    var w := Begun(g, x);
    hide Contracted, Failing, TickMid, InMatches, InPending, Continues, FailsNow;
    assert TickMid(g, x, w, g.used) by { ContractedInv(g, x); BegunMid(g, x); }
    BegunSame(g, x);
    PoolOrProposal(g, x, w, g.used, id);
    if t.status.RequiresAcceptance? {
      assert Tracked(s, x.config, t.matchID) && id in Roster(s, x.config, t.matchID);
      FailsUnlessPending(g, x, id);
    } else {
      PooledSafe(g, x, id);
    }
  }

  lemma ContractedInv(g: Session, x: TickInput)
    requires Contracted(g, x)
    ensures Inv(g) && Sound(g.world)
  {
    hide Inv, Sound, TickContract;
  }

  lemma PooledSafe(g: Session, x: TickInput, id: TicketID)
    requires Contracted(g, x) && id in g.world.svc.tickets && Pooled(g.world.svc.tickets[id].status)
    ensures !FailsNow(g, x, id)
  {
    hide Contracted;
    if FailsNow(g, x, id) {
      FailingTicket(g, x, id);
      assert false;
    }
  }

  lemma FailsUnlessPending(g: Session, x: TickInput, id: TicketID)
    requires Contracted(g, x) && id in g.world.svc.tickets && !InMatches(x.engine, id)
    requires var t := g.world.svc.tickets[id];
             Tracked(g.world.svc, x.config, t.matchID) && id in Roster(g.world.svc, x.config, t.matchID)
    ensures var t := g.world.svc.tickets[id];
            && (FailsNow(g, x, id) <==> !Continues(x, g.world.svc, t))
            && (Continues(x, g.world.svc, t) ==> InPending(x.engine, id))
  {
    var s, m := g.world.svc, g.world.svc.tickets[id].matchID;
    hide Contracted, StillPending, Matched, InMatches;
    if Matched(x, Roster(s, x.config, m)) { NotMatched(g, x, m, id); assert false; }
    if StillPending(x, Roster(s, x.config, m), s.TrackerOf(x.config).CreatedAt(m)) {
      var p := PendingHere(g, x, m);
      SameElements(Roster(s, x.config, m), p.ticketIDs);
      assert InPending(x.engine, id);
    } else {
      NotPending(x, s, m);
    }
  }

  lemma PendingHere(g: Session, x: TickInput, m: MatchID) returns (p: Proposal)
    requires Contracted(g, x) && Tracked(g.world.svc, x.config, m)
    requires StillPending(x, Roster(g.world.svc, x.config, m), g.world.svc.TrackerOf(x.config).CreatedAt(m))
    ensures p in x.engine.pending && SameProposal(g.world.svc, x.config, m, p)
  {
    hide Contracted, TickMid, StillPending;
    ContractedInv(g, x);
    BegunMid(g, x);
    BegunSame(g, x);
    p := StillPendingMeans(g, x, Begun(g, x), g.used, m);
  }

  lemma NotPending(x: TickInput, s: Service, m: MatchID)
    requires Tracked(s, x.config, m) && !StillPending(x, Roster(s, x.config, m), s.TrackerOf(x.config).CreatedAt(m))
    ensures forall p <- x.engine.pending :: !SameProposal(s, x.config, m, p)
  {
    hide Key;
    forall p <- x.engine.pending ensures !SameProposal(s, x.config, m, p) {
      if SameProposal(s, x.config, m, p) { KeyIgnoresOrder(Roster(s, x.config, m), p.ticketIDs); }
    }
  }

  lemma NotMatched(g: Session, x: TickInput, m: MatchID, id: TicketID)
    requires Contracted(g, x) && Tracked(g.world.svc, x.config, m) && id in Roster(g.world.svc, x.config, m)
    requires Matched(x, Roster(g.world.svc, x.config, m))
    ensures InMatches(x.engine, id)
  {
    hide Contracted, TickMid, Matched;
    ContractedInv(g, x);
    BegunMid(g, x);
    BegunSame(g, x);
    MatchedMeans(g, x, Begun(g, x), g.used, m);
    var mt :| mt in x.engine.matches && Proposed(x, Begun(g, x).svc, mt, m);
    SameElements(Roster(g.world.svc, x.config, m), mt.ticketIDs);
  }

  /** The engine's answers about an unmatched active ticket. */
  lemma AnswerOf(g: Session, x: TickInput, id: TicketID)
    requires Contracted(g, x) && id in g.world.svc.tickets && g.world.svc.tickets[id].config == x.config
    requires !g.world.svc.tickets[id].Terminal() && !InMatches(x.engine, id)
    ensures id in x.engine.statusAfter && (x.engine.statusAfter[id].RequiresAcceptance? <==> InPending(x.engine, id))
  {
    hide Inv, Sound, RostersOk, AcceptanceOk, FailedProposalsOk, AbsorbingOk, IDsOk, InMatches, InPending;
    RegisteredCalls(g, x, id);
  }

  // ----- a whole tick

  /** From before the tick to after it the ticket became `u`, and the batch names it by the given events. */
  ghost predicate TickMakes(g: Session, x: TickInput, id: TicketID, u: TicketState, events: seq<Event>) {
    && id in RunTick(x, g.world.svc).svc.tickets && RunTick(x, g.world.svc).svc.tickets[id] == u
    && Named(RunTick(x, g.world.svc).batch, id) == events
  }

  /** What the four passes make of a ticket, one after the other. */
  lemma PassesMake(g: Session, x: TickInput, id: TicketID)
    requires Contracted(g, x) && id in g.world.svc.tickets && g.world.svc.tickets[id].config == x.config
    ensures var w1 := Settle(x, Begun(g, x), x.order);
            var w2 := Finalize(x, w1, x.engine.matches);
            var w3 := Apply(x, w2, x.engine.pending);
            && Passes(x, g.world.svc) == Sync(x, w3)
            && id in w1.svc.tickets && id in w2.svc.tickets && id in w3.svc.tickets
            && w3.svc.tickets[id].config == x.config
            && Settled(g, x, w1)
            && TickMid(g, x, w2, g.used + MatchNewIDs(x.engine.matches)) && OnlyPending(x, w2.svc)
            && TickMid(g, x, w3, g.used + TickIDs(x)) && Mirrors(w3.svc, x.config, x.engine.pending)
  {
    var w1 := Settle(x, Begun(g, x), x.order);
    var w2 := Finalize(x, w1, x.engine.matches);
    var w3 := Apply(x, w2, x.engine.pending);
    assert g.used + TickIDs(x) == g.used + MatchNewIDs(x.engine.matches) + ProposalNewIDs(x.engine.pending);
    hide Contracted, TickMid, Settle, Finalize, Apply, Sync, Mirrors, OnlyPending, TickIDs, MatchNewIDs, ProposalNewIDs;
    AfterSettle(g, x);
    assert TickMid(g, x, w1, g.used);
    hide Settled;
    AfterFinalize(g, x, w1);
    AfterApply(g, x, w2);
    NotFailed(g, x, w3, g.used + TickIDs(x));
    DuringTick(g, x, w1, g.used, id);
    DuringTick(g, x, w2, g.used + MatchNewIDs(x.engine.matches), id);
    DuringTick(g, x, w3, g.used + TickIDs(x), id);
  }

  /** What the passes have made of a ticket that is not in a match, before the fourth. */
  function Proceeded(g: Session, x: TickInput, id: TicketID): TicketState
    requires id in g.world.svc.tickets && id in x.engine.statusAfter
  {
    var t := g.world.svc.tickets[id];
    if FailsNow(g, x, id) then SettledTicket(x, t, x.engine.statusAfter[id]) else t
  }

  function ProceededEvents(g: Session, x: TickInput, id: TicketID): seq<Event>
    requires id in g.world.svc.tickets && id in x.engine.statusAfter
    requires FailsNow(g, x, id) ==> Tracked(g.world.svc, x.config, g.world.svc.tickets[id].matchID)
  {
    var t := g.world.svc.tickets[id];
    if FailsNow(g, x, id) then Verdict(g.world.svc, x.config, t.matchID) + [SettledEvent(x, t, x.engine.statusAfter[id])] else []
  }

  lemma UnmatchedPasses(g: Session, x: TickInput, id: TicketID)
    requires Contracted(g, x) && id in g.world.svc.tickets && g.world.svc.tickets[id].config == x.config
    requires !g.world.svc.tickets[id].Terminal() && !InMatches(x.engine, id)
    ensures id in x.engine.statusAfter && (FailsNow(g, x, id) ==> Tracked(g.world.svc, x.config, g.world.svc.tickets[id].matchID))
    ensures var t1, e1, curr, v := Proceeded(g, x, id), ProceededEvents(g, x, id), x.engine.statusAfter[id], Passes(x, g.world.svc);
            && (!curr.RequiresAcceptance? ==>
                  if t1.Terminal() then Becomes(Begun(g, x), v, id, t1, e1)
                  else Becomes(Begun(g, x), v, id, SyncedTo(x, t1, curr), e1 + SyncedEvents(x, t1, curr)))
            && (curr.RequiresAcceptance? ==> exists p ::
                  && p in x.engine.pending && id in p.ticketIDs
                  && Becomes(Begun(g, x), v, id, AppliedTo(t1, p), e1 + AppliedEvents(t1, p)))
  {
    var w0 := Begun(g, x);
    var w1 := Settle(x, w0, x.order);
    var w2 := Finalize(x, w1, x.engine.matches);
    var w3 := Apply(x, w2, x.engine.pending);
    var v := Passes(x, g.world.svc);
    hide Contracted, TickMid, Settle, Finalize, Apply, Sync, Mirrors, OnlyPending, TickIDs, MatchNewIDs, Settled, Passes, Becomes,
         SettledTicket, SettledEvent, Verdict, FailsNow, InMatches, SyncedTo, SyncedEvents, AppliedTo, AppliedEvents;
    AnswerOf(g, x, id);
    if FailsNow(g, x, id) { FailingIsTrackedHere(g, x, id); }
    var t1, e1, curr := Proceeded(g, x, id), ProceededEvents(g, x, id), x.engine.statusAfter[id];
    PassesMake(g, x, id);
    AfterFirstPass(g, x, id);
    assert Becomes(w0, w1, id, t1, e1);
    BecomesIs(w0, w1, id, t1, e1);
    SecondPassOf(g, x, w1, id);
    BecomesLast(w0, w1, w2, id);
    BecomesIs(w0, w2, id, t1, e1);
    ThirdPassOf(g, x, w2, id);
    FourthPassOf(g, x, w3, g.used + TickIDs(x), id);
    if curr.RequiresAcceptance? {
      var p :| p in x.engine.pending && id in p.ticketIDs;
      BecomesTwice(w0, w2, w3, id, t1, e1, AppliedTo(t1, p), AppliedEvents(t1, p));
      BecomesIs(w0, w3, id, AppliedTo(t1, p), e1 + AppliedEvents(t1, p));
      AppliedStays(g, x, id, t1, p);
      BecomesLast(w0, w3, v, id);
    } else {
      BecomesLast(w0, w2, w3, id);
      BecomesIs(w0, w3, id, t1, e1);
      if t1.Terminal() {
        BecomesLast(w0, w3, v, id);
      } else {
        BecomesTwice(w0, w3, v, id, t1, e1, SyncedTo(x, t1, curr), SyncedEvents(x, t1, curr));
      }
    }
  }

  lemma FailingIsTrackedHere(g: Session, x: TickInput, id: TicketID)
    requires FailsNow(g, x, id)
    ensures Tracked(g.world.svc, x.config, g.world.svc.tickets[id].matchID)
  {
    hide Failing;
    FailingIsTracked(x, g.world.svc, g.world.svc.tickets[id].matchID);
  }

  lemma BecomesIs(w: Work, v: Work, id: TicketID, u: TicketState, events: seq<Event>)
    requires Becomes(w, v, id, u, events)
    ensures id in w.svc.tickets && id in v.svc.tickets && v.svc.tickets[id] == u
  {
    hide Named;
  }

  /** In a proposal the ticket requires acceptance, and the engine says so: the fourth pass leaves it alone. */
  lemma AppliedStays(g: Session, x: TickInput, id: TicketID, t1: TicketState, p: Proposal)
    requires Contracted(g, x) && id in g.world.svc.tickets && id in x.engine.statusAfter && t1 == Proceeded(g, x, id)
    requires x.engine.statusAfter[id].RequiresAcceptance? && g.world.svc.tickets[id].config == x.config
    requires !g.world.svc.tickets[id].Terminal() && !InMatches(x.engine, id)
    ensures var u := AppliedTo(t1, p);
            !u.Terminal() && SyncedTo(x, u, RequiresAcceptance) == u && SyncedEvents(x, u, RequiresAcceptance) == []
  {
    hide Contracted, FailsNow, Continues, SeatedTeams, InMatches, PlayerIDs, Seats;
    FailsUnless(g, x, id);
  }

  lemma TickIsPasses(g: Session, x: TickInput)
    requires Contracted(g, x) && !x.refused && !x.engine.fails
    ensures var w := Passes(x, g.world.svc); RunTick(x, g.world.svc) == w.(svc := w.svc.Evict(x.config, x.now))
  {
    hide Contracted, Passes, TickMid, Mirrors, RunTick, Service.Evict;
    PassesMid(g, x);
    NotFailed(g, x, Passes(x, g.world.svc), g.used + TickIDs(x));
    RunTickPasses(x, g.world.svc);
  }

  /** A ticket that is active or has only just ended outlives the sweep. */
  lemma Survives(s: Service, c: ConfigurationName, now: Time, id: TicketID)
    requires id in s.tickets && (!s.tickets[id].Terminal() || s.tickets[id].endTime == now)
    ensures var r := s.Evict(c, now); id in r.tickets && r.tickets[id] == s.tickets[id]
  {
  }

  lemma PassesToTick(g: Session, x: TickInput, id: TicketID, u: TicketState, events: seq<Event>)
    requires Contracted(g, x) && !x.refused && !x.engine.fails
    requires Becomes(Begun(g, x), Passes(x, g.world.svc), id, u, events) && (!u.Terminal() || u.endTime == x.now)
    ensures TickMakes(g, x, id, u, events)
  {
    TickIsPasses(g, x);
    Survives(Passes(x, g.world.svc).svc, x.config, x.now, id);
    NamedNothing(id);
    hide Contracted, Passes, RunTick, Service.Evict, Named;
    assert [] + events == events;
  }

  /** A ticket of a match is completed under the match's id, and told so. */
  lemma TickMatched(g: Session, x: TickInput, mt: Match, id: TicketID)
    requires Contracted(g, x) && !x.refused && !x.engine.fails && mt in x.engine.matches && id in mt.ticketIDs
    ensures id in g.world.svc.tickets
    ensures var t := g.world.svc.tickets[id];
            TickMakes(g, x, id, CompletedIn(x, t, MatchOf(x, t, mt), mt.teams), SuccessOf(x, t, mt))
  {
    var w0 := Begun(g, x);
    var w1 := Settle(x, w0, x.order);
    var w2 := Finalize(x, w1, x.engine.matches);
    var w3 := Apply(x, w2, x.engine.pending);
    var v := Passes(x, g.world.svc);
    MatchedHere(g, x, mt, id);
    var t := g.world.svc.tickets[id];
    var u, e := CompletedIn(x, t, MatchOf(x, t, mt), mt.teams), SuccessOf(x, t, mt);
    assert u.Terminal() && u.endTime == x.now;
    hide Contracted, TickMid, Settle, Finalize, Apply, Sync, Mirrors, OnlyPending, TickIDs, MatchNewIDs, Settled, Passes, Becomes,
         FailsNow, InMatches, SyncedTo, SyncedEvents, AppliedTo, AppliedEvents, CompletedIn, MatchOf, SuccessOf, TickMakes;
    PassesMake(g, x, id);
    AfterFirstPass(g, x, id);
    BecomesIs(w0, w1, id, t, []);
    SecondPassOf(g, x, w1, id);
    BecomesFirst(w0, w1, w2, id);
    BecomesIs(w0, w2, id, u, e);
    ThirdPassOf(g, x, w2, id);
    BecomesLast(w0, w2, w3, id);
    BecomesIs(w0, w3, id, u, e);
    FourthPassOf(g, x, w3, g.used + TickIDs(x), id);
    BecomesLast(w0, w3, v, id);
    PassesToTick(g, x, id, u, e);
  }

  lemma MatchedHere(g: Session, x: TickInput, mt: Match, id: TicketID)
    requires Contracted(g, x) && mt in x.engine.matches && id in mt.ticketIDs
    ensures id in g.world.svc.tickets && g.world.svc.tickets[id].config == x.config && !g.world.svc.tickets[id].Terminal()
    ensures !FailsNow(g, x, id) && !InPending(x.engine, id)
  {
    assert RostersOk(g, x) && IDsOk(g, x);
    hide Contracted, Failing, GoodRoster, RostersOk, IDsOk;
    MatchRosterGood(g, x, mt);
    Alive(g, x, mt.ticketIDs, id);
    RostersApart(g, x);
    hide MatchesApart, ProposalsApart;
    assert InMatches(x.engine, id);
    if FailsNow(g, x, id) {
      FailingUnmatched(g, x, g.world.svc.tickets[id].matchID, id);
      assert false;
    }
  }

  /** An unmatched active ticket of the configuration. */
  ghost predicate Unmatched(g: Session, x: TickInput, id: TicketID) {
    && Contracted(g, x) && !x.refused && !x.engine.fails
    && id in g.world.svc.tickets && g.world.svc.tickets[id].config == x.config
    && !g.world.svc.tickets[id].Terminal() && !InMatches(x.engine, id)
  }

  lemma UnmatchedTick(g: Session, x: TickInput, id: TicketID)
    requires Unmatched(g, x, id)
    ensures id in x.engine.statusAfter && (FailsNow(g, x, id) ==> Tracked(g.world.svc, x.config, g.world.svc.tickets[id].matchID))
    ensures var t1, e1, curr := Proceeded(g, x, id), ProceededEvents(g, x, id), x.engine.statusAfter[id];
            if curr.RequiresAcceptance? then
              exists p :: p in x.engine.pending && id in p.ticketIDs
                          && TickMakes(g, x, id, AppliedTo(t1, p), e1 + AppliedEvents(t1, p))
            else if t1.Terminal() then TickMakes(g, x, id, t1, e1)
            else TickMakes(g, x, id, SyncedTo(x, t1, curr), e1 + SyncedEvents(x, t1, curr))
  {
    hide Contracted, FailsNow, InMatches, Passes, TickMakes, Becomes, AppliedTo, AppliedEvents, ProceededEvents, SyncedTo,
         SyncedEvents, Proceeded;
    UnmatchedPasses(g, x, id);
    var t1, e1, curr := Proceeded(g, x, id), ProceededEvents(g, x, id), x.engine.statusAfter[id];
    ProceededEnded(g, x, id);
    if curr.RequiresAcceptance? {
      var p :| p in x.engine.pending && id in p.ticketIDs
               && Becomes(Begun(g, x), Passes(x, g.world.svc), id, AppliedTo(t1, p), e1 + AppliedEvents(t1, p));
      AppliedStays(g, x, id, t1, p);
      PassesToTick(g, x, id, AppliedTo(t1, p), e1 + AppliedEvents(t1, p));
    } else if t1.Terminal() {
      PassesToTick(g, x, id, t1, e1);
    } else {
      SyncedEnded(x, t1, curr);
      PassesToTick(g, x, id, SyncedTo(x, t1, curr), e1 + SyncedEvents(x, t1, curr));
    }
  }

  lemma ProceededEnded(g: Session, x: TickInput, id: TicketID)
    requires id in g.world.svc.tickets && !g.world.svc.tickets[id].Terminal() && id in x.engine.statusAfter
    ensures Proceeded(g, x, id).Terminal() ==> Proceeded(g, x, id).endTime == x.now
  {
    hide FailsNow, SettledTicket;
    SettledEnded(x, g.world.svc.tickets[id], x.engine.statusAfter[id]);
  }

  lemma SettledEnded(x: TickInput, t: TicketState, curr: TicketStatus)
    ensures SettledTicket(x, t, curr).Terminal() ==> SettledTicket(x, t, curr).endTime == x.now
  {
  }

  lemma SyncedEnded(x: TickInput, t: TicketState, curr: TicketStatus)
    requires !t.Terminal()
    ensures SyncedTo(x, t, curr).Terminal() ==> SyncedTo(x, t, curr).endTime == x.now
  {
  }

  lemma TickFailing(g: Session, x: TickInput, id: TicketID)
    requires Unmatched(g, x, id) && FailsNow(g, x, id)
    ensures id in x.engine.statusAfter && Tracked(g.world.svc, x.config, g.world.svc.tickets[id].matchID)
    ensures var t, curr := g.world.svc.tickets[id], x.engine.statusAfter[id];
            var verdict := Verdict(g.world.svc, x.config, t.matchID);
            match curr
            case Cancelled | TimedOut => TickMakes(g, x, id, EndedAs(x, t, curr), verdict + [EndEvent(x, t, curr)])
            case RequiresAcceptance =>
              exists p <- x.engine.pending :: id in p.ticketIDs
                && TickMakes(g, x, id, ProposedIn(Requeued(t, "ACCEPTANCE_FAILED"), p),
                             verdict + [SearchingStarted(id), ProposedEvent(p)])
            case _ => TickMakes(g, x, id, Requeued(t, ReasonOf(x, id)), verdict + [SearchingStarted(id)])
  {
    hide Unmatched, Contracted, FailsNow, TickMakes, Verdict, EndedAs, EndEvent, Requeued, ProposedIn, SyncedTo, SyncedEvents;
    UnmatchedTick(g, x, id);
    UnmatchedID(g, x, id);
    var t, curr := g.world.svc.tickets[id], x.engine.statusAfter[id];
    var verdict := Verdict(g.world.svc, x.config, t.matchID);
    EndedTerminal(x, t);
    RequeuedPooled(x, t, "ACCEPTANCE_FAILED");
    RequeuedPooled(x, t, ReasonOf(x, id));
    if curr.RequiresAcceptance? {
      var r := Requeued(t, "ACCEPTANCE_FAILED");
      var p :| p in x.engine.pending && id in p.ticketIDs
               && TickMakes(g, x, id, AppliedTo(r, p), ProceededEvents(g, x, id) + AppliedEvents(r, p));
      assert verdict + [SearchingStarted(id)] + [ProposedEvent(p)] == verdict + [SearchingStarted(id), ProposedEvent(p)];
    } else if !curr.Cancelled? && !curr.TimedOut? {
      SyncedRequeued(x, t, ReasonOf(x, id), curr);
      assert verdict + [SearchingStarted(id)] + [] == verdict + [SearchingStarted(id)];
    }
  }

  lemma UnmatchedID(g: Session, x: TickInput, id: TicketID)
    requires Unmatched(g, x, id)
    ensures id in g.world.svc.tickets && g.world.svc.tickets[id].id == id
  {
    hide Contracted, InMatches;
    QuietTicket(g, x, id);
  }

  lemma EndedTerminal(x: TickInput, t: TicketState)
    ensures EndedAs(x, t, Cancelled).Terminal() && EndedAs(x, t, Cancelled).endTime == x.now
    ensures EndedAs(x, t, TimedOut).Terminal() && EndedAs(x, t, TimedOut).endTime == x.now
  {
  }

  lemma RequeuedPooled(x: TickInput, t: TicketState, reason: string)
    ensures Pooled(Requeued(t, reason).status)
  {
  }

  lemma SyncedRequeued(x: TickInput, t: TicketState, reason: string, curr: TicketStatus)
    requires !curr.Cancelled? && !curr.TimedOut?
    ensures var r := Requeued(t, reason); SyncedTo(x, r, curr) == r && SyncedEvents(x, r, curr) == []
  {
  }

  lemma TickContinuing(g: Session, x: TickInput, id: TicketID)
    requires Unmatched(g, x, id) && !FailsNow(g, x, id) && g.world.svc.tickets[id].status.RequiresAcceptance?
    ensures id in x.engine.statusAfter && x.engine.statusAfter[id].RequiresAcceptance?
    ensures TickMakes(g, x, id, g.world.svc.tickets[id], [])
  {
    hide Contracted, FailsNow, InMatches, TickMakes;
    UnmatchedTick(g, x, id);
    FailsUnless(g, x, id);
    AnswerOf(g, x, id);
    var t := g.world.svc.tickets[id];
    var p :| p in x.engine.pending && id in p.ticketIDs && TickMakes(g, x, id, AppliedTo(t, p), [] + AppliedEvents(t, p));
    assert [] + AppliedEvents(t, p) == [];
  }

  lemma TickWaiting(g: Session, x: TickInput, id: TicketID)
    requires Unmatched(g, x, id) && !FailsNow(g, x, id) && Pooled(g.world.svc.tickets[id].status)
    ensures id in x.engine.statusAfter
    ensures var t, curr := g.world.svc.tickets[id], x.engine.statusAfter[id];
            match curr
            case Cancelled | TimedOut => TickMakes(g, x, id, EndedAs(x, t, curr), [EndEvent(x, t, curr)])
            case RequiresAcceptance =>
              exists p <- x.engine.pending :: id in p.ticketIDs && TickMakes(g, x, id, ProposedIn(t, p), [ProposedEvent(p)])
            case Searching => TickMakes(g, x, id, t.(status := Searching), [])
            case _ => TickMakes(g, x, id, t, [])
  {
    hide Unmatched, Contracted, FailsNow, TickMakes, EndedAs, EndEvent, ProposedIn;
    UnmatchedTick(g, x, id);
    UnmatchedID(g, x, id);
    var t, curr := g.world.svc.tickets[id], x.engine.statusAfter[id];
    if curr.RequiresAcceptance? {
      var p :| p in x.engine.pending && id in p.ticketIDs && TickMakes(g, x, id, AppliedTo(t, p), [] + AppliedEvents(t, p));
      assert [] + [ProposedEvent(p)] == [ProposedEvent(p)];
    } else {
      assert [] + SyncedEvents(x, t, curr) == SyncedEvents(x, t, curr);
    }
  }

  /**
   What becomes of an active ticket that is in no match: it ends as the engine says; or it is part of a pending proposal,
   the one it was part of before or a new one; or it waits in the pool. If its earlier proposal failed, that is announced
   first, and a ticket that goes on is announced as searching again.
   */
  lemma TickUnmatched(g: Session, x: TickInput, id: TicketID)
    requires Unmatched(g, x, id)
    ensures id in x.engine.statusAfter
    ensures var s, t, curr := g.world.svc, g.world.svc.tickets[id], x.engine.statusAfter[id];
            if t.status.RequiresAcceptance? && !Continues(x, s, t) then
              && Tracked(s, x.config, t.matchID)
              && var verdict := Verdict(s, x.config, t.matchID);
              match curr
              case Cancelled | TimedOut => TickMakes(g, x, id, EndedAs(x, t, curr), verdict + [EndEvent(x, t, curr)])
              case RequiresAcceptance =>
                exists p <- x.engine.pending :: id in p.ticketIDs
                  && TickMakes(g, x, id, ProposedIn(Requeued(t, "ACCEPTANCE_FAILED"), p),
                               verdict + [SearchingStarted(id), ProposedEvent(p)])
              case _ => TickMakes(g, x, id, Requeued(t, ReasonOf(x, id)), verdict + [SearchingStarted(id)])
            else if t.status.RequiresAcceptance? then curr.RequiresAcceptance? && TickMakes(g, x, id, t, [])
            else
              match curr
              case Cancelled | TimedOut => TickMakes(g, x, id, EndedAs(x, t, curr), [EndEvent(x, t, curr)])
              case RequiresAcceptance =>
                exists p <- x.engine.pending :: id in p.ticketIDs && TickMakes(g, x, id, ProposedIn(t, p), [ProposedEvent(p)])
              case Searching => TickMakes(g, x, id, t.(status := Searching), [])
              case _ => TickMakes(g, x, id, t, [])
  {
    hide Contracted, FailsNow, InMatches, TickMakes, Verdict, Continues, EndedAs, EndEvent, Requeued, ProposedIn;
    FailsUnless(g, x, id);
    AnswerOf(g, x, id);
    if FailsNow(g, x, id) {
      TickFailing(g, x, id);
    } else if g.world.svc.tickets[id].status.RequiresAcceptance? {
      TickContinuing(g, x, id);
    } else {
      TickWaiting(g, x, id);
    }
  }

  /** A ticket that had ended stays as it is, and is not named again. */
  lemma TickOver(g: Session, x: TickInput, id: TicketID)
    requires Contracted(g, x) && !x.refused && !x.engine.fails
    requires id in g.world.svc.tickets && g.world.svc.tickets[id].config == x.config && g.world.svc.tickets[id].Terminal()
    ensures Becomes(Begun(g, x), Passes(x, g.world.svc), id, g.world.svc.tickets[id], [])
  {
    var w0 := Begun(g, x);
    var w1 := Settle(x, w0, x.order);
    var w2 := Finalize(x, w1, x.engine.matches);
    var w3 := Apply(x, w2, x.engine.pending);
    var v, t := Passes(x, g.world.svc), g.world.svc.tickets[id];
    OverHere(g, x, id);
    hide Contracted, TickMid, Settle, Finalize, Apply, Sync, Mirrors, OnlyPending, TickIDs, MatchNewIDs, Settled, Passes, Becomes,
         FailsNow, InMatches, InPending, SyncedTo, SyncedEvents, AppliedTo, AppliedEvents, CompletedIn, MatchOf, SuccessOf;
    PassesMake(g, x, id);
    AfterFirstPass(g, x, id);
    BecomesIs(w0, w1, id, t, []);
    SecondPassOf(g, x, w1, id);
    BecomesLast(w0, w1, w2, id);
    BecomesIs(w0, w2, id, t, []);
    ThirdPassOf(g, x, w2, id);
    BecomesLast(w0, w2, w3, id);
    BecomesIs(w0, w3, id, t, []);
    FourthPassOf(g, x, w3, g.used + TickIDs(x), id);
    BecomesLast(w0, w3, v, id);
  }

  lemma OverHere(g: Session, x: TickInput, id: TicketID)
    requires Contracted(g, x) && id in g.world.svc.tickets && g.world.svc.tickets[id].Terminal()
    ensures !FailsNow(g, x, id) && !InMatches(x.engine, id) && !InPending(x.engine, id)
  {
    hide Contracted, Failing, GoodRoster;
    if FailsNow(g, x, id) {
      FailingTicket(g, x, id);
      assert false;
    }
    if mt :| mt in x.engine.matches && id in mt.ticketIDs {
      MatchRosterGood(g, x, mt);
      Alive(g, x, mt.ticketIDs, id);
      assert false;
    }
    if p :| p in x.engine.pending && id in p.ticketIDs {
      ProposalGood(g, x, p);
      Alive(g, x, p.ticketIDs, id);
      assert false;
    }
  }

  /** The ticket stands where the engine says, and the events that name it say so if it has ended. */
  predicate Answered(x: TickInput, t: TicketState, curr: TicketStatus, u: TicketState, e: seq<Event>) {
    && (u.status.Cancelled? <==> curr.Cancelled?) && (u.status.TimedOut? <==> curr.TimedOut?)
    && (u.status.RequiresAcceptance? <==> curr.RequiresAcceptance?)
    && (u.status.RequiresAcceptance? || u.status.IsTerminal() || u.status in {Queued, Searching})
    && (!u.status.IsTerminal() ==> forall i | 0 <= i < |e| :: !IsEnding(e[i]))
    && (u.status.IsTerminal() ==>
          && u.endTime == x.now && 1 <= |e| <= 2 && (|e| == 2 ==> e[0].AcceptMatchCompleted?)
          && e[|e| - 1] == (if curr.Cancelled?
                            then MatchmakingCancelled(t.id, t.matchID, "Cancelled", u.statusMessage, u.ruleMetrics)
                            else MatchmakingTimedOut(t.id, t.matchID, "TimedOut", u.statusMessage, u.ruleMetrics))
          && (curr.Cancelled? ==> (u.statusMessage == "Matchmaking stopped by client" <==> t.cancelByAPI)))
  }

  lemma EndedAnswered(x: TickInput, t: TicketState, curr: TicketStatus, verdict: seq<Event>)
    requires curr.Cancelled? || curr.TimedOut?
    requires verdict == [] || (|verdict| == 1 && verdict[0].AcceptMatchCompleted?)
    ensures Answered(x, t, curr, EndedAs(x, t, curr), verdict + [EndEvent(x, t, curr)])
    ensures Answered(x, t, curr, EndedAs(x, t, curr), [EndEvent(x, t, curr)])
  {
    hide MetricsOf;
    DifferentMessages();
  }

  lemma DifferentMessages()
    ensures "Matchmaking stopped by client" != "A player failed to accept the proposed match"
  {
    assert |"Matchmaking stopped by client"| != |"A player failed to accept the proposed match"|;
  }

  lemma RequeuedAnswered(x: TickInput, t: TicketState, curr: TicketStatus, verdict: seq<Event>, reason: string)
    requires curr.Queued? || curr.Searching?
    requires verdict == [] || (|verdict| == 1 && verdict[0].AcceptMatchCompleted?)
    ensures Answered(x, t, curr, Requeued(t, reason), verdict + [SearchingStarted(t.id)])
  {
  }

  lemma ProposedAnswered(x: TickInput, t: TicketState, r: TicketState, verdict: seq<Event>, p: Proposal)
    requires verdict == [] || (|verdict| == 1 && verdict[0].AcceptMatchCompleted?)
    ensures Answered(x, t, RequiresAcceptance, ProposedIn(r, p), verdict + [SearchingStarted(t.id), ProposedEvent(p)])
    ensures Answered(x, t, RequiresAcceptance, ProposedIn(r, p), [ProposedEvent(p)])
  {
    hide Seats;
  }

  lemma VerdictShape(s: Service, c: ConfigurationName, m: MatchID)
    requires Tracked(s, c, m)
    ensures Verdict(s, c, m) == [] || (|Verdict(s, c, m)| == 1 && Verdict(s, c, m)[0].AcceptMatchCompleted?)
  {
  }

  lemma KeptAnswered(x: TickInput, t: TicketState, curr: TicketStatus, u: TicketState)
    requires u.status == t.status && !curr.Cancelled? && !curr.TimedOut? && !t.Terminal()
    requires t.status.RequiresAcceptance? <==> curr.RequiresAcceptance?
    requires u.status in {Queued, Searching, RequiresAcceptance}
    ensures Answered(x, t, curr, u, [])
  {
  }

  lemma TickAnswer(g: Session, x: TickInput, id: TicketID) returns (u: TicketState, e: seq<Event>)
    requires Unmatched(g, x, id)
    ensures id in x.engine.statusAfter && id in g.world.svc.tickets
    ensures TickMakes(g, x, id, u, e) && Answered(x, g.world.svc.tickets[id], x.engine.statusAfter[id], u, e)
  {
    hide Unmatched, Contracted, Continues, Verdict, TickMakes, EndedAs, EndEvent, Requeued, ProposedIn, Answered;
    UnmatchedID(g, x, id);
    UnmatchedStatus(g, x, id);
    TickUnmatched(g, x, id);
    var s, t, curr := g.world.svc, g.world.svc.tickets[id], x.engine.statusAfter[id];
    if t.status.RequiresAcceptance? && !Continues(x, s, t) {
      var verdict := Verdict(s, x.config, t.matchID);
      VerdictShape(s, x.config, t.matchID);
      if curr.Cancelled? || curr.TimedOut? {
        EndedAnswered(x, t, curr, verdict);
        u, e := EndedAs(x, t, curr), verdict + [EndEvent(x, t, curr)];
      } else if curr.RequiresAcceptance? {
        var r := Requeued(t, "ACCEPTANCE_FAILED");
        var p :| p in x.engine.pending && id in p.ticketIDs
                 && TickMakes(g, x, id, ProposedIn(r, p), verdict + [SearchingStarted(id), ProposedEvent(p)]);
        ProposedAnswered(x, t, r, verdict, p);
        u, e := ProposedIn(r, p), verdict + [SearchingStarted(id), ProposedEvent(p)];
      } else {
        RequeuedAnswered(x, t, curr, verdict, ReasonOf(x, id));
        u, e := Requeued(t, ReasonOf(x, id)), verdict + [SearchingStarted(id)];
      }
    } else if t.status.RequiresAcceptance? {
      KeptAnswered(x, t, curr, t);
      u, e := t, [];
    } else {
      u, e := TickAnswerWaiting(g, x, id);
    }
  }

  lemma UnmatchedStatus(g: Session, x: TickInput, id: TicketID)
    requires Unmatched(g, x, id)
    ensures id in g.world.svc.tickets && id in x.engine.statusAfter
    ensures var t, curr := g.world.svc.tickets[id], x.engine.statusAfter[id];
            && (t.status.RequiresAcceptance? || Pooled(t.status)) && (curr.RequiresAcceptance? <==> InPending(x.engine, id))
            && (t.status.RequiresAcceptance? && !Continues(x, g.world.svc, t) ==> FailsNow(g, x, id))
            && (FailsNow(g, x, id) ==> curr in {Queued, Searching, RequiresAcceptance, Cancelled, TimedOut})
  {
    hide Contracted, InMatches, FailsNow, Continues;
    FailsUnless(g, x, id);
    AnswerOf(g, x, id);
    if FailsNow(g, x, id) { FailingTicket(g, x, id); }
  }

  lemma TickAnswerWaiting(g: Session, x: TickInput, id: TicketID) returns (u: TicketState, e: seq<Event>)
    requires Unmatched(g, x, id) && Pooled(g.world.svc.tickets[id].status)
    ensures id in x.engine.statusAfter
    ensures TickMakes(g, x, id, u, e) && Answered(x, g.world.svc.tickets[id], x.engine.statusAfter[id], u, e)
  {
    hide Unmatched, Contracted, Continues, TickMakes, EndedAs, EndEvent, ProposedIn, Answered;
    UnmatchedID(g, x, id);
    TickUnmatched(g, x, id);
    var t, curr := g.world.svc.tickets[id], x.engine.statusAfter[id];
    match curr
    case Cancelled | TimedOut =>
      EndedAnswered(x, t, curr, []);
      u, e := EndedAs(x, t, curr), [EndEvent(x, t, curr)];
    case RequiresAcceptance =>
      var p :| p in x.engine.pending && id in p.ticketIDs && TickMakes(g, x, id, ProposedIn(t, p), [ProposedEvent(p)]);
      ProposedAnswered(x, t, t, [], p);
      u, e := ProposedIn(t, p), [ProposedEvent(p)];
    case Searching =>
      SearchingAnswered(x, t);
      u, e := t.(status := Searching), [];
    case _ =>
      KeptAnswered(x, t, curr, t);
      u, e := t, [];
  }

  lemma SearchingAnswered(x: TickInput, t: TicketState)
    ensures Answered(x, t, Searching, t.(status := Searching), [])
  {
  }

  /**
   After a tick an active ticket that was in no match is cancelled, timed out or part of a proposal exactly as the engine
   says, and otherwise in the pool. If it has ended, the last event that names it says so, with the reason it is told:
   that the client stopped it exactly if the client asked for that; and before it there is at most the announcement that
   its proposal failed.
   */
  lemma TickAnswers(g: Session, x: TickInput, id: TicketID)
    requires Unmatched(g, x, id)
    ensures id in x.engine.statusAfter && id in RunTick(x, g.world.svc).svc.tickets
    ensures var t, curr := g.world.svc.tickets[id], x.engine.statusAfter[id];
            var u, e := RunTick(x, g.world.svc).svc.tickets[id], Named(RunTick(x, g.world.svc).batch, id);
            && (u.status.Cancelled? <==> curr.Cancelled?)
            && (u.status.TimedOut? <==> curr.TimedOut?)
            && (u.status.RequiresAcceptance? <==> exists p <- x.engine.pending :: id in p.ticketIDs)
            && (u.status.RequiresAcceptance? || u.status.IsTerminal() || u.status in {Queued, Searching})
            && (!u.status.IsTerminal() ==> forall i | 0 <= i < |e| :: !IsEnding(e[i]))
            && (u.status.IsTerminal() ==>
                  && u.endTime == x.now && e != []
                  && |e| <= 2 && (|e| == 2 ==> e[0].AcceptMatchCompleted?)
                  && e[|e| - 1] == (if curr.Cancelled?
                                    then MatchmakingCancelled(id, t.matchID, "Cancelled", u.statusMessage, u.ruleMetrics)
                                    else MatchmakingTimedOut(id, t.matchID, "TimedOut", u.statusMessage, u.ruleMetrics))
                  && (curr.Cancelled? ==> (u.statusMessage == "Matchmaking stopped by client" <==> t.cancelByAPI)))
  {
    hide Unmatched, Contracted, Named, RunTick;
    var u, e := TickAnswer(g, x, id);
    UnmatchedStatus(g, x, id);
    UnmatchedID(g, x, id);
  }
}
