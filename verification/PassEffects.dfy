/**
 What each pass of a contracted tick makes of each ticket of its configuration, and the events by which it names the
 ticket.
 */
module PassEffects {
  import opened Wrappers
  import opened Domain
  import opened RosterKey
  import opened ProposalTracking
  import opened ServiceState
  import opened Tick
  import opened Commands
  import opened Runs
  import opened AnyEngine
  import opened AnyRun
  import opened Traces
  import opened EngineContract
  import opened Protocol
  import opened ProtocolSettle
  import opened ProtocolFinalize
  import opened ProtocolApply
  import opened ProtocolSync
  import opened ProtocolTick
  import opened ProtocolCommands
  import opened ProtocolRun
  import opened ProtocolOrder
  import opened ProtocolStreams
  import opened TicketMoves

  /** The tracked proposal of the ticket's match is still pending. */
  ghost predicate Continues(x: TickInput, s: Service, t: TicketState) {
    Tracked(s, x.config, t.matchID) && exists p <- x.engine.pending :: SameProposal(s, x.config, t.matchID, p)
  }

  /** The announcement that a proposal's acceptance failed: none if the client stopped one of its tickets. */
  function Verdict(s: Service, c: ConfigurationName, m: MatchID): seq<Event>
    requires Tracked(s, c, m)
  {
    var ids := Roster(s, c, m);
    if exists id <- ids :: id in s.tickets && s.tickets[id].cancelByAPI then []
    else if exists id <- ids, p ::
      id in s.tickets && p in s.tickets[id].playerAcceptances && !s.tickets[id].playerAcceptances[p]
    then [AcceptMatchCompleted(m, ids, Rejected)]
    else [AcceptMatchCompleted(m, ids, Lapsed)]
  }

  lemma VerdictIs(x: TickInput, s: Service, m: MatchID)
    requires Tracked(s, x.config, m)
    ensures Closing(x, s, m) == Verdict(s, x.config, m)
  {
  }

  /** From `w` to `v` the ticket became `u`, and was named by the given events. */
  predicate Becomes(w: Work, v: Work, id: TicketID, u: TicketState, events: seq<Event>) {
    && id in w.svc.tickets && id in v.svc.tickets && v.svc.tickets[id] == u
    && Named(v.batch, id) == Named(w.batch, id) + events
  }

  lemma BecomesTwice(w: Work, v: Work, r: Work, id: TicketID, t: TicketState, a: seq<Event>, u: TicketState, b: seq<Event>)
    requires Becomes(w, v, id, t, a) && Becomes(v, r, id, u, b)
    ensures Becomes(w, r, id, u, a + b)
  {
    hide Named;
    assert Named(w.batch, id) + a + b == Named(w.batch, id) + (a + b);
  }

  lemma UntouchedBecomes(w: Work, v: Work, id: TicketID)
    requires id in w.svc.tickets && Untouched(w, v, id)
    ensures Becomes(w, v, id, w.svc.tickets[id], [])
  {
    hide Named;
    assert Named(w.batch, id) + [] == Named(w.batch, id);
  }

  // ----- the first pass

  /** Where the first pass leaves a ticket whose proposal has failed. */
  function SettledTicket(x: TickInput, t: TicketState, curr: TicketStatus): TicketState {
    match curr
    case Cancelled => EndedAs(x, t, curr)
    case TimedOut => EndedAs(x, t, curr)
    case RequiresAcceptance => Requeued(t, "ACCEPTANCE_FAILED")
    case _ => Requeued(t, ReasonOf(x, t.id))
  }

  function SettledEvent(x: TickInput, t: TicketState, curr: TicketStatus): Event {
    if curr.Cancelled? || curr.TimedOut? then EndEvent(x, t, curr) else SearchingStarted(t.id)
  }

  lemma SettleMoveMeans(x: TickInput, t: TicketState, id: TicketID)
    requires Settleable(x, t, id)
    ensures var r, curr := SettleMove(x, t), x.engine.status[id];
            r.Some? && r.value.Drained() == SettledTicket(x, t, curr) && r.value.events == [SettledEvent(x, t, curr)]
  {
    hide CaptureRuleMetrics, SettleMove, TicketState.MarkCancelled, TicketState.MarkTimedOut, TicketState.ReturnToSearching,
         EndedAs, EndEvent, Requeued, MetricsOf, TicketState.Drained;
    var curr := x.engine.status[id];
    SettleMoveIs(x, t);
    MetricsAre(x, t, curr);
    EndMeans(x, t);
    RequeueMeans(t, "ACCEPTANCE_FAILED");
    RequeueMeans(t, ReasonOf(x, t.id));
  }

  /** The ticket is in a proposal that fails in this tick. */
  predicate FailsNow(g: Session, x: TickInput, id: TicketID) {
    id in g.world.svc.tickets && Failing(x, g.world.svc, g.world.svc.tickets[id].matchID)
    && id in Roster(g.world.svc, x.config, g.world.svc.tickets[id].matchID)
  }

  lemma AfterFirstPass(g: Session, x: TickInput, id: TicketID)
    requires Contracted(g, x) && id in g.world.svc.tickets
    ensures var w, t := Settle(x, Begun(g, x), x.order), g.world.svc.tickets[id];
            if FailsNow(g, x, id) then
              && id in x.engine.statusAfter
              && Becomes(Begun(g, x), w, id, SettledTicket(x, t, x.engine.statusAfter[id]),
                         Verdict(g.world.svc, x.config, t.matchID) + [SettledEvent(x, t, x.engine.statusAfter[id])])
            else Becomes(Begun(g, x), w, id, t, [])
  {
    var w, v, t := Begun(g, x), Settle(x, Begun(g, x), x.order), g.world.svc.tickets[id];
    hide Contracted, Settle, Sound, Named, TickMid, Mirrors, EngineKnows, FailedStatuses, MatchFate, SettledWith, Failing, Becomes,
         SettledTicket, SettledEvent, Verdict, Closing, Fate;
    BegunMid(g, x);
    BegunFailed(g, x);
    OrderTracked(g, x);
    SettleFate(g, x, w, g.used, x.order);
    assert Fate(x, w, v, x.order, id);
    SameFails(g, x, id);
    if FailsNow(g, x, id) {
      SettledBecomes(g, x, v, id);
    } else {
      NotSettled(x, w, v, id);
      UntouchedBecomes(w, v, id);
    }
  }

  lemma NotSettled(x: TickInput, w: Work, v: Work, id: TicketID)
    requires Fate(x, w, v, x.order, id) && id in w.svc.tickets && !Fails(x, w.svc, x.order, id)
    ensures Untouched(w, v, id)
  {
    hide Fails, SettledWith;
  }

  lemma SameFails(g: Session, x: TickInput, id: TicketID)
    requires Contracted(g, x) && id in g.world.svc.tickets
    ensures Fails(x, Begun(g, x).svc, x.order, id) <==> FailsNow(g, x, id)
    ensures Begun(g, x).svc.tickets == g.world.svc.tickets
  {
    hide Contracted, Failing;
    BegunSame(g, x);
    OrderTracked(g, x);
    var m := g.world.svc.tickets[id].matchID;
    if Failing(x, g.world.svc, m) { FailingIsTracked(x, g.world.svc, m); }
  }

  lemma FailingIsTracked(x: TickInput, s: Service, m: MatchID)
    requires Failing(x, s, m)
    ensures Tracked(s, x.config, m)
  {
  }

  lemma FailingTicket(g: Session, x: TickInput, id: TicketID)
    requires Contracted(g, x) && FailsNow(g, x, id)
    ensures Settleable(x, g.world.svc.tickets[id], id) && FailedStatus(x, id)
  {
    var m := g.world.svc.tickets[id].matchID;
    hide Contracted, Failing, InRoster;
    FailedTicket(g, x, m, id);
    FailingIsTracked(x, g.world.svc, m);
    var p := TrackedTicket(g, x, m, id);
    QuietTicket(g, x, id);
    RosterStatus(g.world.svc, x.config, m, id);
  }

  lemma RosterStatus(s: Service, c: ConfigurationName, m: MatchID, id: TicketID)
    requires InRoster(s, c, m, id)
    ensures id in s.tickets && s.tickets[id].status.RequiresAcceptance? && s.tickets[id].matchID == m && s.tickets[id].config == c
  {
  }

  lemma QuietTicket(g: Session, x: TickInput, id: TicketID)
    requires Contracted(g, x) && id in g.world.svc.tickets
    ensures g.world.svc.tickets[id].id == id && g.world.svc.tickets[id].events == []
  {
    hide Inv, TickContract, OneBackfillPerSession, TicketSound;
  }

  lemma SettledBecomes(g: Session, x: TickInput, v: Work, id: TicketID)
    requires Contracted(g, x) && FailsNow(g, x, id) && Fate(x, Begun(g, x), v, x.order, id)
    requires Fails(x, Begun(g, x).svc, x.order, id) && Begun(g, x).svc.tickets == g.world.svc.tickets
    ensures var t := g.world.svc.tickets[id];
            && id in x.engine.statusAfter
            && Becomes(Begun(g, x), v, id, SettledTicket(x, t, x.engine.statusAfter[id]),
                       Verdict(g.world.svc, x.config, t.matchID) + [SettledEvent(x, t, x.engine.statusAfter[id])])
  {
    var t, w := g.world.svc.tickets[id], Begun(g, x);
    hide Contracted, Failing, Settleable, SettleMove, SettledTicket, SettledEvent, Verdict, Named, Fails, SettledWith, Fate, Closing,
         Becomes;
    FailingTicket(g, x, id);
    BegunSame(g, x);
    SettleMoveMeans(x, t, id);
    SettledAs(x, w, v, id);
    SameVerdict(x, w.svc, g.world.svc, t.matchID);
    VerdictIs(x, g.world.svc, t.matchID);
    SettledInto(x, w, v, t.matchID, id, x.engine.statusAfter[id]);
  }

  lemma SettledInto(x: TickInput, w: Work, v: Work, m: MatchID, id: TicketID, curr: TicketStatus)
    requires Tracked(w.svc, x.config, m) && SettledWith(x, w, v, m, id)
    requires var t := w.svc.tickets[id];
             && t.id in x.engine.status && SettleMove(x, t).Some?
             && SettleMove(x, t).value.Drained() == SettledTicket(x, t, curr)
             && SettleMove(x, t).value.events == [SettledEvent(x, t, curr)]
    ensures var t := w.svc.tickets[id];
            Becomes(w, v, id, SettledTicket(x, t, curr), Closing(x, w.svc, m) + [SettledEvent(x, t, curr)])
  {
    hide SettleMove, SettledTicket, SettledEvent, Named, Closing;
    var t := w.svc.tickets[id];
    var c, e := Closing(x, w.svc, m), [SettledEvent(x, t, curr)];
    assert Named(w.batch, id) + c + e == Named(w.batch, id) + (c + e);
  }

  lemma SettledAs(x: TickInput, w: Work, v: Work, id: TicketID)
    requires Fate(x, w, v, x.order, id) && Fails(x, w.svc, x.order, id)
    ensures Tracked(w.svc, x.config, w.svc.tickets[id].matchID)
    ensures SettledWith(x, w, v, w.svc.tickets[id].matchID, id)
  {
    hide SettledWith;
  }

  lemma SameVerdict(x: TickInput, s: Service, r: Service, m: MatchID)
    requires s.tickets == r.tickets && s.TrackerOf(x.config) == r.TrackerOf(x.config) && Tracked(s, x.config, m)
    ensures Tracked(r, x.config, m) && Closing(x, s, m) == Closing(x, r, m)
  {
  }

  // ----- the second pass

  /** The id a ticket's match is completed under: its own where it was asked to accept, a new one elsewhere. */
  function MatchOf(x: TickInput, t: TicketState, mt: Match): MatchID {
    if x.acceptanceRequired then t.matchID else mt.newID
  }

  function SuccessOf(x: TickInput, t: TicketState, mt: Match): seq<Event> {
    var m := MatchOf(x, t, mt);
    if x.acceptanceRequired then [AcceptMatchCompleted(m, mt.ticketIDs, Accepted), MatchmakingSucceeded(m, mt.ticketIDs)]
    else [PotentialMatchCreated(m, mt.ticketIDs, mt.metrics), MatchmakingSucceeded(m, mt.ticketIDs)]
  }

  lemma OneMatch(g: Session, x: TickInput, w: Work, used: set<MatchID>, mt: Match, id: TicketID)
    requires TickMid(g, x, w, used) && Ready(x, w.svc, used, mt) && id in w.svc.tickets
    ensures var v, t := FinalizeMatch(x, w, mt), w.svc.tickets[id];
            if id in mt.ticketIDs then Becomes(w, v, id, CompletedIn(x, t, MatchOf(x, t, mt), mt.teams), SuccessOf(x, t, mt))
            else Becomes(w, v, id, t, [])
  {
    hide FinalizeMatch, Key, Mid, Grew, EndedInTick, AnnouncedID, Success, TrackerAfter, Finalizable, Named, AboutMatch,
         TicketRel, Becomes, Concluded, Proposed, CompletedIn, MatchOf, SuccessOf;
    forall i <- mt.ticketIDs ensures i in w.svc.tickets && Finalizable(x, w.svc.tickets[i], i) {
      ReadyTicket(g, x, w, used, mt, i);
    }
    FinalizeMatchExact(x, w, mt);
    var v := FinalizeMatch(x, w, mt);
    if id in mt.ticketIDs {
      ReadyCases(g, x, w, used, mt);
      ReadyTicket(g, x, w, used, mt, id);
      MatchBecomes(x, w, v, mt, id);
    } else {
      UntouchedBecomes(w, v, id);
    }
  }

  lemma MatchBecomes(x: TickInput, w: Work, v: Work, mt: Match, id: TicketID)
    requires Concluded(x, w, v, mt, id)
    requires var k, t := AnnouncedID(x, w.svc, mt), w.svc.tickets[id];
             if x.acceptanceRequired then Success(x, w.svc, mt) == AcceptedSuccess(k, mt) && StatusPhase(t) == InMatch(k)
             else Success(x, w.svc, mt) == DirectSuccess(k, mt) && k == mt.newID && k != ""
    ensures var t := w.svc.tickets[id];
            Becomes(w, v, id, CompletedIn(x, t, MatchOf(x, t, mt), mt.teams), SuccessOf(x, t, mt))
  {
    hide Named, AnnouncedID, Success;
  }

  lemma {:induction false} SecondPass(g: Session, x: TickInput, w: Work, used: set<MatchID>, matches: seq<Match>, id: TicketID)
    requires TickMid(g, x, w, used) && MatchesApart(matches) && id in w.svc.tickets
    requires forall mt <- matches :: Ready(x, w.svc, used, mt)
    ensures var v, t := Finalize(x, w, matches), w.svc.tickets[id];
            && (forall mt <- matches | id in mt.ticketIDs ::
                  Becomes(w, v, id, CompletedIn(x, t, MatchOf(x, t, mt), mt.teams), SuccessOf(x, t, mt)))
            && ((forall mt <- matches :: id !in mt.ticketIDs) ==> Becomes(w, v, id, t, []))
    decreases |matches|
  {
    hide FinalizeMatch, TickMid, Ready, Finalize, Apply, Within, Tracked, Becomes, CompletedIn, MatchOf, SuccessOf;
    if matches == [] {
      NothingLeft(x, w, id);
      UntouchedSelf(w, id);
    } else {
      var first, rest := matches[0], matches[1..];
      var w1 := FinalizeMatch(x, w, first);
      var v := Finalize(x, w, matches);
      assert first in matches && forall mt :: mt in matches <==> mt == first || mt in rest;
      OneMatch(g, x, w, used, first, id);
      FinalizeFirst(g, x, w, used, matches);
      assert id in w1.svc.tickets by { StillThere(w, w1, id); }
      SecondPass(g, x, w1, used + {first.newID}, rest, id);
      if id in first.ticketIDs {
        forall mt <- rest ensures id !in mt.ticketIDs {
          var j :| 1 <= j < |matches| && matches[j] == mt;
          assert Apart(matches[0].ticketIDs, matches[j].ticketIDs);
        }
        BecomesLast(w, w1, v, id);
      } else {
        BecomesFirst(w, w1, v, id);
      }
    }
  }

  lemma UntouchedSelf(w: Work, id: TicketID)
    requires id in w.svc.tickets
    ensures Becomes(w, w, id, w.svc.tickets[id], [])
  {
    hide Named;
    assert Named(w.batch, id) + [] == Named(w.batch, id);
  }

  lemma StillThere(w: Work, v: Work, id: TicketID)
    requires exists u, e :: Becomes(w, v, id, u, e)
    ensures id in v.svc.tickets
  {
    hide Named;
  }

  /** What is left alone afterwards keeps what it became. */
  lemma BecomesLast(w: Work, v: Work, r: Work, id: TicketID)
    requires id in v.svc.tickets && Becomes(v, r, id, v.svc.tickets[id], [])
    ensures forall u, e {:trigger Becomes(w, v, id, u, e)} :: Becomes(w, v, id, u, e) ==> Becomes(w, r, id, u, e)
  {
    hide Named;
    forall u, e | Becomes(w, v, id, u, e) ensures Becomes(w, r, id, u, e) {
      assert Named(w.batch, id) + e + [] == Named(w.batch, id) + e;
    }
  }

  /** What was left alone before becomes what the rest makes of it. */
  lemma BecomesFirst(w: Work, v: Work, r: Work, id: TicketID)
    requires id in w.svc.tickets && Becomes(w, v, id, w.svc.tickets[id], [])
    ensures v.svc.tickets[id] == w.svc.tickets[id]
    ensures forall u, e {:trigger Becomes(v, r, id, u, e)} :: Becomes(v, r, id, u, e) ==> Becomes(w, r, id, u, e)
  {
    hide Named;
    assert Named(w.batch, id) + [] == Named(w.batch, id);
  }

  // ----- the third pass

  function ProposedEvent(p: Proposal): Event {
    PotentialMatchCreated(p.newID, p.ticketIDs, p.metrics)
  }

  /** A waiting ticket joins the proposal; a ticket that is part of it already stays as it is. */
  function AppliedTo(t: TicketState, p: Proposal): TicketState {
    if Pooled(t.status) then ProposedIn(t, p) else t
  }

  function AppliedEvents(t: TicketState, p: Proposal): seq<Event> {
    if Pooled(t.status) then [ProposedEvent(p)] else []
  }

  lemma OneProposal(g: Session, x: TickInput, w: Work, used: set<MatchID>, p: Proposal, id: TicketID)
    requires TickMid(g, x, w, used) && Appliable(x, w.svc, used, p) && id in w.svc.tickets
    ensures var v, t := ApplyProposal(x, w, p), w.svc.tickets[id];
            if id in p.ticketIDs then Becomes(w, v, id, AppliedTo(t, p), AppliedEvents(t, p)) else Becomes(w, v, id, t, [])
  {
    hide ApplyProposal, Key, Mid, Grew, EndedInTick, Named, AboutMatch, Joined, Assignable, SameProposal, Becomes, ProposedIn;
    if k :| TrackedAs(x, w.svc, p, k) {
      ApplyKnown(g, x, w, used, p, k);
      UntouchedSelf(w, id);
      if id in p.ticketIDs { TrackedNotPooled(g, x, w, used, p, k, id); }
    } else {
      NewReady(g, x, w, used, p);
      ApplyNewExact(x, w, p);
      if id in p.ticketIDs {
        JoinedBecomes(w, ApplyProposal(x, w, p), p, id);
      } else {
        UntouchedBecomes(w, ApplyProposal(x, w, p), id);
      }
    }
  }

  lemma JoinedBecomes(w: Work, v: Work, p: Proposal, id: TicketID)
    requires Joined(w, v, p, id)
    ensures Becomes(w, v, id, ProposedIn(w.svc.tickets[id], p), [ProposedEvent(p)])
  {
    hide Named;
  }

  lemma TrackedNotPooled(g: Session, x: TickInput, w: Work, used: set<MatchID>, p: Proposal, k: MatchID, id: TicketID)
    requires Mid(g, w, used) && TrackedAs(x, w.svc, p, k) && id in p.ticketIDs
    ensures id in w.svc.tickets && !Pooled(w.svc.tickets[id].status)
  {
    SameElements(Roster(w.svc, x.config, k), p.ticketIDs);
    MidRoster(g, w, used, x.config, k);
    hide Mid;
    assert InRoster(w.svc, x.config, k, id);
  }

  lemma {:induction false} ThirdPass(g: Session, x: TickInput, w: Work, used: set<MatchID>, pending: seq<Proposal>, id: TicketID)
    requires TickMid(g, x, w, used) && ProposalsApart(pending) && id in w.svc.tickets
    requires forall p <- pending :: Appliable(x, w.svc, used, p)
    ensures var v, t := Apply(x, w, pending), w.svc.tickets[id];
            && (forall p <- pending | id in p.ticketIDs :: Becomes(w, v, id, AppliedTo(t, p), AppliedEvents(t, p)))
            && ((forall p <- pending :: id !in p.ticketIDs) ==> Becomes(w, v, id, t, []))
    decreases |pending|
  {
    hide ApplyProposal, TickMid, Appliable, AddedTo, Finalize, Apply, Becomes, AppliedTo, AppliedEvents;
    if pending == [] {
      NothingLeft(x, w, id);
      UntouchedSelf(w, id);
    } else {
      var first, rest := pending[0], pending[1..];
      var w1 := ApplyProposal(x, w, first);
      var v := Apply(x, w, pending);
      assert first in pending && forall p :: p in pending <==> p == first || p in rest;
      OneProposal(g, x, w, used, first, id);
      ApplyFirst(g, x, w, used, pending);
      assert id in w1.svc.tickets by { StillThere(w, w1, id); }
      ThirdPass(g, x, w1, used + {first.newID}, rest, id);
      if id in first.ticketIDs {
        forall p <- rest ensures id !in p.ticketIDs {
          var j :| 1 <= j < |pending| && pending[j] == p;
          assert Apart(pending[0].ticketIDs, pending[j].ticketIDs);
        }
        BecomesLast(w, w1, v, id);
      } else {
        BecomesFirst(w, w1, v, id);
      }
    }
  }

  // ----- the fourth pass

  /** A waiting ticket ends if the engine says so, and is otherwise seen searching; every other ticket stays as it is. */
  function SyncedTo(x: TickInput, t: TicketState, curr: TicketStatus): TicketState {
    if !Pooled(t.status) then t
    else match curr
      case Cancelled => EndedAs(x, t, curr)
      case TimedOut => EndedAs(x, t, curr)
      case Searching => t.(status := Searching)
      case _ => t
  }

  function SyncedEvents(x: TickInput, t: TicketState, curr: TicketStatus): seq<Event> {
    if Pooled(t.status) && (curr.Cancelled? || curr.TimedOut?) then [EndEvent(x, t, curr)] else []
  }

  lemma SyncMoveMeans(x: TickInput, t: TicketState, curr: TicketStatus)
    requires Pooled(t.status) && t.events == [] && curr != t.status
    ensures var r := FromEngine(x, CaptureRuleMetrics(x, t, curr), curr);
            r.Some? && r.value.Drained() == SyncedTo(x, t, curr) && r.value.events == SyncedEvents(x, t, curr) && r.value.id == t.id
  {
    hide CaptureRuleMetrics, TicketState.MarkCancelled, TicketState.MarkTimedOut, TicketState.ReturnToSearching, EndedAs, EndEvent,
         MetricsOf;
    MetricsAre(x, t, curr);
    EndMeans(x, t);
    EndedID(x, t);
  }

  lemma EndedID(x: TickInput, t: TicketState)
    ensures EndedAs(x, t, Cancelled).id == t.id && EndedAs(x, t, TimedOut).id == t.id
    ensures EndEvent(x, t, Cancelled).Names(t.id) && EndEvent(x, t, TimedOut).Names(t.id)
    ensures forall k :: EndEvent(x, t, Cancelled).Names(k) || EndEvent(x, t, TimedOut).Names(k) ==> k == t.id
  {
  }

  lemma OneSync(x: TickInput, w: Work, settled: set<MatchID>, id: TicketID, k: TicketID)
    requires SyncReady(x, w.svc, id) && TicketOk(w.svc.tickets[id], id) && w.svc.tickets[id].events == [] && k in w.svc.tickets
    ensures var v, t, curr := SyncTicket(x, w, settled, id).0, w.svc.tickets[k], x.engine.statusAfter[id];
            if k == id then Becomes(w, v, k, SyncedTo(x, t, curr), SyncedEvents(x, t, curr)) else Becomes(w, v, k, t, [])
  {
    var t, curr := w.svc.tickets[id], x.engine.statusAfter[id];
    hide FromEngine, CaptureRuleMetrics, Becomes, SyncedTo, SyncedEvents, EndedAs, EndEvent, Work.Store, FailureOutcome, Clean;
    UntouchedSelf(w, k);
    if curr == t.status {
      SyncedSame(x, t, curr);
    } else {
      SyncMoveMeans(x, t, curr);
      StoredBecomes(x, w, FromEngine(x, CaptureRuleMetrics(x, t, curr), curr).value, id, k, curr);
      SyncStores(x, w, settled, id);
    }
  }

  lemma SyncedSame(x: TickInput, t: TicketState, curr: TicketStatus)
    requires curr == t.status
    ensures SyncedTo(x, t, curr) == t && SyncedEvents(x, t, curr) == []
  {
  }

  lemma SyncStores(x: TickInput, w: Work, settled: set<MatchID>, id: TicketID)
    requires SyncReady(x, w.svc, id) && x.engine.statusAfter[id] != w.svc.tickets[id].status
    requires Pooled(w.svc.tickets[id].status)
    requires FromEngine(x, CaptureRuleMetrics(x, w.svc.tickets[id], x.engine.statusAfter[id]), x.engine.statusAfter[id]).Some?
    ensures var r := FromEngine(x, CaptureRuleMetrics(x, w.svc.tickets[id], x.engine.statusAfter[id]), x.engine.statusAfter[id]);
            SyncTicket(x, w, settled, id) == (w.Store(r.value), settled)
  {
    hide FromEngine, FailureOutcome, Work.Store;
  }

  lemma StoredBecomes(x: TickInput, w: Work, u: TicketState, id: TicketID, k: TicketID, curr: TicketStatus)
    requires id in w.svc.tickets && k in w.svc.tickets && w.svc.tickets[id].id == id && u.id == id
    requires var t := w.svc.tickets[id]; u.Drained() == SyncedTo(x, t, curr) && u.events == SyncedEvents(x, t, curr)
    ensures var v, t := w.Store(u), w.svc.tickets[k];
            if k == id then Becomes(w, v, k, SyncedTo(x, t, curr), SyncedEvents(x, t, curr)) else Becomes(w, v, k, t, [])
  {
    StoredAs(w, u);
    hide Work.Store, SyncedTo, Named;
    var e := u.events;
    EndedID(x, w.svc.tickets[id]);
    hide EndEvent;
    if e == [] {
      assert w.batch + e == w.batch && Named(w.batch, k) + [] == Named(w.batch, k);
    } else {
      NamedOne(w.batch, e[0], k);
      assert e == [e[0]] && Named(w.batch, k) + [] == Named(w.batch, k);
    }
  }

  lemma {:induction false} FourthPass(g: Session, x: TickInput, w: Work, used: set<MatchID>, settled: set<MatchID>,
                                      ids: seq<TicketID>, id: TicketID)
    requires TickMid(g, x, w, used) && NoDuplicates(ids) && id in w.svc.tickets
    requires forall k <- ids :: SyncReady(x, w.svc, k)
    ensures var v, t := SyncTickets(x, w, settled, ids), w.svc.tickets[id];
            if id in ids then
              && id in x.engine.statusAfter
              && var curr := x.engine.statusAfter[id]; Becomes(w, v, id, SyncedTo(x, t, curr), SyncedEvents(x, t, curr))
            else Becomes(w, v, id, t, [])
    decreases |ids|
  {
    hide SyncTicket, TickMid, Becomes, SyncedTo, SyncedEvents, SameAbout;
    UntouchedSelf(w, id);
    if ids != [] && !w.failed {
      assert ids[0] in ids && (id in ids <==> id == ids[0] || id in ids[1..]);
      SyncOneMid(g, x, w, used, settled, ids[0]);
      SyncTicketHere(g, x, w, used, ids[0]);
      OneSync(x, w, settled, ids[0], id);
      var (w1, s1) := SyncTicket(x, w, settled, ids[0]);
      var v := SyncTickets(x, w, settled, ids);
      assert id in w1.svc.tickets by { StillThere(w, w1, id); }
      forall k <- ids[1..] ensures SyncReady(x, w1.svc, k) {
        assert k in ids && k != ids[0];
      }
      FourthPass(g, x, w1, used, s1, ids[1..], id);
      if id == ids[0] {
        BecomesLast(w, w1, v, id);
      } else {
        BecomesFirst(w, w1, v, id);
      }
    } else {
      NotFailed(g, x, w, used);
    }
  }

  lemma SyncTicketHere(g: Session, x: TickInput, w: Work, used: set<MatchID>, id: TicketID)
    requires TickMid(g, x, w, used) && id in w.svc.tickets
    ensures TicketOk(w.svc.tickets[id], id) && w.svc.tickets[id].events == []
  {
    DuringTick(g, x, w, used, id);
    assert TicketRel(g, w, id);
    hide Mid, Walk, Trace;
  }
}
