/**
 The service as the object the source has: maps of ticket and tracker objects that its methods update in place.
 `View()` is its value as a `Service`; each method is proved to change it as the functions of ServiceState, Tick and
 Commands do, so what is proved about those functions holds for these methods. The inner maps of `ticketsByConfig`
 hold the same ticket objects as `tickets` and are represented by their keys.
 */
module MatchmakingService {
  import opened Wrappers
  import opened Domain
  import opened RosterKey
  import opened TicketAggregate
  import opened ProposalTracking
  import opened ServiceState
  import opened Spec = Tick
  import opened Commands

  /** Draining a ticket after it was saved is the same as saving it drained. */
  lemma SaveThenDrain(s: Service, t: TicketState)
    ensures s.Save(t).Put(t.Drained()) == s.Save(t.Drained())
  {
  }

  lemma PutThenSave(s: Service, t: TicketState)
    ensures s.Put(t).Save(t) == s.Save(t)
  {
  }

  lemma SaveCommutes(s: Service, t: TicketState, trackers: map<ConfigurationName, ProposalTracking.Tracker>)
    ensures s.Save(t).(trackers := trackers) == s.(trackers := trackers).Save(t)
  {
  }

  lemma SaveKeepsTrackers(s: Service, t: TicketState)
    ensures s.Save(t).trackers == s.trackers && forall c :: s.Save(t).TrackerOf(c) == s.TrackerOf(c)
  {
  }

  /** Synchronizing a ticket whose status differs, in the terms of the calls the pass makes. */
  lemma SyncTicketAs(x: TickInput, w: Work, settled: set<MatchID>, id: TicketID)
    requires id in w.svc.tickets && w.svc.tickets[id].id == id && id in x.engine.statusAfter
    requires x.engine.statusAfter[id] != w.svc.tickets[id].status
    ensures var curr := x.engine.statusAfter[id];
            var t := Spec.CaptureRuleMetrics(x, w.svc.tickets[id], curr);
            var r := FromEngine(x, t, curr);
            Spec.SyncTicket(x, w, settled, id)
            == if r.None? then (w.Abort(t), settled)
               else if SettlesAcceptance(t, curr) && t.matchID != "" && t.matchID !in settled then
                 var tracker := w.svc.TrackerOf(x.config);
                 var known := tracker.TicketsFor(t.matchID);
                 var w1 := w.Add(AcceptMatchCompleted(t.matchID, if known.Some? then known.value else [id],
                                                      FailureOutcome(w.svc, x.config, t.matchID)));
                 (w1.(svc := w1.svc.SetTracker(x.config, tracker.Forget(t.matchID))).Store(r.value), settled + {t.matchID})
               else (w.Store(r.value), settled)
    ensures Spec.CaptureRuleMetrics(x, w.svc.tickets[id], x.engine.statusAfter[id]).matchID == w.svc.tickets[id].matchID
  {
    hide FromEngine, FailureOutcome, Tracker.Forget, Key, SettlesAcceptance, Work.Store;
  }

  /** Rule metrics do not bear on the outcome of a failed acceptance. */
  lemma MetricsOnly(x: TickInput, s: Service, t: TicketState, curr: TicketStatus, m: MatchID)
    requires t.id in s.tickets && s.tickets[t.id] == t
    ensures var u := Spec.CaptureRuleMetrics(x, t, curr);
            && u.id == t.id && u.matchID == t.matchID
            && FailureOutcome(s.Put(u), x.config, m) == FailureOutcome(s, x.config, m)
  {
    var u := Spec.CaptureRuleMetrics(x, t, curr);
    assert u == t.(ruleMetrics := u.ruleMetrics);
    hide Spec.CaptureRuleMetrics;
    var r := s.Put(u);
    assert r.TrackerOf(x.config) == s.TrackerOf(x.config);
    forall ids: seq<TicketID> ensures SomeRejection(r, ids) <==> SomeRejection(s, ids) {
      forall id <- ids
        ensures id in r.tickets && Rejects(r.tickets[id]) <==> id in s.tickets && Rejects(s.tickets[id]) {
      }
    }
  }

  lemma SetsMinus(m: map<ConfigurationName, set<TicketID>>, c: ConfigurationName, ids: set<TicketID>, id: TicketID)
    requires c in m
    ensures m[c := m[c] - {}] == m
    ensures var n := m[c := m[c] - ids]; n[c := n[c] - {id}] == m[c := m[c] - (ids + {id})]
  {
    assert m[c] - ids - {id} == m[c] - (ids + {id}) && m[c] - {} == m[c];
  }

  lemma RemoveNothing(s: Service, c: ConfigurationName)
    ensures s.Remove(c, {}) == s
  {
    assert s.tickets - {} == s.tickets;
    if c in s.byConfig { SetsMinus(s.byConfig, c, {}, ""); }
    if c in s.active { SetsMinus(s.active, c, {}, ""); }
  }

  lemma TicketsMinus(m: map<TicketID, TicketState>, ids: set<TicketID>, id: TicketID)
    ensures m - ids - {id} == m - (ids + {id})
  {
  }

  lemma RemoveOneMore(s: Service, c: ConfigurationName, ids: set<TicketID>, id: TicketID)
    ensures s.Remove(c, ids).Remove(c, {id}) == s.Remove(c, ids + {id})
  {
    TicketsMinus(s.tickets, ids, id);
    if c in s.byConfig { SetsMinus(s.byConfig, c, ids, id); }
    if c in s.active { SetsMinus(s.active, c, ids, id); }
  }

  /** A pass does nothing after an error. */
  lemma NothingAfterError(x: TickInput, w: Work)
    requires w.failed
    ensures Finalize(x, w, x.engine.matches) == w && Apply(x, w, x.engine.pending) == w
  {
  }

  lemma CommitThenDrain(s: Service, t: TicketState)
    ensures s.Commit(t).Put(t.Drained()) == s.Commit(t.Drained())
  {
  }

  lemma SameExpired(s: Service, r: Service, c: ConfigurationName, now: Time)
    requires r == s.(nextCleanup := r.nextCleanup)
    ensures r.Expired(c, now) == s.Expired(c, now)
  {
  }

  lemma NotBlank(s: string)
    requires !Blank(s)
    ensures s != ""
  {
  }

  /** The error AcceptMatch ends with, if any, before it records anything. */
  function DecisionsOutcome(x: AcceptInput, s: Service): Outcome<Error> {
    if x.ticketID !in s.tickets then Fail(TicketNotFound)
    else if x.refused then Fail(Refused)
    else if x.replaced then Fail(TicketNotFound)
    else
      var players := Dedupe(x.playerIDs);
      var valid := s.tickets[x.ticketID].ValidatePlayerAcceptances(players);
      if valid.Fail? then valid
      else if !exists r <- x.pending :: x.ticketID in r then Fail(ProposalNotFound)
      else FirstError(if x.accepted || players == [] then players else players[..1], x.engineErrors)
  }

  /** What AcceptMatch answers once the decisions are recorded: one event about the whole match. */
  function DecisionsReport(s: Service, t: TicketState): Result {
    var s1 := s.WithTracker(t.config);
    var roster := s1.TrackerOf(t.config).TicketsFor(t.matchID);
    var ids := if roster.Some? then roster.value else [t.id];
    Result(s1, [AcceptanceRecorded(t.matchID, ids, MergedAcceptances(s1, ids))], Pass)
  }

  lemma AcceptMatchAs(x: AcceptInput, s: Service)
    ensures DecisionsOutcome(x, s).Pass? ==> x.ticketID in s.tickets
    ensures Commands.AcceptMatch(x, s)
         == if DecisionsOutcome(x, s).Fail? then Result(s, [], DecisionsOutcome(x, s))
            else
              var u := s.tickets[x.ticketID].RecordPlayerAcceptances(Dedupe(x.playerIDs), x.accepted);
              DecisionsReport(s.Save(u), u)
  {
    hide Key, Dedupe, FirstError, MergedAcceptances, Service.Save;
  }

  lemma MetricsKeepID(x: BackfillInput, t: TicketState)
    ensures x.priorMetrics.Some? ==> t.SetRuleMetrics(x.priorMetrics.value).id == t.id
  {
  }

  lemma PutThenStore(w: Work, t: TicketState)
    ensures w.(svc := w.svc.Put(t)).Store(t) == w.Store(t)
  {
  }

  /** Settling a ticket that requires acceptance, in the terms of the two calls the pass makes. */
  lemma SettleTicketAs(x: TickInput, w: Work, id: TicketID)
    requires id in w.svc.tickets && w.svc.tickets[id].status.RequiresAcceptance? && id in x.engine.status
    ensures var curr := x.engine.status[id];
            var t := Spec.CaptureRuleMetrics(x, w.svc.tickets[id], curr);
            var r := if curr.RequiresAcceptance? then t.ReturnToSearching("ACCEPTANCE_FAILED") else FromEngine(x, t, curr);
            Spec.SettleTicket(x, w, id) == if r.None? then w.Abort(t) else w.Store(r.value)
  {
  }

  /** Settling a proposal that failed, in the terms of the calls the pass makes. */
  lemma SettleProposalAs(x: TickInput, w: Work, m: MatchID)
    requires m in w.svc.TrackerOf(x.config).byMatch && !w.failed
    ensures var ids := w.svc.TrackerOf(x.config).byMatch[m];
            var batch := if SomeStopped(w.svc, ids) then w.batch
                         else w.batch + [AcceptMatchCompleted(m, ids, FailureOutcome(w.svc, x.config, m))];
            var w2 := Spec.SettleTickets(x, Work(w.svc, batch, false), ids);
            Spec.SettleProposal(x, w, m)
            == if StillPending(x, ids, w.svc.TrackerOf(x.config).CreatedAt(m)) || Matched(x, ids) then w
               else if w2.failed then w2
               else w2.(svc := w2.svc.SetTracker(x.config, w2.svc.TrackerOf(x.config).Forget(m)))
  {
    hide Key, Spec.SettleTickets, StillPending, Matched, SomeStopped, FailureOutcome, Tracker.Forget;
  }

  /** The ticket of a match on its way to COMPLETED, and whether it got there. */
  function FinalState(x: TickInput, t: TicketState, m: MatchID): (TicketState, bool) {
    var placed := if t.status.Placing? then Some(t) else t.MoveToPlacing(m);
    if placed.None? then (t, false)
    else if t.id in x.engine.completeFails then (placed.value, false)
    else
      var done := placed.value.Complete(x.now);
      if done.None? then (placed.value, false) else (done.value, true)
  }

  lemma FinalizeTicketAs(x: TickInput, w: Work, m: MatchID, teams: map<PlayerID, string>, id: TicketID)
    requires id in w.svc.tickets && w.svc.tickets[id].id == id
    ensures var t := w.svc.tickets[id].SetPlayerTeams(teams);
            var (u, ok) := FinalState(x, t, m);
            Spec.FinalizeTicket(x, w, m, teams, id)
            == (if ok then w.(svc := w.svc.Save(u)) else w.Abort(u), x.acceptanceRequired && t.status.RequiresAcceptance?)
  {
  }

  lemma StoppedOneMore(s: Service, ids: seq<TicketID>, i: nat)
    requires i < |ids|
    ensures SomeStopped(s, ids[..i + 1])
       <==> SomeStopped(s, ids[..i]) || (ids[i] in s.tickets && s.tickets[ids[i]].cancelByAPI)
  {
    assert ids[..i + 1] == ids[..i] + [ids[i]];
  }

  class MatchmakingService {
    const ticketRetention: Time
    var tickets: map<TicketID, Ticket>
    var ticketsByConfig: map<ConfigurationName, set<TicketID>>
    var activeTicketIDsByConfig: map<ConfigurationName, set<TicketID>>
    var reservedTicketIDs: set<TicketID>
    var nextCleanup: map<ConfigurationName, Time>
    var trackers: map<ConfigurationName, ProposalTracker>

    /** A ticket is registered under its own id, and no two configurations share a tracker. */
    ghost predicate Valid()
      reads this
    {
      && (forall id <- tickets :: tickets[id].id == id)
      && (forall c <- trackers, d <- trackers :: c != d ==> trackers[c] != trackers[d])
    }

    ghost function View(): Service
      reads this, tickets.Values, trackers.Values
    {
      Service(ticketRetention, map id | id in tickets :: tickets[id].State(), ticketsByConfig, activeTicketIDsByConfig,
              reservedTicketIDs, nextCleanup, map c | c in trackers :: trackers[c].State())
    }

    constructor (ticketRetention: Time)
      ensures Valid() && View() == NewService(ticketRetention)
    {
      this.ticketRetention := ticketRetention;
      tickets, ticketsByConfig, activeTicketIDsByConfig := map[], map[], map[];
      reservedTicketIDs, nextCleanup, trackers := {}, map[], map[];
    }

    lemma StateID(t: Ticket)
      ensures t.State().id == t.id
    {
    }

    /** Changing one registered ticket object changes the view at that ticket. */
    twostate lemma Mutated(id: TicketID)
      requires old(Valid()) && unchanged(this) && id in tickets
      requires forall k <- tickets | k != id :: tickets[k].State() == old(tickets[k].State())
      requires forall c <- trackers :: trackers[c].State() == old(trackers[c].State())
      ensures View() == old(View()).Put(tickets[id].State())
    {
      StateID(tickets[id]);
      hide Ticket.State, ProposalTracker.State;
      assert View().tickets == old(View()).tickets[id := tickets[id].State()];
      assert View().trackers == old(View()).trackers;
    }

    /** Registering a ticket object adds its state to the view. */
    twostate lemma SameObjects()
      requires old(Valid()) && tickets == old(tickets) && trackers == old(trackers)
      requires forall k <- tickets :: tickets[k].State() == old(tickets[k].State())
      requires forall c <- trackers :: trackers[c].State() == old(trackers[c].State())
      ensures View().tickets == old(View()).tickets && View().trackers == old(View()).trackers
    {
      hide Ticket.State, ProposalTracker.State;
    }

    twostate lemma Registered(new t: Ticket)
      requires old(Valid()) && tickets == old(tickets)[t.id := t] && trackers == old(trackers)
      requires forall k <- old(tickets) :: old(tickets)[k].State() == old(tickets[k].State())
      requires forall c <- trackers :: trackers[c].State() == old(trackers[c].State())
      ensures View().tickets == old(View()).tickets[t.id := t.State()] && View().trackers == old(View()).trackers
    {
    }

    /** A nil entry of a Go map reads as the empty set. */
    static function IDsAt(m: map<ConfigurationName, set<TicketID>>, c: ConfigurationName): set<TicketID> {
      if c in m then m[c] else {}
    }

    method SyncTicketIndex(t: Ticket)
      requires Valid()
      modifies this`activeTicketIDsByConfig
      ensures View() == old(View()).SyncIndex(t.State())
    {
      var ids := IDsAt(activeTicketIDsByConfig, t.configurationName);
      ids := if t.status.IsActive() then ids + {t.id} else ids - {t.id};
      activeTicketIDsByConfig := activeTicketIDsByConfig[t.configurationName := ids];
    }

    /** Registers a ticket, or verifies that this very ticket is registered under its id. */
    method SaveTicket(t: Ticket) returns (ok: bool)
      requires Valid()
      modifies this`tickets, this`ticketsByConfig, this`activeTicketIDsByConfig
      ensures Valid()
      ensures ok == ((t.id !in old(tickets) && t.id !in reservedTicketIDs) || (t.id in old(tickets) && old(tickets)[t.id] == t))
      ensures tickets == if ok then old(tickets)[t.id := t] else old(tickets)
      ensures View() == if ok then old(View()).Save(t.State()) else old(View())
    {
      if t.id in tickets && tickets[t.id] != t {
        return false;
      }
      if t.id in reservedTicketIDs && t.id !in tickets {
        return false;
      }
      Index(t);
      return true;
    }

    /** Writes a ticket into the global map, its configuration's map and the active index. */
    method Index(t: Ticket)
      requires Valid()
      modifies this`tickets, this`ticketsByConfig, this`activeTicketIDsByConfig
      ensures Valid() && tickets == old(tickets)[t.id := t]
      ensures View() == old(View()).Save(t.State())
    {
      tickets := tickets[t.id := t];
      ticketsByConfig := ticketsByConfig[t.configurationName := IDsAt(ticketsByConfig, t.configurationName) + {t.id}];
      Registered(t);
      hide TicketStatus.IsActive;
      SyncTicketIndex(t);
    }

    method ReserveTicketID(id: TicketID) returns (ok: bool)
      modifies this`reservedTicketIDs
      ensures ok == !old(View()).Taken(id)
      ensures View() == if ok then old(View()).Reserve(id) else old(View())
    {
      if id in tickets || id in reservedTicketIDs {
        return false;
      }
      reservedTicketIDs := reservedTicketIDs + {id};
      return true;
    }

    method CancelTicketReservation(id: TicketID)
      modifies this`reservedTicketIDs
      ensures View() == old(View()).CancelReservation(id)
    {
      reservedTicketIDs := reservedTicketIDs - {id};
    }

    method CommitTicket(t: Ticket)
      requires Valid()
      modifies this`tickets, this`ticketsByConfig, this`activeTicketIDsByConfig, this`reservedTicketIDs
      ensures Valid() && tickets == old(tickets)[t.id := t]
      ensures View() == old(View()).Commit(t.State())
    {
      hide Ticket.State, ProposalTracker.State, Service.Save;
      Index(t);
      label indexed:
      reservedTicketIDs := reservedTicketIDs - {t.id};
      SameObjects@indexed();
    }

    /** The configuration's tracker, made on first use. */
    method TrackerFor(c: ConfigurationName) returns (tracker: ProposalTracker)
      requires Valid()
      modifies this`trackers
      ensures Valid() && c in trackers && trackers[c] == tracker
      ensures View() == old(View()).WithTracker(c)
      ensures tracker.State() == old(View()).TrackerOf(c)
      ensures if c in old(trackers) then trackers == old(trackers) else fresh(tracker) && trackers == old(trackers)[c := tracker]
    {
      hide Ticket.State, ProposalTracker.State;
      if c !in trackers {
        tracker := new ProposalTracker();
        trackers := trackers[c := tracker];
      } else {
        tracker := trackers[c];
      }
      assert View().trackers == old(View()).WithTracker(c).trackers;
      assert View().tickets == old(View()).tickets;
    }

    /** SaveTicket of a registered ticket that was just changed, then its recorded events move into the batch. */
    method StoreTicket(t: Ticket, batch: seq<Event>) returns (out: seq<Event>)
      requires Valid() && t.id in tickets && tickets[t.id] == t
      modifies this`tickets, this`ticketsByConfig, this`activeTicketIDsByConfig, t
      ensures Valid() && tickets == old(tickets)
      ensures Work(View(), out, false) == Work(old(View()), batch, false).Store(old(t.State()))
    {
      hide Ticket.State, ProposalTracker.State;
      var saved := SaveTicket(t);
      label saved:
      var events := t.PullEvents();
      Mutated@saved(t.id);
      SaveThenDrain(old(View()), old(t.State()));
      out := batch + events;
    }

    /** Changing one tracker object changes the view at that configuration. */
    twostate lemma TrackerMutated(c: ConfigurationName)
      requires old(Valid()) && unchanged(this) && c in trackers
      requires forall k <- tickets :: tickets[k].State() == old(tickets[k].State())
      requires forall d <- trackers | d != c :: trackers[d].State() == old(trackers[d].State())
      ensures View() == old(View()).SetTracker(c, trackers[c].State())
    {
      hide Ticket.State, ProposalTracker.State;
      assert View().tickets == old(View()).tickets;
      assert View().trackers == old(View()).trackers[c := trackers[c].State()];
    }

    // ----- what the engine reports about one ticket

    method CaptureRuleMetrics(x: TickInput, t: Ticket, curr: TicketStatus)
      modifies t
      ensures t.State() == Spec.CaptureRuleMetrics(x, old(t.State()), curr)
    {
      if (curr.Cancelled? || curr.TimedOut?) && t.id in x.engine.metrics {
        t.SetRuleMetrics(x.engine.metrics[t.id]);
      }
    }

    /** An explicit refusal recorded on a ticket of the match decides between the two outcomes. */
    method AcceptanceFailureOutcome(c: ConfigurationName, m: MatchID) returns (outcome: AcceptanceOutcome)
      ensures outcome == FailureOutcome(View(), c, m)
    {
      hide Ticket.State;
      if c !in trackers || m !in trackers[c].byMatch {
        return Lapsed;
      }
      var ids := trackers[c].byMatch[m];
      assert View().TrackerOf(c).TicketsFor(m) == Some(ids);
      for i := 0 to |ids|
        invariant forall k | 0 <= k < i :: ids[k] in View().tickets ==> !Rejects(View().tickets[ids[k]])
      {
        if ids[i] in tickets {
          var accepted := tickets[ids[i]].playerAcceptances;
          Fields(tickets[ids[i]]);
          if exists p <- accepted :: !accepted[p] {
            assert Rejects(View().tickets[ids[i]]);
            return Rejected;
          }
        }
      }
      return Lapsed;
    }

    lemma Fields(t: Ticket)
      ensures t.State().status == t.status && t.State().matchID == t.matchID && t.State().config == t.configurationName
      ensures t.State().playerAcceptances == t.playerAcceptances && t.State().cancelByAPI == t.cancelByAPI
      ensures t.State().id == t.id && t.State().isBackfill == t.isBackfill && t.State().gameSessionARN == t.gameSessionARN
      ensures t.State().endTime == t.endTime && t.State().events == t.events
    {
    }

    /** Applies an engine-driven status change; the outcome is reported if it settles the ticket's acceptance. */
    method TransitionFromEngine(x: TickInput, t: Ticket, curr: TicketStatus)
      returns (outcome: Option<AcceptanceOutcome>, ok: bool)
      modifies t
      ensures var r := FromEngine(x, old(t.State()), curr);
              ok == r.Some? && t.State() == if ok then r.value else old(t.State())
      ensures outcome == if SettlesAcceptance(old(t.State()), curr) then Some(FailureOutcome(old(View()), x.config, old(t.matchID)))
                         else None
    {
      var prev := t.status;
      outcome, ok := None, true;
      match curr
      case Queued | Searching =>
        if prev.RequiresAcceptance? {
          ok := t.ReturnToSearching(StatusReason(x, t.id));
        } else {
          t.ObserveSearching();
        }
      case Cancelled =>
        if t.cancelByAPI {
          ok := t.MarkCancelled(StoppedMessage, x.now);
        } else {
          if prev.RequiresAcceptance? {
            var o := AcceptanceFailureOutcome(x.config, t.matchID);
            outcome := Some(o);
          }
          ok := t.MarkCancelled(AcceptanceFailedMessage, x.now);
        }
      case TimedOut =>
        ok := t.MarkTimedOut("TimedOut", "Matchmaking timed out", x.now);
      case _ =>
    }

    // ----- the first pass

    twostate predicate SameRefs()
      reads this
    {
      tickets == old(tickets) && trackers == old(trackers)
    }

    /** What settling does to the ticket object. */
    method SettleObject(x: TickInput, t: Ticket, curr: TicketStatus) returns (ok: bool)
      modifies t
      ensures var u := Spec.CaptureRuleMetrics(x, old(t.State()), curr);
              var r := if curr.RequiresAcceptance? then u.ReturnToSearching("ACCEPTANCE_FAILED") else FromEngine(x, u, curr);
              ok == r.Some? && t.State() == if ok then r.value else u
    {
      hide Ticket.State, Spec.CaptureRuleMetrics, FromEngine, TicketState.ReturnToSearching, View;
      CaptureRuleMetrics(x, t, curr);
      if curr.RequiresAcceptance? {
        ok := t.ReturnToSearching("ACCEPTANCE_FAILED");
      } else {
        var outcome;
        outcome, ok := TransitionFromEngine(x, t, curr);
      }
    }

    method SettleTicket(x: TickInput, id: TicketID, batch: seq<Event>) returns (out: seq<Event>, ok: bool)
      requires Valid()
      modifies this, tickets.Values
      ensures Valid() && SameRefs()
      ensures Work(View(), out, !ok) == Spec.SettleTicket(x, Work(old(View()), batch, false), id)
    {
      hide ProposalTracker.State, Ticket.State, Spec.CaptureRuleMetrics, FromEngine, TicketState.ReturnToSearching,
           Service.Put, Service.Save;
      out, ok := batch, true;
      if id in tickets { Fields(tickets[id]); }
      if id !in tickets || !tickets[id].status.RequiresAcceptance? || id !in x.engine.status {
        return;
      }
      var t, curr := tickets[id], x.engine.status[id];
      SettleTicketAs(x, Work(View(), batch, false), id);
      hide Spec.SettleTicket;
      ok := SettleObject(x, t, curr);
      Mutated(id);
      if ok {
        PutThenStore(Work(old(View()), batch, false), t.State());
        out := StoreTicket(t, batch);
      }
    }

    method IsStillPending(x: TickInput, ids: seq<TicketID>, createdAt: Time) returns (found: bool)
      ensures found == StillPending(x, ids, createdAt)
    {
      hide Key;
      var key := ProposalKey(ids);
      for i := 0 to |x.engine.pending|
        invariant forall p <- x.engine.pending[..i] :: !(Key(p.ticketIDs) == Key(ids) && p.createdAt == createdAt)
      {
        var p := x.engine.pending[i];
        var other := ProposalKey(p.ticketIDs);
        if other == key && p.createdAt == createdAt {
          assert p in x.engine.pending;
          return true;
        }
      }
      return false;
    }

    method IsMatched(x: TickInput, ids: seq<TicketID>) returns (found: bool)
      ensures found == Matched(x, ids)
    {
      hide Key;
      var key := ProposalKey(ids);
      for i := 0 to |x.engine.matches|
        invariant forall m <- x.engine.matches[..i] :: Key(m.ticketIDs) != Key(ids)
      {
        var other := ProposalKey(x.engine.matches[i].ticketIDs);
        if other == key {
          assert x.engine.matches[i] in x.engine.matches;
          return true;
        }
      }
      return false;
    }

    method IsStopped(ids: seq<TicketID>) returns (found: bool)
      ensures found == SomeStopped(View(), ids)
    {
      hide Ticket.State, ProposalTracker.State;
      found := false;
      for i := 0 to |ids|
        invariant found == SomeStopped(View(), ids[..i])
      {
        StoppedOneMore(View(), ids, i);
        if ids[i] in tickets {
          Fields(tickets[ids[i]]);
          found := found || tickets[ids[i]].cancelByAPI;
        }
      }
      assert ids[..|ids|] == ids;
    }

    method SettleTickets(x: TickInput, ids: seq<TicketID>, batch: seq<Event>) returns (out: seq<Event>, ok: bool)
      requires Valid()
      modifies this, tickets.Values
      ensures Valid() && SameRefs()
      ensures Work(View(), out, !ok) == Spec.SettleTickets(x, Work(old(View()), batch, false), ids)
    {
      hide Ticket.State, ProposalTracker.State, Spec.SettleTicket;
      out, ok := batch, true;
      for i := 0 to |ids|
        invariant Valid() && SameRefs() && ok
        invariant Spec.SettleTickets(x, Work(View(), out, false), ids[i..])
               == Spec.SettleTickets(x, Work(old(View()), batch, false), ids)
      {
        assert ids[i..][0] == ids[i] && ids[i..][1..] == ids[i + 1..];
        out, ok := SettleTicket(x, ids[i], out);
        if !ok {
          return;
        }
      }
    }

    method ForgetMatch(c: ConfigurationName, m: MatchID)
      requires Valid() && c in trackers
      modifies trackers[c]
      ensures Valid()
      ensures View() == old(View()).SetTracker(c, old(View()).TrackerOf(c).Forget(m))
    {
      hide Ticket.State, Key, Tracker.Forget;
      trackers[c].Forget(m);
      TrackerMutated(c);
    }

    /** The end of a failed proposal is announced unless the client stopped one of its tickets. */
    method AnnounceFailure(c: ConfigurationName, m: MatchID, ids: seq<TicketID>, batch: seq<Event>)
      returns (out: seq<Event>)
      ensures out == if SomeStopped(View(), ids) then batch
                     else batch + [AcceptMatchCompleted(m, ids, FailureOutcome(View(), c, m))]
    {
      var outcome := AcceptanceFailureOutcome(c, m);
      var stopped := IsStopped(ids);
      return if stopped then batch else batch + [AcceptMatchCompleted(m, ids, outcome)];
    }

    method SettleProposal(x: TickInput, m: MatchID, batch: seq<Event>) returns (out: seq<Event>, ok: bool)
      requires Valid() && x.config in trackers
      modifies this, tickets.Values, trackers.Values
      ensures Valid() && SameRefs()
      ensures Work(View(), out, !ok) == Spec.SettleProposal(x, Work(old(View()), batch, false), m)
    {
      hide Ticket.State, Key, Spec.SettleTickets, StillPending, Matched, SomeStopped, FailureOutcome, Tracker.Forget;
      out, ok := batch, true;
      var tracker := trackers[x.config];
      assert View().TrackerOf(x.config) == tracker.State();
      if m !in tracker.byMatch {
        return;
      }
      var ids := tracker.byMatch[m];
      var createdAt := if m in tracker.createdAt then tracker.createdAt[m] else 0;
      assert tracker.State().byMatch[m] == ids && tracker.State().CreatedAt(m) == createdAt;
      SettleProposalAs(x, Work(View(), batch, false), m);
      hide ProposalTracker.State, Spec.SettleProposal;
      var pending := IsStillPending(x, ids, createdAt);
      if pending {
        return;
      }
      var matched := IsMatched(x, ids);
      if matched {
        return;
      }
      out, ok := SettleFailed(x, m, ids, out);
    }

    method SettleFailed(x: TickInput, m: MatchID, ids: seq<TicketID>, batch: seq<Event>)
      returns (out: seq<Event>, ok: bool)
      requires Valid() && x.config in trackers
      modifies this, tickets.Values, trackers.Values
      ensures Valid() && SameRefs()
      ensures var w := Work(old(View()), if SomeStopped(old(View()), ids) then batch
                              else batch + [AcceptMatchCompleted(m, ids, FailureOutcome(old(View()), x.config, m))], false);
              var w2 := Spec.SettleTickets(x, w, ids);
              Work(View(), out, !ok) == if w2.failed then w2
                                        else w2.(svc := w2.svc.SetTracker(x.config, w2.svc.TrackerOf(x.config).Forget(m)))
    {
      hide View, Key, Spec.SettleTickets, SomeStopped, FailureOutcome, Tracker.Forget, Service.SetTracker;
      out := AnnounceFailure(x.config, m, ids, batch);
      out, ok := SettleTickets(x, ids, out);
      if ok {
        ForgetMatch(x.config, m);
      }
    }

    /** The first pass, over the tracked proposals in the order the Go runtime happens to visit them. */
    method SettleOldProposals(x: TickInput, batch: seq<Event>) returns (out: seq<Event>, ok: bool)
      requires Valid() && x.config in trackers
      modifies this, tickets.Values, trackers.Values
      ensures Valid() && SameRefs()
      ensures Work(View(), out, !ok) == Settle(x, Work(old(View()), batch, false), x.order)
    {
      hide Ticket.State, ProposalTracker.State, Spec.SettleProposal;
      out, ok := batch, true;
      for i := 0 to |x.order|
        invariant Valid() && SameRefs() && ok
        invariant Settle(x, Work(View(), out, false), x.order[i..]) == Settle(x, Work(old(View()), batch, false), x.order)
      {
        assert x.order[i..][0] == x.order[i] && x.order[i..][1..] == x.order[i + 1..];
        out, ok := SettleProposal(x, x.order[i], out);
        if !ok {
          return;
        }
      }
    }

    // ----- the second pass

    /** SaveTicket of a registered ticket that was just changed. */
    method SaveChanged(t: Ticket, ghost before: Service)
      requires Valid() && t.id in tickets && tickets[t.id] == t
      requires View() == before.Put(t.State())
      modifies this`tickets, this`ticketsByConfig, this`activeTicketIDsByConfig
      ensures Valid() && tickets == old(tickets)
      ensures View() == before.Save(t.State())
    {
      hide Ticket.State, ProposalTracker.State;
      PutThenSave(before, t.State());
      var saved := SaveTicket(t);
    }

    method FinalizeTicket(x: TickInput, m: MatchID, teams: map<PlayerID, string>, id: TicketID, ghost batch: seq<Event>)
      returns (settled: bool, ok: bool)
      requires Valid()
      modifies this, tickets.Values
      ensures Valid() && SameRefs()
      ensures (Work(View(), batch, !ok), settled) == Spec.FinalizeTicket(x, Work(old(View()), batch, false), m, teams, id)
    {
      hide ProposalTracker.State, Ticket.State, TicketState.SetPlayerTeams, FinalState;
      settled, ok := false, true;
      if id !in tickets {
        return;
      }
      var t := tickets[id];
      Fields(t);
      FinalizeTicketAs(x, Work(View(), batch, false), m, teams, id);
      hide Spec.FinalizeTicket;
      t.SetPlayerTeams(teams);
      Fields(t);
      settled := x.acceptanceRequired && t.status.RequiresAcceptance?;
      ok := CompleteTicket(x, t, m);
      Mutated(id);
      hide Service.Put, Service.Save;
      if ok {
        SaveChanged(t, old(View()));
      }
    }

    method CompleteTicket(x: TickInput, t: Ticket, m: MatchID) returns (ok: bool)
      modifies t
      ensures (t.State(), ok) == FinalState(x, old(t.State()), m)
    {
      ok := true;
      if !t.status.Placing? {
        ok := t.MoveToPlacing(m);
      }
      if ok && t.id in x.engine.completeFails {
        ok := false;
      } else if ok {
        ok := t.Complete(x.now);
      }
    }

    method FinalizeTickets(x: TickInput, m: MatchID, teams: map<PlayerID, string>, ids: seq<TicketID>,
                           ghost batch: seq<Event>)
      returns (settled: bool, ok: bool)
      requires Valid()
      modifies this, tickets.Values
      ensures Valid() && SameRefs()
      ensures (Work(View(), batch, !ok), settled)
           == Spec.FinalizeTickets(x, Work(old(View()), batch, false), m, teams, ids, false)
    {
      hide View, Spec.FinalizeTicket;
      settled, ok := false, true;
      for i := 0 to |ids|
        invariant Valid() && SameRefs() && ok
        invariant Spec.FinalizeTickets(x, Work(View(), batch, false), m, teams, ids[i..], settled)
               == Spec.FinalizeTickets(x, Work(old(View()), batch, false), m, teams, ids, false)
      {
        assert ids[i..][0] == ids[i] && ids[i..][1..] == ids[i + 1..];
        var one;
        one, ok := FinalizeTicket(x, m, teams, ids[i], batch);
        settled := settled || one;
        if !ok {
          return;
        }
      }
    }

    /** The match id a roster is tracked under, if it is. */
    method KnownMatch(c: ConfigurationName, ids: seq<TicketID>) returns (m: Option<MatchID>)
      requires Valid() && c in trackers
      ensures m == View().TrackerOf(c).Known(ids)
    {
      hide Key, Ticket.State;
      m := trackers[c].Known(ids);
      assert View().TrackerOf(c) == trackers[c].State();
    }

    method AssignMatch(c: ConfigurationName, ids: seq<TicketID>, m: MatchID, at: Time)
      requires Valid() && c in trackers
      modifies trackers[c]
      ensures Valid()
      ensures View() == old(View()).SetTracker(c, old(View()).TrackerOf(c).AssignAt(ids, m, at))
    {
      hide Key, Ticket.State, Tracker.AssignAt;
      trackers[c].AssignAt(ids, m, at);
      TrackerMutated(c);
    }

    method FinalizeMatch(x: TickInput, m: Match, batch: seq<Event>) returns (out: seq<Event>, ok: bool)
      requires Valid() && x.config in trackers
      modifies this, tickets.Values, trackers.Values
      ensures Valid() && SameRefs()
      ensures Work(View(), out, !ok) == Spec.FinalizeMatch(x, Work(old(View()), batch, false), m)
    {
      hide View, Key, Spec.FinalizeTickets, Tracker.Forget, Tracker.AssignAt, Tracker.Known, Service.SetTracker,
           Service.TrackerOf;
      out := batch;
      var known := KnownMatch(x.config, m.ticketIDs);
      var matchID := if known.Some? then known.value else m.newID;
      if known.None? {
        AssignMatch(x.config, m.ticketIDs, matchID, 0);
      }
      var settled;
      settled, ok := FinalizeTickets(x, matchID, m.teams, m.ticketIDs, batch);
      if !ok {
        return;
      }
      if known.None? {
        out := out + [PotentialMatchCreated(matchID, m.ticketIDs, m.metrics)];
      }
      if settled {
        out := out + [AcceptMatchCompleted(matchID, m.ticketIDs, Accepted)];
      }
      out := out + [MatchmakingSucceeded(matchID, m.ticketIDs)];
      ForgetMatch(x.config, matchID);
    }

    method FinalizeMatches(x: TickInput, batch: seq<Event>) returns (out: seq<Event>, ok: bool)
      requires Valid() && x.config in trackers
      modifies this, tickets.Values, trackers.Values
      ensures Valid() && SameRefs()
      ensures Work(View(), out, !ok) == Finalize(x, Work(old(View()), batch, false), x.engine.matches)
    {
      hide View, Spec.FinalizeMatch;
      var matches := x.engine.matches;
      out, ok := batch, true;
      for i := 0 to |matches|
        invariant Valid() && SameRefs() && ok
        invariant Finalize(x, Work(View(), out, false), matches[i..]) == Finalize(x, Work(old(View()), batch, false), matches)
      {
        assert matches[i..][0] == matches[i] && matches[i..][1..] == matches[i + 1..];
        out, ok := FinalizeMatch(x, matches[i], out);
        if !ok {
          return;
        }
      }
    }

    // ----- the third pass

    method AssignTicket(m: MatchID, teams: map<PlayerID, string>, id: TicketID, ghost batch: seq<Event>)
      returns (ok: bool)
      requires Valid()
      modifies this, tickets.Values
      ensures Valid() && SameRefs()
      ensures Work(View(), batch, !ok) == Spec.AssignTicket(Work(old(View()), batch, false), m, teams, id)
    {
      hide ProposalTracker.State, Ticket.State, TicketState.SetPlayerTeams, TicketState.AssignToProposal;
      if id !in tickets {
        return true;
      }
      var t := tickets[id];
      ok := t.AssignToProposal(m);
      if ok {
        t.SetPlayerTeams(teams);
      }
      Mutated(id);
      if ok {
        SaveChanged(t, old(View()));
      }
    }

    method AssignTickets(m: MatchID, teams: map<PlayerID, string>, ids: seq<TicketID>, ghost batch: seq<Event>)
      returns (ok: bool)
      requires Valid()
      modifies this, tickets.Values
      ensures Valid() && SameRefs()
      ensures Work(View(), batch, !ok) == Spec.AssignTickets(Work(old(View()), batch, false), m, teams, ids)
    {
      hide View, Spec.AssignTicket;
      ok := true;
      for i := 0 to |ids|
        invariant Valid() && SameRefs() && ok
        invariant Spec.AssignTickets(Work(View(), batch, false), m, teams, ids[i..])
               == Spec.AssignTickets(Work(old(View()), batch, false), m, teams, ids)
      {
        assert ids[i..][0] == ids[i] && ids[i..][1..] == ids[i + 1..];
        ok := AssignTicket(m, teams, ids[i], batch);
        if !ok {
          return;
        }
      }
    }

    method CreatedAt(c: ConfigurationName, m: MatchID) returns (at: Time)
      requires Valid() && c in trackers
      ensures at == View().TrackerOf(c).CreatedAt(m)
    {
      hide Ticket.State;
      at := if m in trackers[c].createdAt then trackers[c].createdAt[m] else 0;
      assert View().TrackerOf(c) == trackers[c].State();
    }

    method ApplyProposal(x: TickInput, p: Proposal, batch: seq<Event>) returns (out: seq<Event>, ok: bool)
      requires Valid() && x.config in trackers
      modifies this, tickets.Values, trackers.Values
      ensures Valid() && SameRefs()
      ensures Work(View(), out, !ok) == Spec.ApplyProposal(x, Work(old(View()), batch, false), p)
    {
      hide View, Key, Spec.AssignTickets, Tracker.AssignAt, Tracker.Known, Tracker.CreatedAt, Service.SetTracker,
           Service.TrackerOf;
      out, ok := batch, true;
      var existing := KnownMatch(x.config, p.ticketIDs);
      if existing.Some? {
        var at := CreatedAt(x.config, existing.value);
        if at == p.createdAt {
          return;
        }
      }
      AssignMatch(x.config, p.ticketIDs, p.newID, p.createdAt);
      ok := AssignTickets(p.newID, p.teams, p.ticketIDs, batch);
      if ok {
        out := out + [PotentialMatchCreated(p.newID, p.ticketIDs, p.metrics)];
      }
    }

    method ApplyNewProposals(x: TickInput, batch: seq<Event>) returns (out: seq<Event>, ok: bool)
      requires Valid() && x.config in trackers
      modifies this, tickets.Values, trackers.Values
      ensures Valid() && SameRefs()
      ensures Work(View(), out, !ok) == Apply(x, Work(old(View()), batch, false), x.engine.pending)
    {
      hide View, Spec.ApplyProposal;
      var pending := x.engine.pending;
      out, ok := batch, true;
      for i := 0 to |pending|
        invariant Valid() && SameRefs() && ok
        invariant Apply(x, Work(View(), out, false), pending[i..]) == Apply(x, Work(old(View()), batch, false), pending)
      {
        assert pending[i..][0] == pending[i] && pending[i..][1..] == pending[i + 1..];
        out, ok := ApplyProposal(x, pending[i], out);
        if !ok {
          return;
        }
      }
    }

    // ----- the fourth pass

    /** The active tickets of a configuration, in id order. */
    method ActiveTicketIDsByConfiguration(c: ConfigurationName) returns (ids: seq<TicketID>)
      ensures ids == SortedListing(View().Active(c))
    {
      hide Ticket.State, ProposalTracker.State;
      var all := IDsAt(activeTicketIDsByConfig, c);
      var rest := all;
      ids := [];
      while rest != {}
        invariant rest <= all && SortedIDs(ids) && multiset(ids) == multiset(all - rest)
        decreases |rest|
      {
        var id :| id in rest;
        assert multiset(all - (rest - {id})) == multiset(all - rest) + multiset{id} by {
          assert all - (rest - {id}) == (all - rest) + {id};
        }
        InsertSorted(id, ids);
        InsertElements(id, ids);
        ids := Insert(id, ids);
        rest := rest - {id};
      }
      assert all - {} == all && View().Active(c) == all;
      SortSorted(Listing(all));
      SortedUnique(ids, SortedListing(all));
    }

    method AnnounceSettled(c: ConfigurationName, m: MatchID, id: TicketID, outcome: AcceptanceOutcome,
                           batch: seq<Event>)
      returns (out: seq<Event>)
      requires Valid() && c in trackers
      modifies trackers[c]
      ensures Valid()
      ensures var known := old(View()).TrackerOf(c).TicketsFor(m);
              out == batch + [AcceptMatchCompleted(m, if known.Some? then known.value else [id], outcome)]
      ensures View() == old(View()).SetTracker(c, old(View()).TrackerOf(c).Forget(m))
    {
      hide Ticket.State, Key, Tracker.Forget;
      assert View().TrackerOf(c) == trackers[c].State();
      var ids := if m in trackers[c].byMatch then trackers[c].byMatch[m] else [id];
      out := batch + [AcceptMatchCompleted(m, ids, outcome)];
      hide ProposalTracker.State, View;
      ForgetMatch(c, m);
    }

    /** SaveTicket, the announcement of the match if this is the first of its tickets to settle it, then addTicket. */
    method StoreSynced(x: TickInput, t: Ticket, m: MatchID, outcome: Option<AcceptanceOutcome>, settled: set<MatchID>,
                       batch: seq<Event>, ghost before: Service)
      returns (out: seq<Event>, settledNow: set<MatchID>)
      requires Valid() && x.config in trackers && t.id in tickets && tickets[t.id] == t
      requires View() == before.Put(t.State())
      modifies this, t, trackers[x.config]
      ensures Valid() && SameRefs()
      ensures var u := old(t.State());
              (Work(View(), out, false), settledNow)
              == if outcome.Some? && m != "" && m !in settled then
                   var known := before.TrackerOf(x.config).TicketsFor(m);
                   var ids := if known.Some? then known.value else [t.id];
                   var w1 := Work(before, batch, false).Add(AcceptMatchCompleted(m, ids, outcome.value));
                   (w1.(svc := w1.svc.SetTracker(x.config, before.TrackerOf(x.config).Forget(m))).Store(u), settled + {m})
                 else (Work(before, batch, false).Store(u), settled)
    {
      hide Ticket.State, ProposalTracker.State, View, Key, Tracker.Forget, TicketState.Drained;
      out, settledNow := batch, settled;
      ghost var u := t.State();
      SaveChanged(t, before);
      SaveKeepsTrackers(before, u);
      if outcome.Some? && m != "" && m !in settled {
        settledNow := settled + {m};
        out := AnnounceSettled(x.config, m, t.id, outcome.value, batch);
      }
      out := AddTicket(t, out, before, u);
    }

    /** The events a saved ticket recorded move into the batch. */
    method AddTicket(t: Ticket, batch: seq<Event>, ghost before: Service, ghost u: TicketState)
      returns (out: seq<Event>)
      requires Valid() && t.id in tickets && tickets[t.id] == t && t.State() == u
      requires View() == before.Save(u).(trackers := View().trackers)
      modifies t
      ensures Valid() && out == batch + u.events
      ensures View() == before.(trackers := old(View()).trackers).Save(u.Drained())
    {
      hide Ticket.State, ProposalTracker.State;
      var events := t.PullEvents();
      Mutated(t.id);
      hide View;
      SaveThenDrain(before.(trackers := old(View()).trackers), u);
      SaveCommutes(before, u, old(View()).trackers);
      out := batch + events;
    }

    method SyncTicket(x: TickInput, id: TicketID, settled: set<MatchID>, batch: seq<Event>)
      returns (out: seq<Event>, settledNow: set<MatchID>, ok: bool)
      requires Valid() && x.config in trackers
      modifies this, tickets.Values, trackers.Values
      ensures Valid() && SameRefs()
      ensures (Work(View(), out, !ok), settledNow) == Spec.SyncTicket(x, Work(old(View()), batch, false), settled, id)
    {
      hide ProposalTracker.State, Ticket.State, Spec.CaptureRuleMetrics, FromEngine, FailureOutcome, Tracker.Forget,
           Key;
      out, settledNow, ok := batch, settled, true;
      if id in tickets { Fields(tickets[id]); }
      if id !in tickets || id !in x.engine.statusAfter {
        return;
      }
      var t, curr := tickets[id], x.engine.statusAfter[id];
      if curr == t.status {
        return;
      }
      SyncTicketAs(x, Work(View(), batch, false), settled, id);
      hide Spec.SyncTicket;
      var m := t.matchID;
      var outcome;
      outcome, ok := Transition(x, t, curr);
      if ok {
        out, settledNow := StoreSynced(x, t, m, outcome, settled, batch, old(View()));
      }
    }

    /** captureRuleMetrics and transitionFromEngine, on a registered ticket. */
    method Transition(x: TickInput, t: Ticket, curr: TicketStatus)
      returns (outcome: Option<AcceptanceOutcome>, ok: bool)
      requires Valid() && t.id in tickets && tickets[t.id] == t
      modifies t
      ensures var captured := Spec.CaptureRuleMetrics(x, old(t.State()), curr);
              var r := FromEngine(x, captured, curr);
              && ok == r.Some? && t.State() == (if ok then r.value else captured)
              && outcome == if SettlesAcceptance(captured, curr)
                            then Some(FailureOutcome(old(View()), x.config, captured.matchID)) else None
      ensures Valid() && View() == old(View()).Put(t.State())
    {
      hide ProposalTracker.State, Ticket.State, Spec.CaptureRuleMetrics, FromEngine, FailureOutcome, Key;
      CaptureRuleMetrics(x, t, curr);
      Mutated(t.id);
      Fields(t);
      MetricsOnly(x, old(View()), old(t.State()), curr, t.matchID);
      outcome, ok := TransitionFromEngine(x, t, curr);
      Mutated(t.id);
    }

    method SyncActiveTickets(x: TickInput, batch: seq<Event>) returns (out: seq<Event>, ok: bool)
      requires Valid() && x.config in trackers
      modifies this, tickets.Values, trackers.Values
      ensures Valid() && SameRefs()
      ensures Work(View(), out, !ok) == Sync(x, Work(old(View()), batch, false))
    {
      hide View, Spec.SyncTicket;
      var ids := ActiveTicketIDsByConfiguration(x.config);
      var settled: set<MatchID> := {};
      out, ok := batch, true;
      for i := 0 to |ids|
        invariant Valid() && SameRefs() && ok
        invariant SyncTickets(x, Work(View(), out, false), settled, ids[i..])
               == SyncTickets(x, Work(old(View()), batch, false), {}, ids)
      {
        assert ids[i..][0] == ids[i] && ids[i..][1..] == ids[i + 1..];
        out, settled, ok := SyncTicket(x, ids[i], settled, out);
        if !ok {
          return;
        }
      }
    }

    // ----- eviction

    method Retention() returns (r: Time)
      ensures r == View().Retention()
    {
      r := if ticketRetention > 0 then ticketRetention else DefaultTicketRetention;
    }

    predicate Outlived(t: Ticket, now: Time, retention: Time)
      reads t
    {
      t.status.IsTerminal() && t.endTime != 0 && now - t.endTime >= retention
    }

    /** The tickets of a configuration whose retention has run out. */
    method ExpiredTickets(c: ConfigurationName, now: Time) returns (expired: set<TicketID>)
      requires Valid()
      ensures expired == View().Expired(c, now)
    {
      hide View, Outlived, Service.Expired, Service.Retention, IDsAt;
      var retention := Retention();
      var rest := IDsAt(ticketsByConfig, c);
      ghost var due := View().Expired(c, now);
      forall id ensures id in due ==> id in rest { DueWhen(c, now, id); }
      expired := {};
      while rest != {}
        invariant expired <= due <= expired + rest
        decreases rest
      {
        var id :| id in rest;
        DueWhen(c, now, id);
        if id in tickets && Outlived(tickets[id], now, retention) {
          expired := expired + {id};
        }
        rest := rest - {id};
      }
    }

    lemma DueWhen(c: ConfigurationName, now: Time, id: TicketID)
      ensures id in View().Expired(c, now)
         <==> id in IDsAt(ticketsByConfig, c) && id in tickets && Outlived(tickets[id], now, View().Retention())
    {
    }

    method RemoveTicket(c: ConfigurationName, id: TicketID)
      requires Valid()
      modifies this`tickets, this`ticketsByConfig, this`activeTicketIDsByConfig
      ensures Valid() && tickets == old(tickets) - {id} && tickets.Values <= old(tickets.Values)
      ensures View() == old(View()).Remove(c, {id})
    {
      hide Ticket.State, ProposalTracker.State;
      tickets := tickets - {id};
      Removed(id);
      label removed:
      if c in ticketsByConfig {
        ticketsByConfig := ticketsByConfig[c := ticketsByConfig[c] - {id}];
      }
      if c in activeTicketIDsByConfig {
        activeTicketIDsByConfig := activeTicketIDsByConfig[c := activeTicketIDsByConfig[c] - {id}];
      }
      SameObjects@removed();
    }

    twostate lemma Removed(id: TicketID)
      requires old(Valid()) && tickets == old(tickets) - {id} && trackers == old(trackers)
      requires forall k <- old(tickets) :: old(tickets)[k].State() == old(tickets[k].State())
      requires forall c <- trackers :: trackers[c].State() == old(trackers[c].State())
      ensures View().tickets == old(View()).tickets - {id} && View().trackers == old(View()).trackers
    {
      hide Ticket.State, ProposalTracker.State;
    }

    method RemoveTickets(c: ConfigurationName, ids: set<TicketID>)
      requires Valid()
      modifies this`tickets, this`ticketsByConfig, this`activeTicketIDsByConfig
      ensures Valid() && tickets.Values <= old(tickets.Values)
      ensures View() == old(View()).Remove(c, ids)
    {
      hide View, Service.Remove;
      RemoveNothing(View(), c);
      assert ids - ids == {};
      var rest := ids;
      while rest != {}
        invariant Valid() && tickets.Values <= old(tickets.Values)
        invariant rest <= ids && View() == old(View()).Remove(c, ids - rest)
        decreases |rest|
      {
        var id :| id in rest;
        RemoveOneMore(old(View()), c, ids - rest, id);
        RemoveTicket(c, id);
        assert ids - (rest - {id}) == (ids - rest) + {id};
        rest := rest - {id};
      }
      assert ids - {} == ids;
    }

    /** The time of the next sweep is over or not set. */
    method SweepDue(c: ConfigurationName, now: Time) returns (due: bool)
      ensures due == (now >= View().NextCleanup(c))
    {
      due := now >= (if c in nextCleanup then nextCleanup[c] else 0);
    }

    method ScheduleSweep(c: ConfigurationName, now: Time)
      requires Valid()
      modifies this`nextCleanup
      ensures Valid() && View() == old(View()).(nextCleanup := old(View()).nextCleanup[c := now + old(View()).CleanupInterval()])
    {
      hide Ticket.State, ProposalTracker.State;
      var retention := Retention();
      var interval := if Minute < retention then Minute else retention;
      nextCleanup := nextCleanup[c := now + interval];
    }

    /** One sweep per interval: the expired tickets are listed, then removed one at a time. */
    method EvictExpiredTickets(c: ConfigurationName, now: Time)
      requires Valid()
      modifies this
      ensures Valid() && trackers == old(trackers) && tickets.Values <= old(tickets.Values)
      ensures View() == old(View()).Evict(c, now)
    {
      hide View, Valid, Service.Expired, Service.NextCleanup, Service.CleanupInterval;
      var due := SweepDue(c, now);
      if due {
        ScheduleSweep(c, now);
        SameExpired(old(View()), View(), c, now);
        var expired := ExpiredTickets(c, now);
        RemoveTickets(c, expired);
      }
    }

    // ----- the tick

    /** One tick: the four passes in their order, each skipped after an error, and then the sweep. */
    method Tick(x: TickInput) returns (batch: seq<Event>, ok: bool)
      requires Valid()
      modifies this, tickets.Values, trackers.Values
      ensures Valid()
      ensures Work(View(), batch, !ok) == RunTick(x, old(View()))
    {
      hide View, Settle, Finalize, Apply, Sync, Service.Evict, Service.WithTracker;
      batch, ok := [], false;
      if x.refused || x.engine.fails {
        return;
      }
      var tracker := TrackerFor(x.config);
      batch, ok := SettleOldProposals(x, batch);
      NothingAfterError(x, Work(View(), batch, true));
      if ok {
        batch, ok := FinalizeMatches(x, batch);
      }
      NothingAfterError(x, Work(View(), batch, true));
      if ok {
        batch, ok := ApplyNewProposals(x, batch);
      }
      if ok {
        batch, ok := SyncActiveTickets(x, batch);
      }
      if ok {
        EvictExpiredTickets(x.config, x.now);
      }
    }

    // ----- the client commands

    /** commitTicket followed by addTicket. */
    method CommitAndAdd(t: Ticket, batch: seq<Event>) returns (out: seq<Event>)
      requires Valid() && t.id !in tickets
      modifies this, t
      ensures Valid() && out == batch + old(t.State()).events
      ensures tickets == old(tickets)[t.id := t] && trackers == old(trackers)
      ensures View() == old(View()).Commit(old(t.State()).Drained())
    {
      hide Ticket.State, ProposalTracker.State;
      assert forall k <- tickets :: tickets[k] != t;
      CommitTicket(t);
      label committed:
      var events := t.PullEvents();
      Mutated@committed(t.id);
      hide View;
      CommitThenDrain(old(View()), old(t.State()));
      out := batch + events;
    }

    method StartMatchmaking(x: StartInput) returns (outcome: Outcome<Error>, batch: seq<Event>)
      requires Valid()
      modifies this
      ensures Valid()
      ensures Result(View(), batch, outcome) == Commands.StartMatchmaking(x, old(View()))
    {
      hide View, Service.Commit, Service.CancelReservation, Service.Reserve, Blank;
      batch := [];
      if x.players == [] {
        return Fail(InvalidCommand), batch;
      }
      if x.refused {
        return Fail(Refused), batch;
      }
      var id := x.ticketID;
      if id == "" {
        if Blank(x.generatedID) {
          return Fail(InvalidRequest), batch;
        }
        id := x.generatedID;
        NotBlank(id);
      }
      var ticket := new Ticket(id, x.config, x.players, x.now);
      var reserved := ReserveTicketID(id);
      if !reserved {
        return Fail(TicketAlreadyExists), batch;
      }
      if !x.enqueue.Enqueued? {
        CancelTicketReservation(id);
        return Fail(EnqueueError(x.enqueue)), batch;
      }
      assert id !in tickets by { NotTaken(id); }
      batch := CommitAndAdd(ticket, batch);
      assert [] + batch == batch;
      outcome := Pass;
    }

    twostate lemma NotTaken(id: TicketID)
      requires !old(View()).Taken(id) && tickets == old(tickets)
      ensures id !in tickets
    {
    }

    method StopMatchmaking(x: StopInput) returns (outcome: Outcome<Error>)
      requires Valid()
      modifies this, tickets.Values
      ensures Valid() && SameRefs()
      ensures Result(View(), [], outcome) == Commands.StopMatchmaking(x, old(View()))
    {
      hide Ticket.State, ProposalTracker.State, Service.Save, Service.Put;
      if x.ticketID !in tickets {
        return Fail(TicketNotFound);
      }
      if x.refused {
        return Fail(Refused);
      }
      if x.replaced {
        return Fail(TicketNotFound);
      }
      if x.cancel.UnknownTicket? {
        return Fail(TicketNotFound);
      }
      if x.cancel.Fault? {
        return Fail(EngineFault);
      }
      var t := tickets[x.ticketID];
      t.RequestCancel();
      Mutated(x.ticketID);
      SaveChanged(t, old(View()));
      return Pass;
    }

    /** The request's players, each once, in the order of the request. */
    method DedupePlayers(ids: seq<PlayerID>) returns (r: seq<PlayerID>)
      ensures r == Dedupe(ids)
      ensures NoDuplicates(r) && (forall p :: p in r <==> p in ids)
      ensures forall i, j | 0 <= i < j < |r| :: FirstMention(ids, r[i]) < FirstMention(ids, r[j])
    {
      r := [];
      for i := 0 to |ids|
        invariant r == Dedupe(ids[..i])
      {
        assert ids[..i + 1][..i] == ids[..i];
        if ids[i] !in r {
          r := r + [ids[i]];
        }
      }
      assert ids[..|ids|] == ids;
      forall i, j | 0 <= i < j < |r| ensures FirstMention(ids, r[i]) < FirstMention(ids, r[j]) {
        DedupeOrder(ids, i, j);
      }
    }

    method CallEngine(ids: seq<PlayerID>, errors: map<PlayerID, Error>) returns (outcome: Outcome<Error>)
      ensures outcome == FirstError(ids, errors)
    {
      for i := 0 to |ids|
        invariant FirstError(ids[i..], errors) == FirstError(ids, errors)
      {
        if ids[i] in errors {
          return Fail(errors[ids[i]]);
        }
        assert ids[i..][1..] == ids[i + 1..];
      }
      return Pass;
    }

    /** The decisions recorded so far on the tickets of a roster. */
    method CollectAcceptances(ids: seq<TicketID>) returns (r: map<PlayerID, bool>)
      ensures r == MergedAcceptances(View(), ids)
    {
      hide Ticket.State, ProposalTracker.State;
      r := map[];
      for i := 0 to |ids|
        invariant r == MergedAcceptances(View(), ids[..i])
      {
        assert ids[..i + 1][..i] == ids[..i];
        if ids[i] in tickets {
          Fields(tickets[ids[i]]);
          r := r + tickets[ids[i]].playerAcceptances;
        }
      }
      assert ids[..|ids|] == ids;
    }

    /** Everything AcceptMatch checks, and the engine calls, before it records anything. */
    method CheckDecisions(x: AcceptInput, players: seq<PlayerID>) returns (outcome: Outcome<Error>)
      requires Valid() && players == Dedupe(x.playerIDs)
      ensures outcome == DecisionsOutcome(x, View())
    {
      hide Ticket.State, ProposalTracker.State, Dedupe, FirstError, TicketState.ValidatePlayerAcceptances;
      if x.ticketID !in tickets {
        return Fail(TicketNotFound);
      }
      if x.refused {
        return Fail(Refused);
      }
      if x.replaced {
        return Fail(TicketNotFound);
      }
      var valid := tickets[x.ticketID].ValidatePlayerAcceptances(players);
      if valid.Fail? {
        return valid;
      }
      if !exists r <- x.pending :: x.ticketID in r {
        return Fail(ProposalNotFound);
      }
      outcome := CallEngine(if x.accepted || players == [] then players else players[..1], x.engineErrors);
    }

    method RecordDecisions(t: Ticket, players: seq<PlayerID>, accepted: bool)
      requires Valid() && t.id in tickets && tickets[t.id] == t
      modifies this`tickets, this`ticketsByConfig, this`activeTicketIDsByConfig, t
      ensures Valid() && SameRefs()
      ensures t.State() == old(t.State()).RecordPlayerAcceptances(players, accepted)
      ensures View() == old(View()).Save(t.State())
    {
      hide Ticket.State, ProposalTracker.State, TicketState.RecordPlayerAcceptances, Service.Save, Service.Put;
      t.RecordPlayerAcceptances(players, accepted);
      Mutated(t.id);
      hide View;
      SaveChanged(t, old(View()));
    }

    method AcceptMatch(x: AcceptInput) returns (outcome: Outcome<Error>, batch: seq<Event>)
      requires Valid()
      modifies this, tickets.Values, trackers.Values
      ensures Valid()
      ensures Result(View(), batch, outcome) == Commands.AcceptMatch(x, old(View()))
    {
      hide *;
      batch := [];
      AcceptMatchAs(x, View());
      var players := DedupePlayers(x.playerIDs);
      outcome := CheckDecisions(x, players);
      if outcome.Pass? {
        var t := RegisteredTicket(x.ticketID);
        RecordDecisions(t, players, x.accepted);
        batch := ReportDecisions(t);
      }
    }

    method RegisteredTicket(id: TicketID) returns (t: Ticket)
      requires Valid() && id in View().tickets
      ensures id in tickets && tickets[id] == t && t.id == id && t.State() == View().tickets[id]
    {
      t := tickets[id];
    }

    /** One AcceptMatch event for the whole match. */
    method ReportDecisions(t: Ticket) returns (batch: seq<Event>)
      requires Valid()
      modifies this`trackers
      ensures Valid()
      ensures Result(View(), batch, Pass) == DecisionsReport(old(View()), t.State())
    {
      Fields(t);
      hide Ticket.State, Key, MergedAcceptances;
      var tracker := TrackerFor(t.configurationName);
      var ids := if t.matchID in tracker.byMatch then tracker.byMatch[t.matchID] else [t.id];
      assert View().TrackerOf(t.configurationName) == tracker.State();
      hide View;
      var decisions := CollectAcceptances(ids);
      batch := [AcceptanceRecorded(t.matchID, ids, decisions)];
    }

    // ----- backfill

    /** A ticket that is registered under its id, if it is one at all. */
    ghost predicate IsRegistered(t: Option<Ticket>)
      reads this
    {
      t.Some? ==> t.value.id in tickets && tickets[t.value.id] == t.value
    }

    static ghost function StateOf(t: Option<Ticket>): Option<TicketState>
      reads if t.Some? then {t.value} else {}
    {
      match t
      case None => None
      case Some(t) => Some(t.State())
    }

    /** The configuration's active backfill ticket of a game session, looked up in id order. */
    method FindSession(c: ConfigurationName, arn: string) returns (t: Option<Ticket>)
      requires Valid()
      ensures StateOf(t) == FindSessionBackfill(View(), c, arn) && IsRegistered(t)
    {
      hide Ticket.State, ProposalTracker.State;
      var ids := ActiveTicketIDsByConfiguration(c);
      for i := 0 to |ids|
        invariant FirstSessionBackfill(View(), ids[i..], arn) == FindSessionBackfill(View(), c, arn)
      {
        assert ids[i..][0] == ids[i] && ids[i..][1..] == ids[i + 1..];
        if ids[i] in tickets {
          var ticket := tickets[ids[i]];
          Fields(ticket);
          if ticket.isBackfill && ticket.gameSessionARN == arn && ticket.status.IsActive() {
            return Some(ticket);
          }
        }
      }
      return None;
    }

    /** Retires an earlier request: its metrics are captured before anything can fail. */
    method SupersedeBackfill(x: BackfillInput, prior: Ticket) returns (outcome: Outcome<Error>, batch: seq<Event>)
      requires Valid() && prior.id in tickets && tickets[prior.id] == prior
      modifies this`tickets, this`ticketsByConfig, this`activeTicketIDsByConfig, prior
      ensures Valid() && SameRefs()
      ensures Result(View(), batch, outcome) == Commands.SupersedeBackfill(x, old(View()), old(prior.State()))
    {
      hide Ticket.State, ProposalTracker.State, TicketState.MarkCancelled, TicketState.SetRuleMetrics;
      batch := [];
      MetricsKeepID(x, prior.State());
      if x.priorMetrics.Some? {
        prior.SetRuleMetrics(x.priorMetrics.value);
      }
      if x.cancelPrior.Fault? {
        Mutated(prior.id);
        return Fail(EngineFault), batch;
      }
      var ok := prior.MarkCancelled(SupersededMessage, x.start.now);
      Mutated(prior.id);
      hide Service.Save, Service.Put;
      if !ok {
        return Fail(InvalidTransition), batch;
      }
      PutThenStore(Work(old(View()), [], false), prior.State());
      batch := StoreTicket(prior, batch);
      outcome := Pass;
    }

    /** The request is checked and the new ticket made; nothing is changed yet. */
    method PrepareBackfill(x: BackfillInput)
      returns (err: Outcome<Error>, ticket: Option<Ticket>, prior: Option<Ticket>)
      requires Valid()
      ensures IsRegistered(prior) && (ticket.Some? ==> fresh(ticket.value) && ticket.value.id != "")
      ensures match PlanBackfill(x, View())
              case Decline(e) => err == Fail(e) && ticket.None?
              case Replace(t, p) => err.Pass? && ticket.Some? && ticket.value.State() == t && StateOf(prior) == p
    {
      hide View, Ticket.State, Blank, FindSessionBackfill;
      ticket, prior := None, None;
      if x.start.players == [] {
        return Fail(InvalidCommand), ticket, prior;
      }
      if x.start.refused {
        return Fail(Refused), ticket, prior;
      }
      if x.gameSessionARN != "" {
        prior := FindSession(x.start.config, x.gameSessionARN);
        if prior.Some? {
          Fields(prior.value);
          if !IsSupersedable(prior.value.status) {
            return Fail(BackfillInProgress), ticket, prior;
          }
        }
      }
      var id := x.start.ticketID;
      if id == "" {
        if Blank(x.start.generatedID) {
          return Fail(InvalidRequest), ticket, prior;
        }
        id := x.start.generatedID;
        NotBlank(id);
      }
      var t := new Ticket.Backfill(id, x.start.config, x.start.players, x.gameSessionARN, x.start.now);
      ticket, err := Some(t), Pass;
    }

    /** The engine has the new ticket and its id is reserved: retire the earlier request, or take everything back. */
    method ReplaceBackfill(x: BackfillInput, t: Ticket, prior: Option<Ticket>)
      returns (outcome: Outcome<Error>, batch: seq<Event>)
      requires Valid() && t.id !in tickets && IsRegistered(prior)
      modifies this, tickets.Values, t
      ensures Valid()
      ensures Result(View(), batch, outcome) == Commands.ReplaceBackfill(x, old(View()), old(t.State()), old(StateOf(prior)))
    {
      hide View, Ticket.State, Commands.SupersedeBackfill, Service.Commit, Service.CancelReservation,
           TicketState.Drained;
      outcome, batch := Pass, [];
      if prior.Some? {
        outcome, batch := SupersedeBackfill(x, prior.value);
      }
      if outcome.Pass? {
        batch := CommitAndAdd(t, batch);
        assert [] + old(t.State()).events == old(t.State()).events;
      } else if !x.cancelNew.Fault? && !x.evictNew.Fault? {
        CancelTicketReservation(t.id);
      }
    }

    method StartMatchBackfill(x: BackfillInput) returns (outcome: Outcome<Error>, batch: seq<Event>)
      requires Valid()
      modifies this, tickets.Values
      ensures Valid()
      ensures Result(View(), batch, outcome) == Commands.StartMatchBackfill(x, old(View()))
    {
      hide View, Ticket.State, PlanBackfill, Commands.ReplaceBackfill, Service.Reserve, Service.CancelReservation,
           Service.Taken;
      var ticket, prior;
      outcome, ticket, prior := PrepareBackfill(x);
      batch := [];
      if outcome.Fail? {
        return;
      }
      var t := ticket.value;
      var reserved := ReserveTicketID(t.id);
      if !reserved {
        return Fail(TicketAlreadyExists), batch;
      }
      if !x.start.enqueue.Enqueued? {
        CancelTicketReservation(t.id);
        return Fail(EnqueueError(x.start.enqueue)), batch;
      }
      NotTaken(t.id);
      outcome, batch := ReplaceBackfill(x, t, prior);
    }
  }
}
