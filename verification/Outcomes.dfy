/**
 What the four client commands achieve, in terms of the request, the answers from outside, and the store before: when a
 command succeeds, which error it reports otherwise, and all that it changes.
 */
module Outcomes {
  import opened Wrappers
  import opened Domain
  import opened RosterKey
  import opened ProposalTracking
  import opened ServiceState
  import opened Tick
  import opened Commands
  import opened Runs
  import opened AnyEngine
  import opened AnyRun

  // ----- what a command leaves alone

  /** Reservations, sweep times, retention and trackers are as before. */
  ghost predicate RestSame(s: Service, r: Service) {
    && r.reserved == s.reserved && r.nextCleanup == s.nextCleanup && r.ticketRetention == s.ticketRetention
    && forall c :: r.TrackerOf(c) == s.TrackerOf(c)
  }

  /** No ticket moved from one index to another. */
  ghost predicate IndicesSame(s: Service, r: Service) {
    forall c :: r.ByConfig(c) == s.ByConfig(c) && r.Active(c) == s.Active(c)
  }

  /** The id came to the index of configuration `c`, and to its index of active tickets. */
  ghost predicate Indexed(s: Service, r: Service, c: ConfigurationName, id: TicketID) {
    && (forall d :: r.ByConfig(d) == if d == c then s.ByConfig(d) + {id} else s.ByConfig(d))
    && (forall d :: r.Active(d) == if d == c then s.Active(d) + {id} else s.Active(d))
  }

  // ----- the id of a new ticket

  function RequestedID(x: StartInput): TicketID {
    if x.ticketID != "" then x.ticketID else x.generatedID
  }

  /** An id is generated where the request has none, and a generated id must not be blank. */
  predicate UsableID(x: StartInput) {
    x.ticketID != "" || exists ch <- x.generatedID :: ch !in {' ', '\t', '\n', '\r', 11 as char, 12 as char}
  }

  predicate FreeID(s: Service, id: TicketID) {
    id !in s.tickets && id !in s.reserved
  }

  lemma ChosenIs(x: StartInput)
    ensures ChosenID(x.ticketID, x.generatedID) == if UsableID(x) then Some(RequestedID(x)) else None
    ensures UsableID(x) ==> RequestedID(x) != ""
  {
  }

  // ----- StartMatchmaking

  /**
   It succeeds exactly if there are players, the request is not refused, its id is usable and free, and the engine
   enqueues the ticket; and it says which of these failed first.
   */
  lemma StartOutcome(x: StartInput, s: Service)
    ensures var r := StartMatchmaking(x, s).outcome;
            var asked, usable := x.players != [] && !x.refused, UsableID(x);
            var free := FreeID(s, RequestedID(x));
            && (r.Pass? <==> asked && usable && free && x.enqueue.Enqueued?)
            && (x.players == [] ==> r == Fail(InvalidCommand))
            && (x.players != [] && x.refused ==> r == Fail(Refused))
            && (asked && !usable ==> r == Fail(InvalidRequest))
            && (asked && usable && !free ==> r == Fail(TicketAlreadyExists))
            && (asked && usable && free && x.enqueue.DuplicateTicket? ==> r == Fail(TicketAlreadyExists))
            && (asked && usable && free && x.enqueue.InvalidTicket? ==> r == Fail(InvalidRequest))
            && (asked && usable && free && x.enqueue.EnqueueFault? ==> r == Fail(EngineFault))
  {
    ChosenIs(x);
    hide ChosenID, UsableID, RequestedID, Service.Commit;
  }

  /** A failing StartMatchmaking changes nothing; a successful one registers the requested ticket and announces it. */
  lemma StartEffect(x: StartInput, s: Service)
    ensures var r, id := StartMatchmaking(x, s), RequestedID(x);
            if r.outcome.Fail? then r.svc == s && r.batch == []
            else
              && r.batch == [SearchingStarted(id)]
              && r.svc.tickets == s.tickets[id := TicketState(id, x.config, x.players, false, "", x.now, Queued, "", "", 0, "",
                                                              false, map[], map[], [], [])]
              && Indexed(s, r.svc, x.config, id) && RestSame(s, r.svc)
  {
    StartCases(x, s);
    StartOutcome(x, s);
    hide StartMatchmaking;
    if StartMatchmaking(x, s).outcome.Pass? { CommitEffect(s, StartedTicket(x)); }
  }

  lemma CommitEffect(s: Service, t: TicketState)
    requires FreeID(s, t.id) && t.status.Queued?
    ensures var r := s.Commit(t); r.tickets == s.tickets[t.id := t] && Indexed(s, r, t.config, t.id) && RestSame(s, r)
  {
  }

  // ----- StopMatchmaking

  /** It succeeds exactly if the ticket is registered, and stays so until the command's turn, and the engine cancels it. */
  lemma StopOutcome(x: StopInput, s: Service)
    ensures var r := StopMatchmaking(x, s).outcome;
            var known, asked := x.ticketID in s.tickets, !x.refused && !x.replaced;
            && (r.Pass? <==> known && asked && x.cancel.Done?)
            && (!known ==> r == Fail(TicketNotFound))
            && (known && x.refused ==> r == Fail(Refused))
            && (known && !x.refused && x.replaced ==> r == Fail(TicketNotFound))
            && (known && asked && x.cancel.UnknownTicket? ==> r == Fail(TicketNotFound))
            && (known && asked && x.cancel.Fault? ==> r == Fail(EngineFault))
  {
  }

  /** The client's intent is recorded on the ticket; nothing else changes, and nothing is announced. */
  lemma StopEffect(x: StopInput, s: Service)
    requires Fit(s)
    ensures var r := StopMatchmaking(x, s);
            && r.batch == []
            && if r.outcome.Fail? then r.svc == s
               else
                 && r.svc.tickets == s.tickets[x.ticketID := s.tickets[x.ticketID].(cancelByAPI := true)]
                 && IndicesSame(s, r.svc) && RestSame(s, r.svc)
  {
    var r := StopMatchmaking(x, s);
    if r.outcome.Pass? { ResavedEffect(s, s.tickets[x.ticketID].RequestCancel(), x.ticketID); }
  }

  /** Saving a registered ticket whose status did not change. */
  lemma ResavedEffect(s: Service, u: TicketState, id: TicketID)
    requires Fit(s) && id in s.tickets && u.id == id
    requires u.config == s.tickets[id].config && u.status == s.tickets[id].status
    ensures var r := s.Save(u); r.tickets == s.tickets[id := u] && IndicesSame(s, r) && RestSame(s, r)
  {
    assert s.Indexed(u.config, id);
  }

  // ----- AcceptMatch

  /** The engine is called for each player of an acceptance, but only for the first one of a rejection. */
  predicate CalledFor(x: AcceptInput, i: int) {
    0 <= i < |x.playerIDs| && (x.accepted || i == 0)
  }

  predicate CallFails(x: AcceptInput, i: int) {
    CalledFor(x, i) && x.playerIDs[i] in x.engineErrors
  }

  predicate OwnPlayers(t: TicketState, ids: seq<PlayerID>) {
    forall p <- ids :: exists q <- t.players :: q.id == p
  }

  /** The request is about a ticket that has to be accepted, and names some of its players and no others. */
  predicate Acceptable(x: AcceptInput, s: Service) {
    && x.ticketID in s.tickets && !x.refused && !x.replaced && s.tickets[x.ticketID].status.RequiresAcceptance?
    && x.playerIDs != [] && OwnPlayers(s.tickets[x.ticketID], x.playerIDs)
  }

  predicate EnginePending(x: AcceptInput) {
    exists r <- x.pending :: x.ticketID in r
  }

  lemma ValidIs(x: AcceptInput, s: Service)
    requires x.ticketID in s.tickets && !x.refused && !x.replaced
    ensures var t := s.tickets[x.ticketID];
            t.ValidatePlayerAcceptances(Dedupe(x.playerIDs))
            == if !t.status.RequiresAcceptance? then Fail(InvalidTransition)
               else if x.playerIDs == [] then Fail(InvalidRequest)
               else if OwnPlayers(t, x.playerIDs) then Pass else Fail(PlayerNotInTicket)
  {
    var t, players := s.tickets[x.ticketID], Dedupe(x.playerIDs);
    DedupeSome(x.playerIDs);
    hide Dedupe;
    assert (forall p <- players :: p in PlayerIDs(t.players)) <==> OwnPlayers(t, x.playerIDs);
  }

  lemma DedupeSome(ids: seq<PlayerID>)
    ensures Dedupe(ids) == [] <==> ids == []
    ensures ids != [] ==> Dedupe(ids)[0] == ids[0]
  {
    if ids != [] {
      assert ids[0] in Dedupe(ids);
      DedupeFirst(ids);
    }
  }

  lemma {:induction false} DedupeFirst(ids: seq<PlayerID>)
    requires ids != []
    ensures Dedupe(ids) != [] && Dedupe(ids)[0] == ids[0]
  {
    if |ids| > 1 { DedupeFirst(ids[..|ids| - 1]); }
  }

  lemma {:induction false} FirstErrorLater(ids: seq<PlayerID>, p: PlayerID, errors: map<PlayerID, Error>)
    ensures FirstError(ids + [p], errors)
         == if FirstError(ids, errors).Fail? then FirstError(ids, errors) else if p in errors then Fail(errors[p]) else Pass
    ensures FirstError(ids, errors).Pass? <==> forall q <- ids :: q !in errors
  {
    if ids == [] {
      assert [] + [p] == [p] && [p][1..] == [];
      assert FirstError([], errors) == Pass;
    } else {
      FirstErrorLater(ids[1..], p, errors);
      assert (ids + [p])[1..] == ids[1..] + [p];
      assert forall q :: q in ids <==> q == ids[0] || q in ids[1..];
    }
  }

  /** Naming a player twice makes no difference to which call fails first. */
  lemma {:induction false} DedupedError(ids: seq<PlayerID>, errors: map<PlayerID, Error>)
    ensures FirstError(Dedupe(ids), errors) == FirstError(ids, errors)
  {
    if ids != [] {
      var front, last := ids[..|ids| - 1], ids[|ids| - 1];
      DedupedError(front, errors);
      FirstErrorLater(front, last, errors);
      FirstErrorLater(Dedupe(front), last, errors);
      assert ids == front + [last];
    }
  }

  lemma {:induction false} FirstErrorIs(ids: seq<PlayerID>, errors: map<PlayerID, Error>, i: nat)
    requires i < |ids| && ids[i] in errors && forall j | 0 <= j < i :: ids[j] !in errors
    ensures FirstError(ids, errors) == Fail(errors[ids[i]])
  {
    if i > 0 {
      assert ids[0] !in errors;
      FirstErrorIs(ids[1..], errors, i - 1);
    }
  }

  lemma CallsAre(x: AcceptInput)
    requires x.playerIDs != []
    ensures var players := Dedupe(x.playerIDs);
            var r := FirstError(if x.accepted || players == [] then players else players[..1], x.engineErrors);
            && (r.Pass? <==> forall i :: !CallFails(x, i))
            && (forall i | CallFails(x, i) && (forall j | 0 <= j < i :: !CallFails(x, j)) ::
                  r == Fail(x.engineErrors[x.playerIDs[i]]))
  {
    var ids, e := x.playerIDs, x.engineErrors;
    DedupeSome(ids);
    DedupedError(ids, e);
    FirstErrorLater(ids, "", e);
    hide Dedupe;
    if x.accepted {
      assert (forall q <- ids :: q !in e) <==> (forall i :: !CallFails(x, i)) by {
        forall i | 0 <= i < |ids| ensures ids[i] in e <==> CallFails(x, i) {}
      }
      forall i | CallFails(x, i) && (forall j | 0 <= j < i :: !CallFails(x, j))
        ensures FirstError(ids, e) == Fail(e[ids[i]]) {
        forall j | 0 <= j < i ensures ids[j] !in e { assert !CallFails(x, j); }
        FirstErrorIs(ids, e, i);
      }
    } else {
      assert CallFails(x, 0) <==> ids[0] in e;
      assert Dedupe(ids)[..1] == [ids[0]] && [ids[0]][1..] == [];
    }
  }

  /**
   It succeeds exactly if the ticket requires acceptance, the request names some of its players and no others, the engine
   holds the ticket in a pending proposal, and no engine call fails; and it says which of these failed first.
   */
  lemma AcceptOutcome(x: AcceptInput, s: Service)
    ensures var r := AcceptMatch(x, s).outcome;
            var known, asked := x.ticketID in s.tickets, !x.refused && !x.replaced;
            && (r.Pass? <==> Acceptable(x, s) && EnginePending(x) && forall i :: !CallFails(x, i))
            && (!known ==> r == Fail(TicketNotFound))
            && (known && x.refused ==> r == Fail(Refused))
            && (known && !x.refused && x.replaced ==> r == Fail(TicketNotFound))
            && (known && asked ==>
                  var t := s.tickets[x.ticketID];
                  && (!t.status.RequiresAcceptance? ==> r == Fail(InvalidTransition))
                  && (t.status.RequiresAcceptance? && x.playerIDs == [] ==> r == Fail(InvalidRequest))
                  && (t.status.RequiresAcceptance? && !OwnPlayers(t, x.playerIDs) ==> r == Fail(PlayerNotInTicket)))
            && (Acceptable(x, s) && !EnginePending(x) ==> r == Fail(ProposalNotFound))
            && (forall i | Acceptable(x, s) && EnginePending(x) && CallFails(x, i) && (forall j | 0 <= j < i :: !CallFails(x, j)) ::
                  r == Fail(x.engineErrors[x.playerIDs[i]]))
  {
    hide Dedupe, OwnPlayers, CallFails, FirstError, TicketState.ValidatePlayerAcceptances, TicketState.RecordPlayerAcceptances,
         Service.Save, MergedAcceptances;
    if x.ticketID in s.tickets && !x.refused && !x.replaced {
      ValidIs(x, s);
      NothingOwned(s.tickets[x.ticketID]);
      if x.playerIDs != [] { CallsAre(x); }
    }
  }

  lemma NothingOwned(t: TicketState)
    ensures OwnPlayers(t, [])
  {
  }

  /** The decisions after a request: its players' are replaced, all others stay. */
  ghost predicate Updated(before: map<PlayerID, bool>, after: map<PlayerID, bool>, ids: seq<PlayerID>, accepted: bool) {
    && (forall p :: p in after <==> p in before || p in ids)
    && (forall p <- after :: after[p] == if p in ids then accepted else before[p])
  }

  lemma RecordedIs(t: TicketState, ids: seq<PlayerID>, accepted: bool)
    ensures var u := t.RecordPlayerAcceptances(Dedupe(ids), accepted);
            && u == t.(playerAcceptances := u.playerAcceptances)
            && Updated(t.playerAcceptances, u.playerAcceptances, ids, accepted)
  {
  }

  /**
   On the ticket the requested players' decisions are recorded and every other player's stays as it was; no other ticket
   and nothing else changes; and one event tells the tickets of the match all decisions recorded on them.
   */
  lemma AcceptEffect(x: AcceptInput, s: Service)
    requires Fit(s)
    ensures var r := AcceptMatch(x, s);
            if r.outcome.Fail? then r.svc == s && r.batch == []
            else
              && x.ticketID in s.tickets && x.ticketID in r.svc.tickets
              && var t, u := s.tickets[x.ticketID], r.svc.tickets[x.ticketID];
                 var rosters := s.TrackerOf(t.config).byMatch;
                 var ids := if t.matchID in rosters then rosters[t.matchID] else [x.ticketID];
                 && r.svc.tickets == s.tickets[x.ticketID := t.(playerAcceptances := u.playerAcceptances)]
                 && Updated(t.playerAcceptances, u.playerAcceptances, x.playerIDs, x.accepted)
                 && IndicesSame(s, r.svc) && RestSame(s, r.svc)
                 && r.batch == [AcceptanceRecorded(t.matchID, ids, MergedAcceptances(r.svc, ids))]
  {
    hide AcceptMatch;
    var e := AcceptCases(x, s);
    if AcceptMatch(x, s).outcome.Pass? {
      AcceptBatch(x, s);
      var t := s.tickets[x.ticketID];
      var u := Decided(x, s);
      RecordedIs(t, x.playerIDs, x.accepted);
      hide Dedupe, MergedAcceptances, TicketState.RecordPlayerAcceptances;
      ResavedEffect(s, u, x.ticketID);
      hide Service.Save;
      TrackerThere(s.Save(u), u.config);
    }
  }

  lemma TrackerThere(s: Service, c: ConfigurationName)
    ensures var r := s.WithTracker(c); r.tickets == s.tickets && IndicesSame(s, r) && RestSame(s, r)
  {
  }

  lemma AcceptBatch(x: AcceptInput, s: Service)
    requires Fit(s) && AcceptMatch(x, s).outcome.Pass?
    ensures var r, t := AcceptMatch(x, s), s.tickets[x.ticketID];
            var rosters := r.svc.TrackerOf(t.config).byMatch;
            var ids := if t.matchID in rosters then rosters[t.matchID] else [x.ticketID];
            r.batch == [AcceptanceRecorded(t.matchID, ids, MergedAcceptances(r.svc, ids))]
  {
    hide Dedupe, MergedAcceptances, TicketState.RecordPlayerAcceptances, TicketState.ValidatePlayerAcceptances, Service.Save,
         FirstError;
  }

  // ----- StartMatchBackfill

  /** The ticket is a request for the same game session that has not ended. */
  predicate Outstanding(x: BackfillInput, s: Service, id: TicketID) {
    && x.gameSessionARN != "" && id in s.tickets && s.tickets[id].config == x.start.config
    && s.tickets[id].isBackfill && s.tickets[id].gameSessionARN == x.gameSessionARN
    && s.tickets[id].status in {Queued, Searching, RequiresAcceptance, Placing}
  }

  /** It can be replaced only while it waits for a match. */
  predicate Replaceable(s: Service, id: TicketID)
    requires id in s.tickets
  {
    s.tickets[id].status in {Queued, Searching}
  }

  ghost predicate OnlyReplaceable(x: BackfillInput, s: Service) {
    forall id | Outstanding(x, s, id) :: Replaceable(s, id)
  }

  lemma PriorIs(x: BackfillInput, s: Service) returns (prior: Option<TicketState>)
    requires Fit(s) && OneBackfillPerSession(s)
    ensures prior == if x.gameSessionARN == "" then None else FindSessionBackfill(s, x.start.config, x.gameSessionARN)
    ensures prior.Some? ==> prior.value.id in s.tickets && s.tickets[prior.value.id] == prior.value
                            && forall id :: Outstanding(x, s, id) <==> id == prior.value.id
    ensures prior.None? ==> forall id :: !Outstanding(x, s, id)
  {
    hide FindSessionBackfill;
    prior := if x.gameSessionARN == "" then None else FindSessionBackfill(s, x.start.config, x.gameSessionARN);
    if x.gameSessionARN != "" {
      FindSessionBackfillFinds(s, x.start.config, x.gameSessionARN);
      if prior.Some? {
        forall id ensures Outstanding(x, s, id) <==> id == prior.value.id {
          if Outstanding(x, s, id) { assert Rivals(s, id, prior.value.id); }
        }
      }
    }
  }

  /** The ticket a backfill request asks for. */
  function BackfillTicket(x: BackfillInput): TicketState {
    TicketState(RequestedID(x.start), x.start.config, x.start.players, true, x.gameSessionARN, x.start.now, Queued, "", "", 0, "",
                false, SeatedTeams(x.start.players), map[], [], [])
  }

  lemma PlanIs(x: BackfillInput, s: Service)
    requires Fit(s) && OneBackfillPerSession(s)
    ensures var plan, asked := PlanBackfill(x, s), x.start.players != [] && !x.start.refused;
            var t := BackfillTicket(x);
            && (plan.Replace? <==> asked && OnlyReplaceable(x, s) && UsableID(x.start))
            && (x.start.players == [] ==> plan == Decline(InvalidCommand))
            && (x.start.players != [] && x.start.refused ==> plan == Decline(Refused))
            && (asked && !OnlyReplaceable(x, s) ==> plan == Decline(BackfillInProgress))
            && (asked && OnlyReplaceable(x, s) && !UsableID(x.start) ==> plan == Decline(InvalidRequest))
            && (plan.Replace? ==>
                  && plan.ticket == t.(events := [SearchingStarted(t.id)])
                  && (plan.prior.None? ==> forall id :: !Outstanding(x, s, id))
                  && (plan.prior.Some? ==> plan.prior.value.id in s.tickets && s.tickets[plan.prior.value.id] == plan.prior.value
                                           && Pooled(plan.prior.value.status)
                                           && forall id :: Outstanding(x, s, id) <==> id == plan.prior.value.id))
  {
    hide FindSessionBackfill, SeatedTeams, UsableID, ChosenID, OneBackfillPerSession, Fit, NewBackfillTicketState;
    var prior := PriorIs(x, s);
    ChosenIs(x.start);
    if prior.Some? { assert Outstanding(x, s, prior.value.id); }
    if UsableID(x.start) && x.start.players != [] { NewTicketIs(x); }
  }

  lemma NewTicketIs(x: BackfillInput)
    requires RequestedID(x.start) != "" && x.start.players != []
    ensures var t := BackfillTicket(x);
            NewBackfillTicketState(RequestedID(x.start), x.start.config, x.start.players, x.gameSessionARN, x.start.now)
            == Some(t.(events := [SearchingStarted(t.id)]))
  {
    hide SeatedTeams, RequestedID;
  }

  /** The request is in order, its id is free, and the engine has taken the new ticket. */
  ghost predicate Taken(x: BackfillInput, s: Service) {
    && x.start.players != [] && !x.start.refused && OnlyReplaceable(x, s) && UsableID(x.start)
    && FreeID(s, RequestedID(x.start)) && x.start.enqueue.Enqueued?
  }

  /**
   It succeeds exactly if the request is in order, an outstanding request for the same session still waits for a match,
   the id is usable and free, the engine enqueues the ticket, and it cancels the outstanding one; and it says which of
   these failed first. A request that requires acceptance or is being placed is never replaced.
   */
  lemma BackfillOutcome(x: BackfillInput, s: Service)
    requires Fit(s) && OneBackfillPerSession(s)
    ensures var r, e := StartMatchBackfill(x, s).outcome, x.start.enqueue;
            var asked := x.start.players != [] && !x.start.refused;
            var planned := asked && OnlyReplaceable(x, s) && UsableID(x.start);
            var free := FreeID(s, RequestedID(x.start));
            var refused := x.cancelPrior.Fault? && exists id :: Outstanding(x, s, id);
            && (r.Pass? <==> Taken(x, s) && !refused)
            && (x.start.players == [] ==> r == Fail(InvalidCommand))
            && (x.start.players != [] && x.start.refused ==> r == Fail(Refused))
            && (asked && !OnlyReplaceable(x, s) ==> r == Fail(BackfillInProgress))
            && (asked && OnlyReplaceable(x, s) && !UsableID(x.start) ==> r == Fail(InvalidRequest))
            && (planned && !free ==> r == Fail(TicketAlreadyExists))
            && (planned && free && e.DuplicateTicket? ==> r == Fail(TicketAlreadyExists))
            && (planned && free && e.InvalidTicket? ==> r == Fail(InvalidRequest))
            && (planned && free && e.EnqueueFault? ==> r == Fail(EngineFault))
            && (Taken(x, s) && refused ==> r == Fail(EngineFault))
  {
    PlanIs(x, s);
    var plan := PlanBackfill(x, s);
    hide PlanBackfill, ReplaceBackfill, UsableID, OnlyReplaceable, Outstanding, BackfillTicket;
    assert BackfillTicket(x).id == RequestedID(x.start) by { BackfillTicketID(x); }
    if Taken(x, s) {
      ReplaceOutcome(x, s.Reserve(plan.ticket.id), plan.ticket, plan.prior);
      assert plan.prior.Some? <==> exists id :: Outstanding(x, s, id) by {
        if plan.prior.Some? { assert Outstanding(x, s, plan.prior.value.id); }
      }
    }
  }

  lemma BackfillTicketID(x: BackfillInput)
    ensures BackfillTicket(x).id == RequestedID(x.start) && BackfillTicket(x).config == x.start.config
    ensures BackfillTicket(x).status.Queued?
  {
  }

  lemma ReplaceOutcome(x: BackfillInput, s: Service, t: TicketState, prior: Option<TicketState>)
    requires prior.Some? ==> Pooled(prior.value.status)
    ensures ReplaceBackfill(x, s, t, prior).outcome == if prior.Some? && x.cancelPrior.Fault? then Fail(EngineFault) else Pass
  {
    hide Service.Save, Service.Put, Service.Commit;
  }

  // ----- what a backfill request changes

  /** The players are seated on the teams they were listed with, the last mention of a player counting. */
  lemma {:induction false} SeatsMean(players: seq<Player>)
    ensures forall p :: p in SeatedTeams(players) <==> exists i :: 0 <= i < |players| && players[i].id == p
    ensures forall i | 0 <= i < |players| && (forall j | i < j < |players| :: players[j].id != players[i].id) ::
              players[i].id in SeatedTeams(players) && SeatedTeams(players)[players[i].id] == players[i].team
  {
    if players != [] {
      var n := |players| - 1;
      SeatsMean(players[..n]);
      forall p ensures p in SeatedTeams(players) <==> exists i :: 0 <= i < |players| && players[i].id == p {
        if p in SeatedTeams(players[..n]) {
          var i :| 0 <= i < n && players[..n][i].id == p;
          assert players[i].id == p;
        }
        if i :| 0 <= i < |players| && players[i].id == p && i != n { assert players[..n][i].id == p; }
      }
      forall i | 0 <= i < |players| && (forall j | i < j < |players| :: players[j].id != players[i].id)
        ensures players[i].id in SeatedTeams(players) && SeatedTeams(players)[players[i].id] == players[i].team {
        if i < n { assert players[..n][i] == players[i]; }
      }
    }
  }

  /** The metrics captured for the outstanding request, if there are any. */
  function Captured(x: BackfillInput, t: TicketState): seq<RuleMetric> {
    match x.priorMetrics
    case Some(metrics) => metrics
    case None => t.ruleMetrics
  }

  /** The replaced request: cancelled, with the reason the client is told. */
  function Superseded(x: BackfillInput, t: TicketState): TicketState {
    t.(status := Cancelled, endTime := x.start.now, statusReason := "Cancelled",
       statusMessage := "Superseded by a newer backfill request for the same game session", ruleMetrics := Captured(x, t))
  }

  function SupersededEvent(x: BackfillInput, t: TicketState): Event {
    MatchmakingCancelled(t.id, t.matchID, "Cancelled", "Superseded by a newer backfill request for the same game session",
                         Captured(x, t))
  }

  lemma SupersedeIs(x: BackfillInput, s: Service, t: TicketState)
    requires Pooled(t.status) && t.events == []
    ensures SupersedeBackfill(x, s, t)
         == if x.cancelPrior.Fault? then Result(s.Put(t.(ruleMetrics := Captured(x, t))), [], Fail(EngineFault))
            else Result(s.Save(Superseded(x, t)), [SupersededEvent(x, t)], Pass)
  {
    hide Service.Save, Service.Put, TicketState.MarkCancelled, TicketState.SetRuleMetrics, TicketState.Drained, Superseded,
         SupersededEvent, Captured;
    CapturedIs(x, t);
    CancelledIs(x, t);
  }

  lemma CapturedIs(x: BackfillInput, t: TicketState)
    ensures (if x.priorMetrics.Some? then t.SetRuleMetrics(x.priorMetrics.value) else t) == t.(ruleMetrics := Captured(x, t))
  {
    assert t.(ruleMetrics := t.ruleMetrics) == t;
  }

  lemma CancelledIs(x: BackfillInput, t: TicketState)
    requires Pooled(t.status) && t.events == []
    ensures var r := t.(ruleMetrics := Captured(x, t)).MarkCancelled(SupersededMessage, x.start.now);
            r.Some? && r.value.Drained() == Superseded(x, t) && r.value.events == [SupersededEvent(x, t)]
  {
    hide Captured;
  }

  /** What the store holds after a successful request: the new ticket, and the outstanding one ended. */
  ghost predicate Replaced(x: BackfillInput, s: Service, r: Result, prior: TicketID)
    requires prior in s.tickets
  {
    var t, u, c := s.tickets[prior], BackfillTicket(x), x.start.config;
    && r.batch == [SupersededEvent(x, t), SearchingStarted(u.id)]
    && r.svc.tickets == s.tickets[prior := Superseded(x, t)][u.id := u]
    && (forall d :: r.svc.ByConfig(d) == if d == c then s.ByConfig(d) + {u.id} else s.ByConfig(d))
    && (forall d :: r.svc.Active(d) == if d == c then s.Active(d) - {prior} + {u.id} else s.Active(d))
    && RestSame(s, r.svc)
  }

  ghost predicate Added(x: BackfillInput, s: Service, r: Result) {
    var u := BackfillTicket(x);
    && r.batch == [SearchingStarted(u.id)] && r.svc.tickets == s.tickets[u.id := u]
    && Indexed(s, r.svc, x.start.config, u.id) && RestSame(s, r.svc)
  }

  /** The engine did not cancel the outstanding request: its metrics stay, and maybe the reservation of the new id. */
  ghost predicate HalfUndone(x: BackfillInput, s: Service, r: Result, prior: TicketID)
    requires prior in s.tickets
  {
    var t := s.tickets[prior];
    && r.batch == []
    && r.svc == s.(tickets := s.tickets[prior := t.(ruleMetrics := Captured(x, t))],
                   reserved := if x.cancelNew.Fault? || x.evictNew.Fault? then s.reserved + {RequestedID(x.start)}
                               else s.reserved)
  }

  /**
   A successful request registers exactly the ticket it asks for, with the players and seats of the request, and ends the
   outstanding one of the session, if there is one; nothing else changes. A failing one changes nothing, except where the
   engine took the new ticket and did not cancel the outstanding one.
   */
  lemma BackfillEffect(x: BackfillInput, s: Service)
    requires Fit(s) && OneBackfillPerSession(s)
    ensures var r := StartMatchBackfill(x, s);
            if r.outcome.Pass? then
              && ((forall id :: !Outstanding(x, s, id)) ==> Added(x, s, r))
              && (forall prior | Outstanding(x, s, prior) :: Replaced(x, s, r, prior))
            else if Taken(x, s) then
              exists prior :: Outstanding(x, s, prior) && HalfUndone(x, s, r, prior)
            else r.batch == [] && r.svc == s
  {
    PlanIs(x, s);
    BackfillOutcome(x, s);
    var plan := PlanBackfill(x, s);
    BackfillTicketID(x);
    hide PlanBackfill, ReplaceBackfill, UsableID, OnlyReplaceable, Outstanding, BackfillTicket, OneBackfillPerSession, Added,
         Replaced, HalfUndone;
    if Taken(x, s) {
      var r := ReplaceBackfill(x, s.Reserve(plan.ticket.id), plan.ticket, plan.prior);
      assert StartMatchBackfill(x, s) == r;
      hide StartMatchBackfill;
      if plan.prior.None? {
        AddedOf(x, s, plan.ticket);
      } else {
        OutstandingIs(x, s, plan.prior.value.id);
        ReplacedOf(x, s, plan.ticket, plan.prior.value.id);
      }
    } else {
      DeclinedOf(x, s);
    }
  }

  lemma OutstandingIs(x: BackfillInput, s: Service, id: TicketID)
    requires Fit(s) && Outstanding(x, s, id)
    ensures id in s.tickets && s.tickets[id].config == x.start.config && s.tickets[id].id == id && s.tickets[id].events == []
  {
  }

  lemma DeclinedOf(x: BackfillInput, s: Service)
    requires !Taken(x, s) && Fit(s) && OneBackfillPerSession(s)
    ensures StartMatchBackfill(x, s).batch == [] && StartMatchBackfill(x, s).svc == s
  {
    PlanIs(x, s);
    BackfillTicketID(x);
    var plan := PlanBackfill(x, s);
    hide PlanBackfill, ReplaceBackfill, UsableID, OnlyReplaceable, Outstanding, BackfillTicket, OneBackfillPerSession;
    if plan.Replace? && FreeID(s, plan.ticket.id) {
      assert s.Reserve(plan.ticket.id).CancelReservation(plan.ticket.id) == s;
    }
  }

  lemma AddedOf(x: BackfillInput, s: Service, t: TicketState)
    requires t == BackfillTicket(x).(events := [SearchingStarted(BackfillTicket(x).id)]) && FreeID(s, t.id)
    ensures Added(x, s, ReplaceBackfill(x, s.Reserve(t.id), t, None))
  {
    var u := BackfillTicket(x);
    BackfillTicketID(x);
    assert t.Drained() == u;
    hide BackfillTicket;
    assert s.Reserve(u.id).Commit(u) == s.Commit(u);
    CommitEffect(s, u);
    hide Service.Commit;
  }

  lemma ReplacedOf(x: BackfillInput, s: Service, t: TicketState, prior: TicketID)
    requires Fit(s) && t == BackfillTicket(x).(events := [SearchingStarted(BackfillTicket(x).id)]) && FreeID(s, t.id)
    requires prior in s.tickets && s.tickets[prior].config == x.start.config && Pooled(s.tickets[prior].status)
    ensures var r := ReplaceBackfill(x, s.Reserve(t.id), t, Some(s.tickets[prior]));
            if x.cancelPrior.Fault? then HalfUndone(x, s, r, prior) else Replaced(x, s, r, prior)
  {
    var u, p := BackfillTicket(x), s.tickets[prior];
    BackfillTicketID(x);
    assert t.Drained() == u && p.id == prior && p.events == [];
    assert prior in s.ByConfig(x.start.config) by { assert s.Indexed(x.start.config, prior); }
    hide BackfillTicket, Fit;
    SupersedeIs(x, s.Reserve(u.id), p);
    hide SupersedeBackfill;
    if x.cancelPrior.Fault? {
      assert s.reserved + {u.id} - {u.id} == s.reserved;
    } else {
      var v := Superseded(x, p);
      assert v.id == prior && v.config == x.start.config && v.status.Cancelled? && u.status.Queued?;
      hide Superseded, SupersededEvent;
      SavedThenCommitted(s, v, u);
      hide Service.Save, Service.Commit;
    }
  }

  lemma SavedThenCommitted(s: Service, v: TicketState, u: TicketState)
    requires FreeID(s, u.id) && v.id in s.tickets && v.config == u.config && v.status.Cancelled? && u.status.Queued?
    requires v.id in s.ByConfig(v.config)
    ensures var r := s.Reserve(u.id).Save(v).Commit(u);
            && r.tickets == s.tickets[v.id := v][u.id := u] && RestSame(s, r)
            && (forall d :: r.ByConfig(d) == if d == u.config then s.ByConfig(d) + {u.id} else s.ByConfig(d))
            && (forall d :: r.Active(d) == if d == u.config then s.Active(d) - {v.id} + {u.id} else s.Active(d))
  {
  }
}
