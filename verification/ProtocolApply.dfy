/** The third pass under the engine contract: tracking the proposals the engine newly reports as pending. */
module ProtocolApply {
  import opened Wrappers
  import opened Domain
  import opened RosterKey
  import opened ProposalTracking
  import opened ServiceState
  import opened Tick
  import opened Commands
  import opened Runs
  import opened AnyEngine
  import opened Traces
  import opened EngineContract
  import opened Protocol
  import opened ProtocolSettle
  import opened ProtocolFinalize

  // ----- the tickets of one proposal

  predicate Assignable(t: TicketState, id: TicketID) {
    t.id == id && t.events == [] && Pooled(t.status)
  }

  /** The ticket of a new proposal. */
  function Assigned(t: TicketState, m: MatchID, teams: map<PlayerID, string>): TicketState {
    t.(status := RequiresAcceptance, matchID := m, statusReason := "", playerTeams := t.playerTeams + TeamsOf(t.players, teams))
  }

  lemma AssignTicketExact(w: Work, m: MatchID, teams: map<PlayerID, string>, id: TicketID)
    requires !w.failed && id in w.svc.tickets && Assignable(w.svc.tickets[id], id)
    ensures AssignTicket(w, m, teams, id) == w.(svc := w.svc.Save(Assigned(w.svc.tickets[id], m, teams)))
    ensures Assigned(w.svc.tickets[id], m, teams).id == id
  {
    hide TeamsOf;
  }

  /** `v` differs from `w` only in that the listed tickets are assigned to the proposal. */
  ghost predicate AllAssigned(w: Work, v: Work, m: MatchID, teams: map<PlayerID, string>, ids: seq<TicketID>) {
    && !v.failed && v.batch == w.batch && v.svc.trackers == w.svc.trackers && v.svc.tickets.Keys == w.svc.tickets.Keys
    && (forall id <- ids :: id in w.svc.tickets && v.svc.tickets[id] == Assigned(w.svc.tickets[id], m, teams))
    && (forall k <- w.svc.tickets | k !in ids :: v.svc.tickets[k] == w.svc.tickets[k])
  }

  lemma {:induction false} AssignTicketsExact(w: Work, m: MatchID, teams: map<PlayerID, string>, ids: seq<TicketID>)
    requires !w.failed && NoDuplicates(ids)
    requires forall id <- ids :: id in w.svc.tickets && Assignable(w.svc.tickets[id], id)
    ensures AllAssigned(w, AssignTickets(w, m, teams, ids), m, teams, ids)
    decreases |ids|
  {
    if ids != [] {
      var id := ids[0];
      assert id in ids;
      AssignTicketExact(w, m, teams, id);
      var w1 := AssignTicket(w, m, teams, id);
      hide AssignTicket, Assigned, Service.SyncIndex;
      assert w1.svc.tickets == w.svc.tickets[id := Assigned(w.svc.tickets[id], m, teams)];
      assert w1.svc.trackers == w.svc.trackers;
      hide Assignable, Service.Save;
      forall k <- ids[1..] ensures k in w1.svc.tickets && Assignable(w1.svc.tickets[k], k) {
        assert k in ids && k != id;
      }
      AssignTicketsExact(w1, m, teams, ids[1..]);
      AssignedFirst(w, w1, AssignTickets(w1, m, teams, ids[1..]), m, teams, ids);
    }
  }

  lemma AssignedFirst(w: Work, w1: Work, v: Work, m: MatchID, teams: map<PlayerID, string>, ids: seq<TicketID>)
    requires ids != [] && NoDuplicates(ids) && ids[0] in w.svc.tickets
    requires w1.svc.tickets == w.svc.tickets[ids[0] := Assigned(w.svc.tickets[ids[0]], m, teams)]
    requires w1.batch == w.batch && w1.svc.trackers == w.svc.trackers
    requires AllAssigned(w1, v, m, teams, ids[1..])
    ensures AllAssigned(w, v, m, teams, ids)
  {
    hide Assigned;
    assert ids[0] !in ids[1..];
    forall id <- ids ensures id in w.svc.tickets && v.svc.tickets[id] == Assigned(w.svc.tickets[id], m, teams) {
      if id == ids[0] {
        assert v.svc.tickets[id] == w1.svc.tickets[id];
      } else {
        assert id in ids[1..];
      }
    }
  }

  // ----- one proposal

  function Proposing(p: Proposal): Event {
    PotentialMatchCreated(p.newID, p.ticketIDs, p.metrics)
  }

  /** Everything a new proposal does to one of its tickets. */
  predicate Joined(w: Work, v: Work, p: Proposal, id: TicketID) {
    && id in w.svc.tickets && id in v.svc.tickets
    && v.svc.tickets[id] == Assigned(w.svc.tickets[id], p.newID, p.teams)
    && Named(v.batch, id) == Named(w.batch, id) + [Proposing(p)]
  }

  /** A new proposal takes its tickets out of the pool, is tracked and announced; nothing else changes. */
  lemma ApplyNewExact(x: TickInput, w: Work, p: Proposal)
    requires !w.failed && NoDuplicates(p.ticketIDs) && w.svc.TrackerOf(x.config).Known(p.ticketIDs).None?
    requires forall id <- p.ticketIDs :: id in w.svc.tickets && Assignable(w.svc.tickets[id], id)
    ensures var v := ApplyProposal(x, w, p);
            && !v.failed && v.svc.tickets.Keys == w.svc.tickets.Keys
            && (forall id <- p.ticketIDs :: Joined(w, v, p, id))
            && (forall id <- w.svc.tickets | id !in p.ticketIDs :: Untouched(w, v, id))
            && (forall j | j != p.newID :: AboutMatch(v.batch, j) == AboutMatch(w.batch, j))
            && AboutMatch(v.batch, p.newID) == AboutMatch(w.batch, p.newID) + [Proposing(p)]
            && v.svc.TrackerOf(x.config) == w.svc.TrackerOf(x.config).AssignAt(p.ticketIDs, p.newID, p.createdAt)
            && (forall d | d != x.config :: v.svc.TrackerOf(d) == w.svc.TrackerOf(d))
  {
    hide Key, Assigned, Tracker.AssignAt, AssignTickets, Named, AboutMatch;
    var w1 := w.(svc := w.svc.SetTracker(x.config, w.svc.TrackerOf(x.config).AssignAt(p.ticketIDs, p.newID, p.createdAt)));
    assert w1.svc.tickets == w.svc.tickets && w1.batch == w.batch && !w1.failed;
    hide Assignable;
    AssignTicketsExact(w1, p.newID, p.teams, p.ticketIDs);
    var w2 := AssignTickets(w1, p.newID, p.teams, p.ticketIDs);
    var e := Proposing(p);
    assert ApplyProposal(x, w, p) == w2.Add(e);
    hide ApplyProposal;
    assert forall d :: w2.svc.TrackerOf(d) == w1.svc.TrackerOf(d);
    forall id
      ensures Named(w.batch + [e], id) == if id in p.ticketIDs then Named(w.batch, id) + [e] else Named(w.batch, id) {
      NamedOne(w.batch, e, id);
    }
    forall j
      ensures AboutMatch(w.batch + [e], j) == if j == p.newID then AboutMatch(w.batch, j) + [e] else AboutMatch(w.batch, j) {
      AboutOne(w.batch, e, j);
    }
  }

  /** The proposal is tracked already. */
  predicate TrackedAs(x: TickInput, s: Service, p: Proposal, m: MatchID) {
    Tracked(s, x.config, m) && SameProposal(s, x.config, m, p)
  }

  /** A pending proposal has a good roster, and is tracked already or has all its tickets in the pool. */
  ghost predicate Appliable(x: TickInput, s: Service, used: set<MatchID>, p: Proposal) {
    && p.ticketIDs != [] && NoDuplicates(p.ticketIDs)
    && p.createdAt != 0 && p.newID != "" && p.newID !in used
    && (forall id <- p.ticketIDs :: id in s.tickets && s.tickets[id].config == x.config)
    && ((exists m :: TrackedAs(x, s, p, m)) || forall id <- p.ticketIDs :: Pooled(s.tickets[id].status))
  }

  /** A proposal that is tracked with the same roster and creation time is left alone. */
  lemma ApplyKnown(g: Session, x: TickInput, w: Work, used: set<MatchID>, p: Proposal, m: MatchID)
    requires Mid(g, w, used) && TrackedAs(x, w.svc, p, m)
    ensures ApplyProposal(x, w, p) == w
  {
    KnownRoster(g, w, used, x.config, m, p.ticketIDs);
    hide Mid, Key;
  }

  /** A roster of waiting tickets is not tracked. */
  lemma PooledUnknown(g: Session, w: Work, used: set<MatchID>, c: ConfigurationName, ids: seq<TicketID>)
    requires Mid(g, w, used) && ids != []
    requires forall id <- ids :: id in w.svc.tickets && Pooled(w.svc.tickets[id].status)
    ensures w.svc.TrackerOf(c).Known(ids).None?
  {
    hide Key, OpenRel, MatchRel, RosterRel;
    forall id <- ids ensures PlainID(id) { assert TicketRel(g, w, id); }
    if w.svc.TrackerOf(c).Known(ids).Some? {
      KnownMeans(g, w, used, c, ids);
      var m := w.svc.TrackerOf(c).Known(ids).value;
      MidRoster(g, w, used, c, m);
      PooledNotTracked(w.svc, c, m, ids);
    }
  }

  lemma PooledNotTracked(s: Service, c: ConfigurationName, m: MatchID, ids: seq<TicketID>)
    requires Tracked(s, c, m) && RosterRel(s, c, m) && ids != []
    requires forall id <- ids :: id in s.tickets && Pooled(s.tickets[id].status)
    ensures multiset(Roster(s, c, m)) != multiset(ids)
  {
    assert ids[0] in ids;
    assert ids[0] in Roster(s, c, m) ==> InRoster(s, c, m, ids[0]);
    assert ids[0] !in multiset(Roster(s, c, m)) && ids[0] in multiset(ids);
  }

  // ----- the invariant

  lemma JoinedTicketRel(g: Session, w: Work, v: Work, c: ConfigurationName, p: Proposal, id: TicketID)
    requires Joined(w, v, p, id) && TicketRel(g, w, id) && Pooled(w.svc.tickets[id].status)
    requires w.svc.tickets[id].config == c && Tracked(v.svc, c, p.newID) && id in Roster(v.svc, c, p.newID)
    ensures TicketRel(g, v, id) && v.svc.tickets[id].playerAcceptances == map[]
    ensures InRoster(v.svc, c, p.newID, id)
    ensures v.svc.tickets[id].players == w.svc.tickets[id].players
  {
    hide Named;
    assert Trace(g, v, id) == Trace(g, w, id) + [Proposing(p)];
    WalkOne(Unborn, Trace(g, w, id), Proposing(p));
    hide Walk, Trace, TeamsOf, SeatedTeams;
  }

  lemma NewMatchRel(g: Session, w: Work, v: Work, used: set<MatchID>, c: ConfigurationName, p: Proposal)
    requires MatchRel(g, w, used, p.newID) && p.newID !in used
    requires AboutMatch(v.batch, p.newID) == AboutMatch(w.batch, p.newID) + [Proposing(p)]
    requires Tracked(v.svc, c, p.newID) && Roster(v.svc, c, p.newID) == p.ticketIDs
    requires forall id <- p.ticketIDs :: id in v.svc.tickets ==> v.svc.tickets[id].playerAcceptances == map[]
    ensures MatchRel(g, v, used + {p.newID}, p.newID) && OpenRel(g, v, used + {p.newID}, c, p.newID)
  {
    hide AboutMatch;
    assert MatchTrace(g, w, p.newID) == [];
    assert MatchTrace(g, v, p.newID) == [] + [Proposing(p)];
    MatchWalkOne(Unused, [], Proposing(p));
    MergedEmpty(v.svc, p.ticketIDs);
  }

  lemma NewTouches(w: Work, v: Work, x: TickInput, p: Proposal)
    requires Alone(x, w.svc, p.ticketIDs, p.newID) && !Tracked(w.svc, x.config, p.newID)
    requires w.svc.TrackerOf(x.config).Coherent() && w.svc.TrackerOf(x.config).Known(p.ticketIDs).None?
    requires v.svc.tickets.Keys == w.svc.tickets.Keys
    requires forall id <- w.svc.tickets | id !in p.ticketIDs :: Untouched(w, v, id)
    requires forall j | j != p.newID :: AboutMatch(v.batch, j) == AboutMatch(w.batch, j)
    requires v.svc.TrackerOf(x.config) == w.svc.TrackerOf(x.config).AssignAt(p.ticketIDs, p.newID, p.createdAt)
    requires forall d | d != x.config :: v.svc.TrackerOf(d) == w.svc.TrackerOf(d)
    ensures Touches(w, v, x.config, IDSet(p.ticketIDs), p.newID)
    ensures v.svc.TrackerOf(x.config).Coherent() && forall d | d != x.config :: !Tracked(v.svc, d, p.newID)
  {
    w.svc.TrackerOf(x.config).AssignKeepsCoherent(p.ticketIDs, p.newID, p.createdAt);
    hide Key, Named, AboutMatch, Tracker.Coherent;
    forall id <- w.svc.tickets | id !in p.ticketIDs
      ensures v.svc.tickets[id] == w.svc.tickets[id] && Named(v.batch, id) == Named(w.batch, id) {
      assert Untouched(w, v, id);
    }
    forall d | d != x.config ensures !Tracked(v.svc, d, p.newID) {
      assert !Tracked(w.svc, d, p.newID) && v.svc.TrackerOf(d) == w.svc.TrackerOf(d);
    }
  }

  /** No tracked roster has one of the waiting tickets, and the fresh id is tracked nowhere. */
  lemma PooledAlone(g: Session, x: TickInput, w: Work, used: set<MatchID>, ids: seq<TicketID>, k: MatchID)
    requires Mid(g, w, used) && k !in used
    requires forall id <- ids :: id in w.svc.tickets && w.svc.tickets[id].config == x.config && Pooled(w.svc.tickets[id].status)
    ensures Alone(x, w.svc, ids, k) && forall d :: !Tracked(w.svc, d, k)
  {
    hide TicketRel, MatchRel;
    forall d ensures !Tracked(w.svc, d, k) {
      assert Tracked(w.svc, d, k) ==> OpenRel(g, w, used, d, k);
    }
    forall j | Tracked(w.svc, x.config, j) ensures forall id <- Roster(w.svc, x.config, j) :: id !in ids {
      assert RosterRel(w.svc, x.config, j);
      forall id <- Roster(w.svc, x.config, j) ensures id !in ids {
        assert InRoster(w.svc, x.config, j, id);
      }
    }
  }

  lemma ApplyNewMid(g: Session, x: TickInput, w: Work, used: set<MatchID>, p: Proposal)
    requires TickMid(g, x, w, used) && Appliable(x, w.svc, used, p)
    requires forall id <- p.ticketIDs :: Pooled(w.svc.tickets[id].status)
    ensures var v := ApplyProposal(x, w, p);
            && TickMid(g, x, v, used + {p.newID})
            && v.svc.TrackerOf(x.config) == w.svc.TrackerOf(x.config).AssignAt(p.ticketIDs, p.newID, p.createdAt)
            && (forall id <- w.svc.tickets | id !in p.ticketIDs :: Untouched(w, v, id))
            && (forall d :: !Tracked(w.svc, d, p.newID))
  {
    var v := ApplyProposal(x, w, p);
    hide ApplyProposal, Key, Named, AboutMatch, Grew, Mid, Assignable, TicketRel, Appliable, EndedInTick;
    ApplyOneGrew(g, x, w, used, p);
    NewReady(g, x, w, used, p);
    ApplyNewExact(x, w, p);
    NewTouches(w, v, x, p);
    hide Tracker.Coherent, Alone, RosterRel, MatchRel, OpenRel;
    NewRelations(g, x, w, v, used, p);
    StepMid(g, w, v, used, used + {p.newID}, x.config, IDSet(p.ticketIDs), p.newID);
    hide Touches;
    forall id <- v.svc.tickets ensures EndedInTick(g, x, v, id) {
      NewEnded(g, x, w, v, p, id);
    }
  }

  lemma NewEnded(g: Session, x: TickInput, w: Work, v: Work, p: Proposal, id: TicketID)
    requires id in v.svc.tickets && id in w.svc.tickets && EndedInTick(g, x, w, id)
    requires if id in p.ticketIDs then Joined(w, v, p, id) else Untouched(w, v, id)
    ensures EndedInTick(g, x, v, id)
  {
  }

  lemma NewReady(g: Session, x: TickInput, w: Work, used: set<MatchID>, p: Proposal)
    requires TickMid(g, x, w, used) && Appliable(x, w.svc, used, p)
    requires forall id <- p.ticketIDs :: Pooled(w.svc.tickets[id].status)
    ensures !w.failed && NoDuplicates(p.ticketIDs)
    ensures w.svc.TrackerOf(x.config).Coherent() && w.svc.TrackerOf(x.config).Known(p.ticketIDs).None?
    ensures forall id <- p.ticketIDs :: id in w.svc.tickets && Assignable(w.svc.tickets[id], id)
    ensures Alone(x, w.svc, p.ticketIDs, p.newID) && forall d :: !Tracked(w.svc, d, p.newID)
  {
    hide Key, Named, Grew, RosterRel, OpenRel, MatchRel;
    forall id <- p.ticketIDs ensures id in w.svc.tickets && Assignable(w.svc.tickets[id], id) {
      DuringTick(g, x, w, used, id);
    }
    PooledUnknown(g, w, used, x.config, p.ticketIDs);
    PooledAlone(g, x, w, used, p.ticketIDs, p.newID);
  }

  lemma ApplyOneGrew(g: Session, x: TickInput, w: Work, used: set<MatchID>, p: Proposal)
    requires TickMid(g, x, w, used)
    ensures Grew(Work(g.world.svc, [], false), ApplyProposal(x, w, p), x.now)
  {
    ApplyGrew(x, w, [p]);
    var v := ApplyProposal(x, w, p);
    assert Apply(x, w, [p]) == v by {
      assert [p][1..] == [];
      assert Apply(x, v, []) == v;
    }
    hide ApplyProposal, Apply, Mid, Fit, Advanced;
    GrewTransitive(Work(g.world.svc, [], false), w, v, x.now);
  }

  lemma NewRelations(g: Session, x: TickInput, w: Work, v: Work, used: set<MatchID>, p: Proposal)
    requires Mid(g, w, used) && Appliable(x, w.svc, used, p)
    requires forall id <- p.ticketIDs :: Pooled(w.svc.tickets[id].status) && Joined(w, v, p, id)
    requires v.svc.TrackerOf(x.config) == w.svc.TrackerOf(x.config).AssignAt(p.ticketIDs, p.newID, p.createdAt)
    requires AboutMatch(v.batch, p.newID) == AboutMatch(w.batch, p.newID) + [Proposing(p)]
    ensures forall id <- p.ticketIDs :: id in v.svc.tickets && TicketRel(g, v, id)
    ensures Tracked(v.svc, x.config, p.newID) && RosterRel(v.svc, x.config, p.newID)
    ensures MatchRel(g, v, used + {p.newID}, p.newID) && OpenRel(g, v, used + {p.newID}, x.config, p.newID)
  {
    var k, c := p.newID, x.config;
    hide Key, Named, AboutMatch, TicketRel, RosterRel, MatchRel, OpenRel, Assigned;
    assert MatchRel(g, w, used, k);
    forall id <- p.ticketIDs
      ensures id in v.svc.tickets && TicketRel(g, v, id) && v.svc.tickets[id].playerAcceptances == map[]
      ensures InRoster(v.svc, c, k, id) && v.svc.tickets[id].players == w.svc.tickets[id].players
    {
      assert TicketRel(g, w, id);
      JoinedTicketRel(g, w, v, c, p, id);
    }
    hide Mid;
    NewMatchRel(g, w, v, used, c, p);
    NewRosterRel(x, w, v, used, p);
  }

  lemma NewRosterRel(x: TickInput, w: Work, v: Work, used: set<MatchID>, p: Proposal)
    requires Appliable(x, w.svc, used, p)
    requires v.svc.TrackerOf(x.config) == w.svc.TrackerOf(x.config).AssignAt(p.ticketIDs, p.newID, p.createdAt)
    requires forall id <- p.ticketIDs :: InRoster(v.svc, x.config, p.newID, id)
               && v.svc.tickets[id].players == w.svc.tickets[id].players
    ensures RosterRel(v.svc, x.config, p.newID)
  {
    hide Key;
    assert Roster(v.svc, x.config, p.newID) == p.ticketIDs;
  }

  // ----- the whole pass

  /** The rosters share no ticket, and each proposal would be given another id. */
  ghost predicate ProposalsApart(pending: seq<Proposal>) {
    forall i, j | 0 <= i < j < |pending| ::
      Apart(pending[i].ticketIDs, pending[j].ticketIDs) && pending[i].newID != pending[j].newID
  }

  function ProposalNewIDs(pending: seq<Proposal>): set<MatchID> {
    set p <- pending :: p.newID
  }

  lemma AppliableLater(x: TickInput, s: Service, r: Service, used: set<MatchID>, first: Proposal, p: Proposal)
    requires Appliable(x, s, used, p) && Apart(first.ticketIDs, p.ticketIDs) && first.newID != p.newID
    requires Within(r.TrackerOf(x.config), s.TrackerOf(x.config))
    requires forall id <- s.tickets | id !in first.ticketIDs :: id in r.tickets && r.tickets[id] == s.tickets[id]
    ensures Appliable(x, r, used + {first.newID}, p)
  {
    if m :| TrackedAs(x, s, p, m) {
      assert TrackedAs(x, r, p, m);
    }
  }

  /** After one proposal: it is tracked, and what was tracked before still is. */
  ghost predicate AddedTo(x: TickInput, s: Service, r: Service, p: Proposal) {
    && Within(r.TrackerOf(x.config), s.TrackerOf(x.config))
    && (exists m :: TrackedAs(x, r, p, m))
    && (forall m | Tracked(r, x.config, m) :: Tracked(s, x.config, m) || TrackedAs(x, r, p, m))
  }

  lemma ApplyOneMid(g: Session, x: TickInput, w: Work, used: set<MatchID>, p: Proposal)
    requires TickMid(g, x, w, used) && Appliable(x, w.svc, used, p)
    ensures var v := ApplyProposal(x, w, p);
            && TickMid(g, x, v, used + {p.newID}) && AddedTo(x, w.svc, v.svc, p)
            && (forall id <- w.svc.tickets | id !in p.ticketIDs :: Untouched(w, v, id))
  {
    hide ApplyProposal, Key, Mid, Grew, EndedInTick, Named;
    if m :| TrackedAs(x, w.svc, p, m) {
      ApplyKnown(g, x, w, used, p, m);
      UsedMore(g, w, used, used + {p.newID});
    } else {
      hide TickMid;
      ApplyNewMid(g, x, w, used, p);
      var v := ApplyProposal(x, w, p);
      assert !Tracked(w.svc, x.config, p.newID);
      assert TrackedAs(x, v.svc, p, p.newID);
      forall m | Tracked(v.svc, x.config, m) ensures Tracked(w.svc, x.config, m) || TrackedAs(x, v.svc, p, m) {
        assert m == p.newID || Tracked(w.svc, x.config, m);
      }
    }
  }

  lemma ApplyFirst(g: Session, x: TickInput, w: Work, used: set<MatchID>, pending: seq<Proposal>)
    requires pending != [] && TickMid(g, x, w, used) && ProposalsApart(pending)
    requires forall p <- pending :: Appliable(x, w.svc, used, p)
    ensures var w1 := ApplyProposal(x, w, pending[0]);
            && Apply(x, w, pending) == Apply(x, w1, pending[1..])
            && TickMid(g, x, w1, used + {pending[0].newID})
            && (forall p <- pending[1..] :: Appliable(x, w1.svc, used + {pending[0].newID}, p))
            && AddedTo(x, w.svc, w1.svc, pending[0])
  {
    hide ApplyProposal, Appliable, Key, Mid, Grew, EndedInTick;
    var first := pending[0];
    var w1 := ApplyProposal(x, w, first);
    assert first in pending;
    assert Apply(x, w, pending) == Apply(x, w1, pending[1..]);
    hide TickMid, Apply;
    ApplyOneMid(g, x, w, used, first);
    hide Within, Named;
    forall p <- pending[1..] ensures Appliable(x, w1.svc, used + {first.newID}, p) {
      var j :| 1 <= j < |pending| && pending[j] == p;
      AppliableLater(x, w.svc, w1.svc, used, first, pending[j]);
    }
  }

  /** Every listed proposal is tracked, and nothing is tracked that was not before and is not listed. */
  ghost predicate Covers(x: TickInput, s: Service, r: Service, pending: seq<Proposal>) {
    && Within(r.TrackerOf(x.config), s.TrackerOf(x.config))
    && (forall p <- pending :: exists m :: TrackedAs(x, r, p, m))
    && (forall m | Tracked(r, x.config, m) :: Tracked(s, x.config, m) || exists p <- pending :: TrackedAs(x, r, p, m))
  }

  lemma CoversRest(x: TickInput, s: Service, r: Service, q: Service, pending: seq<Proposal>)
    requires pending != [] && AddedTo(x, s, r, pending[0]) && Covers(x, r, q, pending[1..])
    ensures Covers(x, s, q, pending)
  {
    forall p <- pending ensures exists m :: TrackedAs(x, q, p, m) {
      if p == pending[0] {
        var m :| TrackedAs(x, r, p, m);
        assert TrackedAs(x, q, p, m);
      } else {
        assert p in pending[1..];
      }
    }
    forall m | Tracked(q, x.config, m)
      ensures Tracked(s, x.config, m) || exists p <- pending :: TrackedAs(x, q, p, m)
    {
      if Tracked(r, x.config, m) {
        if !Tracked(s, x.config, m) {
          assert TrackedAs(x, r, pending[0], m);
          assert pending[0] in pending && TrackedAs(x, q, pending[0], m);
        }
      } else {
        var p :| p in pending[1..] && TrackedAs(x, q, p, m);
        assert p in pending;
      }
    }
  }

  lemma ProposalNewIDsFirst(pending: seq<Proposal>, used: set<MatchID>)
    requires pending != []
    ensures used + {pending[0].newID} + ProposalNewIDs(pending[1..]) == used + ProposalNewIDs(pending)
  {
    forall m ensures m in ProposalNewIDs(pending) <==> m == pending[0].newID || m in ProposalNewIDs(pending[1..]) {
      if m in ProposalNewIDs(pending) {
        var p :| p in pending && p.newID == m;
        assert p == pending[0] || p in pending[1..];
      }
      if m in ProposalNewIDs(pending[1..]) {
        var p :| p in pending[1..] && p.newID == m;
        assert p in pending;
      }
    }
  }

  /** The pass tracks exactly the listed proposals beside those tracked before, and keeps the invariant. */
  lemma {:induction false} ApplyMid(g: Session, x: TickInput, w: Work, used: set<MatchID>, pending: seq<Proposal>)
    requires TickMid(g, x, w, used) && ProposalsApart(pending)
    requires forall p <- pending :: Appliable(x, w.svc, used, p)
    ensures var v := Apply(x, w, pending);
            TickMid(g, x, v, used + ProposalNewIDs(pending)) && Covers(x, w.svc, v.svc, pending)
    decreases |pending|
  {
    if pending == [] {
      hide TickMid;
      assert used + ProposalNewIDs(pending) == used;
    } else {
      hide ApplyProposal, Apply, Appliable, TickMid, ProposalNewIDs, AddedTo, Covers;
      var w1 := ApplyProposal(x, w, pending[0]);
      ApplyFirst(g, x, w, used, pending);
      ApplyMid(g, x, w1, used + {pending[0].newID}, pending[1..]);
      ProposalNewIDsFirst(pending, used);
      CoversRest(x, w.svc, w1.svc, Apply(x, w1, pending[1..]).svc, pending);
    }
  }
}
