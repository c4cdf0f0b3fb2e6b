/**
 The invariant of contract runs, stated for a command in progress: `g` is the session before the command, `w` the
 service and the batch so far, and `used` the match ids handed out so far. It ties each ticket to the events that name
 it, each tracked proposal to its tickets, and each match to the events about it.
 */
module Protocol {
  import opened Wrappers
  import opened Domain
  import opened RosterKey
  import opened ProposalTracking
  import opened ServiceState
  import opened Tick
  import opened Commands
  import opened Runs
  import opened AnyEngine
  import opened Traces
  import opened EngineContract

  // ----- tickets

  /** Where a ticket's status says it stands. */
  function StatusPhase(t: TicketState): Phase {
    match t.status
    case Queued | Searching => Waiting
    case RequiresAcceptance => InMatch(t.matchID)
    case Completed | Cancelled | TimedOut => Over
    case _ => Wrong
  }

  /** The events that name a ticket since it was registered, including those still in the batch. */
  function Trace(g: Session, w: Work, id: TicketID): seq<Event> {
    Named(g.world.Since(id), id) + Named(w.batch, id)
  }

  /** A waiting ticket carries nothing of an earlier match: no id, no decisions, and only the seats it asked for. */
  predicate Clean(t: TicketState) {
    t.matchID == "" && t.playerAcceptances == map[] && t.playerTeams == t.RequestedSeats()
  }

  predicate TicketOk(t: TicketState, id: TicketID) {
    && t.id == id && PlainID(id) && !StatusPhase(t).Wrong?
    && t.playerAcceptances.Keys <= PlayerIDs(t.players)
    && (Pooled(t.status) ==> Clean(t))
  }

  predicate Tracked(s: Service, c: ConfigurationName, m: MatchID) {
    m in s.TrackerOf(c).byMatch
  }

  function Roster(s: Service, c: ConfigurationName, m: MatchID): seq<TicketID>
    requires Tracked(s, c, m)
  {
    s.TrackerOf(c).byMatch[m]
  }

  /** A ticket that requires acceptance is in the roster its match is tracked with. */
  predicate Placed(s: Service, t: TicketState) {
    t.status.RequiresAcceptance? ==> Tracked(s, t.config, t.matchID) && t.id in Roster(s, t.config, t.matchID)
  }

  predicate TicketRel(g: Session, w: Work, id: TicketID)
    requires id in w.svc.tickets
  {
    var t := w.svc.tickets[id];
    TicketOk(t, id) && Placed(w.svc, t) && Walk(Unborn, Trace(g, w, id)) == StatusPhase(t)
  }

  // ----- tracked proposals

  /** Every ticket of a tracked roster is registered, requires acceptance, and carries the match's id. */
  predicate InRoster(s: Service, c: ConfigurationName, m: MatchID, id: TicketID) {
    && id in s.tickets && s.tickets[id].config == c
    && s.tickets[id].status.RequiresAcceptance? && s.tickets[id].matchID == m
  }

  predicate RosterRel(s: Service, c: ConfigurationName, m: MatchID)
    requires Tracked(s, c, m)
  {
    var ids := Roster(s, c, m);
    && m != "" && s.TrackerOf(c).CreatedAt(m) != 0
    && ids != [] && NoDuplicates(ids)
    && (forall id <- ids :: InRoster(s, c, m, id))
  }

  // ----- matches

  function MatchTrace(g: Session, w: Work, m: MatchID): seq<Event> {
    AboutMatch(g.world.log, m) + AboutMatch(w.batch, m)
  }

  predicate MatchRel(g: Session, w: Work, used: set<MatchID>, m: MatchID) {
    && !MatchWalk(Unused, MatchTrace(g, w, m)).Broken? && !MatchWalk(Unused, MatchTrace(g, w, m)).AllAccepted?
    && (m !in used ==> MatchTrace(g, w, m) == [])
  }

  /** A tracked match is open, with the tracked roster, and its events have reported exactly the recorded decisions. */
  predicate OpenRel(g: Session, w: Work, used: set<MatchID>, c: ConfigurationName, m: MatchID)
    requires Tracked(w.svc, c, m)
  {
    var ids := Roster(w.svc, c, m);
    m in used && MatchWalk(Unused, MatchTrace(g, w, m)) == Open(ids, MergedAcceptances(w.svc, ids))
  }

  // ----- the invariant

  ghost predicate Mid(g: Session, w: Work, used: set<MatchID>) {
    && (forall id <- w.svc.tickets :: TicketRel(g, w, id))
    && (forall c :: w.svc.TrackerOf(c).Coherent())
    && (forall c, m :: Tracked(w.svc, c, m) ==> RosterRel(w.svc, c, m) && OpenRel(g, w, used, c, m))
    && (forall m :: MatchRel(g, w, used, m))
  }

  /** The engine has ended every ticket that has ended. */
  ghost predicate EngineKnows(g: Session) {
    forall id <- g.world.svc.tickets :: g.world.svc.tickets[id].Terminal() ==> g.EngineEnded(id)
  }

  predicate SameProposal(s: Service, c: ConfigurationName, m: MatchID, p: Proposal)
    requires Tracked(s, c, m)
  {
    multiset(Roster(s, c, m)) == multiset(p.ticketIDs) && s.TrackerOf(c).CreatedAt(m) == p.createdAt
  }

  /** The tracked (roster, creation time) pairs of a configuration are exactly those of the given pending proposals. */
  ghost predicate Mirrors(s: Service, c: ConfigurationName, pending: seq<Proposal>) {
    && (forall p <- pending :: exists m :: Tracked(s, c, m) && SameProposal(s, c, m, p))
    && (forall m :: Tracked(s, c, m) ==> exists p <- pending :: SameProposal(s, c, m, p))
  }

  ghost predicate Inv(g: Session) {
    && Mid(g, Work(g.world.svc, [], false), g.used)
    && EngineKnows(g)
    && (forall c :: Mirrors(g.world.svc, c, g.Pending(c)))
    && (forall c :: c !in g.acceptance ==> g.world.svc.TrackerOf(c).byMatch == map[])
    && g.world.born.Keys <= g.world.svc.tickets.Keys
  }

  // ----- the invariant during a tick

  /** A ticket that has ended had ended before the tick, was matched in it, or is reported as ended by the engine. */
  predicate EndedInTick(g: Session, x: TickInput, w: Work, id: TicketID)
    requires id in w.svc.tickets
  {
    w.svc.tickets[id].Terminal() ==>
      || (id in g.world.svc.tickets && g.world.svc.tickets[id].Terminal())
      || InMatches(x.engine, id)
      || (w.svc.tickets[id].config == x.config && id in x.engine.statusAfter && x.engine.statusAfter[id].IsTerminal())
  }

  ghost predicate TickMid(g: Session, x: TickInput, w: Work, used: set<MatchID>) {
    && !w.failed
    && Mid(g, w, used)
    && Grew(Work(g.world.svc, [], false), w, x.now)
    && forall id <- w.svc.tickets :: EndedInTick(g, x, w, id)
  }

  /** During a tick a ticket has the configuration and players it had before; an ended one has the status it had. */
  lemma DuringTick(g: Session, x: TickInput, w: Work, used: set<MatchID>, id: TicketID)
    requires TickMid(g, x, w, used) && (id in w.svc.tickets || id in g.world.svc.tickets)
    ensures id in w.svc.tickets && id in g.world.svc.tickets
    ensures Evolves(g.world.svc.tickets[id], w.svc.tickets[id], x.now)
    ensures w.svc.tickets[id].events == [] && w.svc.tickets[id].id == id
  {
    assert Advanced(Work(g.world.svc, [], false), w, x.now, id);
  }

  // ----- consequences used by every step

  /** A ticket is in at most one tracked roster: the one of its own match. */
  lemma RostersDisjoint(g: Session, w: Work, used: set<MatchID>, c: ConfigurationName, m: MatchID,
                        d: ConfigurationName, n: MatchID, id: TicketID)
    requires Mid(g, w, used) && Tracked(w.svc, c, m) && Tracked(w.svc, d, n)
    requires id in Roster(w.svc, c, m) && id in Roster(w.svc, d, n)
    ensures c == d && m == n
  {
    assert RosterRel(w.svc, c, m) && RosterRel(w.svc, d, n);
    assert InRoster(w.svc, c, m, id) && InRoster(w.svc, d, n, id);
  }

  /** A match is tracked by at most one configuration. */
  lemma TrackedOnce(g: Session, w: Work, used: set<MatchID>, c: ConfigurationName, d: ConfigurationName, m: MatchID)
    requires Mid(g, w, used) && Tracked(w.svc, c, m) && Tracked(w.svc, d, m)
    ensures c == d
  {
    assert OpenRel(g, w, used, c, m) && OpenRel(g, w, used, d, m);
    var id := Roster(w.svc, c, m)[0];
    assert RosterRel(w.svc, c, m) && id in Roster(w.svc, c, m);
    RostersDisjoint(g, w, used, c, m, d, m, id);
  }

  lemma RosterPlain(g: Session, w: Work, used: set<MatchID>, c: ConfigurationName, m: MatchID)
    requires Mid(g, w, used) && Tracked(w.svc, c, m)
    ensures Roster(w.svc, c, m) != [] && PlainIDs(Roster(w.svc, c, m))
  {
    assert RosterRel(w.svc, c, m);
    forall id <- Roster(w.svc, c, m) ensures PlainID(id) {
      assert InRoster(w.svc, c, m, id) && TicketRel(g, w, id);
    }
  }

  // ----- the decisions of a roster

  lemma {:induction false} MergedFrom(s: Service, r: Service, ids: seq<TicketID>)
    requires forall id <- ids :: (id in s.tickets <==> id in r.tickets)
               && (id in s.tickets ==> s.tickets[id].playerAcceptances == r.tickets[id].playerAcceptances)
    ensures MergedAcceptances(s, ids) == MergedAcceptances(r, ids)
  {
    if ids != [] {
      assert ids[|ids| - 1] in ids;
      MergedFrom(s, r, ids[..|ids| - 1]);
    }
  }

  lemma {:induction false} MergedEmpty(s: Service, ids: seq<TicketID>)
    requires forall id <- ids :: id in s.tickets ==> s.tickets[id].playerAcceptances == map[]
    ensures MergedAcceptances(s, ids) == map[]
  {
    if ids != [] {
      assert ids[|ids| - 1] in ids;
      MergedEmpty(s, ids[..|ids| - 1]);
    }
  }

  /** The decision of player `p` recorded on ticket `id` is the one the merged decisions report. */
  predicate Reported(s: Service, ids: seq<TicketID>, id: TicketID, p: PlayerID) {
    && id in s.tickets && p in s.tickets[id].playerAcceptances && p in MergedAcceptances(s, ids)
    && MergedAcceptances(s, ids)[p] == s.tickets[id].playerAcceptances[p]
  }

  predicate Records(s: Service, id: TicketID, p: PlayerID) {
    id in s.tickets && p in s.tickets[id].playerAcceptances
  }

  /** The `i`-th ticket is the last of the roster to record a decision of `p`, and its decision is the one reported. */
  predicate Decides(s: Service, ids: seq<TicketID>, i: int, p: PlayerID) {
    && 0 <= i < |ids| && Reported(s, ids, ids[i], p)
    && forall j | i < j < |ids| :: !Records(s, ids[j], p)
  }

  /** The merged decisions: every player with a decision on some ticket of the roster, the last such ticket's winning. */
  lemma {:induction false} MergedSource(s: Service, ids: seq<TicketID>)
    ensures forall id <- ids, p :: Records(s, id, p) ==> p in MergedAcceptances(s, ids)
    ensures forall p <- MergedAcceptances(s, ids) :: (exists i :: Decides(s, ids, i, p))
  {
    if ids != [] {
      var front, last := ids[..|ids| - 1], ids[|ids| - 1];
      assert ids == front + [last];
      MergedSource(s, front);
      forall p <- MergedAcceptances(s, ids) ensures exists i :: Decides(s, ids, i, p) {
        if Records(s, last, p) {
          assert Decides(s, ids, |ids| - 1, p);
        } else {
          assert ids[..|ids| - 1] == front && p in MergedAcceptances(s, front);
          var i :| Decides(s, front, i, p);
          assert Decides(s, ids, i, p);
        }
      }
    }
  }

  /** The `i`-th ticket records a refusal of `p`, and no later ticket of the roster records a decision of `p`. */
  predicate LastRefuses(s: Service, ids: seq<TicketID>, i: int, p: PlayerID) {
    && 0 <= i < |ids| && Records(s, ids[i], p) && !s.tickets[ids[i]].playerAcceptances[p]
    && forall j | i < j < |ids| :: !Records(s, ids[j], p)
  }

  /** The merged decisions include a refusal exactly if some recorded refusal is not overwritten by a later ticket. */
  lemma RefusalSurvives(s: Service, ids: seq<TicketID>)
    ensures SomeRefusal(MergedAcceptances(s, ids)) <==> exists i, p :: LastRefuses(s, ids, i, p)
  {
    MergedSource(s, ids);
    hide MergedAcceptances;
    if SomeRefusal(MergedAcceptances(s, ids)) {
      var p :| p in MergedAcceptances(s, ids) && !MergedAcceptances(s, ids)[p];
      var i :| Decides(s, ids, i, p);
      assert LastRefuses(s, ids, i, p);
    }
    if i, p :| LastRefuses(s, ids, i, p) {
      assert ids[i] in ids && p in MergedAcceptances(s, ids);
      var k :| Decides(s, ids, k, p);
      assert ids[k] in ids && Records(s, ids[k], p) && k == i;
    }
  }

  /** The tickets of a roster play for different players. */
  predicate PlayersApart(s: Service, ids: seq<TicketID>) {
    forall a <- ids, b <- ids :: a in s.tickets && b in s.tickets && a != b
      ==> PlayerIDs(s.tickets[a].players) !! PlayerIDs(s.tickets[b].players)
  }

  /** Where decisions only concern a ticket's own players and no two tickets share one, none is overwritten. */
  lemma MergedHasAll(s: Service, ids: seq<TicketID>)
    requires forall id <- ids :: id in s.tickets && s.tickets[id].playerAcceptances.Keys <= PlayerIDs(s.tickets[id].players)
    requires PlayersApart(s, ids)
    ensures forall id <- ids, p :: Records(s, id, p) ==> Reported(s, ids, id, p)
  {
    MergedSource(s, ids);
    hide MergedAcceptances, PlayerIDs;
    forall id <- ids, p | Records(s, id, p) ensures Reported(s, ids, id, p) {
      var i :| Decides(s, ids, i, p);
      assert ids[i] in ids && Records(s, ids[i], p);
      assert p in PlayerIDs(s.tickets[id].players) && p in PlayerIDs(s.tickets[ids[i]].players);
    }
  }

  /**
   A refusal in the merged decisions is recorded on some ticket of the roster; and one that is recorded is among them
   unless two tickets share a player.
   */
  lemma RefusalReported(s: Service, ids: seq<TicketID>)
    requires forall id <- ids :: id in s.tickets && s.tickets[id].playerAcceptances.Keys <= PlayerIDs(s.tickets[id].players)
    ensures SomeRefusal(MergedAcceptances(s, ids)) ==> SomeRejection(s, ids)
    ensures PlayersApart(s, ids) ==> (SomeRejection(s, ids) ==> SomeRefusal(MergedAcceptances(s, ids)))
  {
    MergedSource(s, ids);
    hide MergedAcceptances, PlayerIDs;
    if SomeRefusal(MergedAcceptances(s, ids)) {
      var p :| p in MergedAcceptances(s, ids) && !MergedAcceptances(s, ids)[p];
      var i :| Decides(s, ids, i, p);
      assert ids[i] in ids && Rejects(s.tickets[ids[i]]);
    }
    if PlayersApart(s, ids) && SomeRejection(s, ids) {
      MergedHasAll(s, ids);
      var id :| id in ids && id in s.tickets && Rejects(s.tickets[id]);
      var p :| p in s.tickets[id].playerAcceptances && !s.tickets[id].playerAcceptances[p];
      assert Records(s, id, p) && Reported(s, ids, id, p);
    }
  }

  // ----- one step of a command

  function IDSet(ids: seq<TicketID>): (r: set<TicketID>)
    ensures forall id :: id in r <==> id in ids
  {
    set id | id in ids
  }

  /**
   From `w` to `v` only the tickets of `roster`, all of configuration `c`, and the match `m` are concerned: other
   tickets are unchanged and unnamed by new events, and other matches are tracked and reported as before.
   */
  ghost predicate Touches(w: Work, v: Work, c: ConfigurationName, roster: set<TicketID>, m: MatchID) {
    && v.svc.tickets.Keys == w.svc.tickets.Keys
    && (forall d | d != c :: v.svc.TrackerOf(d) == w.svc.TrackerOf(d))
    && (forall id <- w.svc.tickets | id !in roster ::
          v.svc.tickets[id] == w.svc.tickets[id] && Named(v.batch, id) == Named(w.batch, id))
    && (forall id <- roster :: id in w.svc.tickets && w.svc.tickets[id].config == c)
    && (forall k | k != m :: SameMatch(w, v, c, k))
    && (forall k | k != m && Tracked(w.svc, c, k) :: forall id <- Roster(w.svc, c, k) :: id !in roster)
    && (Tracked(w.svc, c, m) ==> forall id <- Roster(w.svc, c, m) :: id in roster)
  }

  ghost predicate SameMatch(w: Work, v: Work, c: ConfigurationName, k: MatchID) {
    && AboutMatch(v.batch, k) == AboutMatch(w.batch, k)
    && v.svc.TrackerOf(c).TicketsFor(k) == w.svc.TrackerOf(c).TicketsFor(k)
    && v.svc.TrackerOf(c).CreatedAt(k) == w.svc.TrackerOf(c).CreatedAt(k)
  }

  lemma StepTickets(g: Session, w: Work, v: Work, used: set<MatchID>, c: ConfigurationName, roster: set<TicketID>,
                    m: MatchID)
    requires Mid(g, w, used) && Touches(w, v, c, roster, m)
    requires forall id <- roster :: id in v.svc.tickets && TicketRel(g, v, id)
    ensures forall id <- v.svc.tickets :: TicketRel(g, v, id)
  {
    hide TicketRel, RosterRel, OpenRel, MatchRel, SameMatch;
    forall id <- v.svc.tickets ensures TicketRel(g, v, id) {
      if id !in roster {
        assert TicketRel(g, w, id);
        StepTicket(g, w, v, c, roster, m, id);
      }
    }
  }

  lemma StepTicket(g: Session, w: Work, v: Work, c: ConfigurationName, roster: set<TicketID>, m: MatchID, id: TicketID)
    requires Touches(w, v, c, roster, m) && id in w.svc.tickets && id !in roster && TicketRel(g, w, id)
    ensures TicketRel(g, v, id)
  {
    hide Walk, Named, StatusPhase, Clean, AboutMatch;
    var t := w.svc.tickets[id];
    assert Trace(g, v, id) == Trace(g, w, id);
    hide Trace;
    if t.config == c && t.status.RequiresAcceptance? {
      assert t.matchID != m;
      assert SameMatch(w, v, c, t.matchID);
    }
  }

  lemma StepRosters(g: Session, w: Work, v: Work, used: set<MatchID>, used': set<MatchID>, c: ConfigurationName,
                    roster: set<TicketID>, m: MatchID, d: ConfigurationName, k: MatchID)
    requires Mid(g, w, used) && Touches(w, v, c, roster, m) && used <= used'
    requires Tracked(v.svc, d, k) && k != m
    ensures RosterRel(v.svc, d, k) && OpenRel(g, v, used', d, k)
  {
    assert SameMatch(w, v, c, k);
    assert Tracked(w.svc, d, k) && RosterRel(w.svc, d, k) && OpenRel(g, w, used, d, k);
    var ids := Roster(w.svc, d, k);
    forall id <- ids ensures id !in roster && id in w.svc.tickets && v.svc.tickets[id] == w.svc.tickets[id] {
      assert InRoster(w.svc, d, k, id);
    }
    MergedFrom(w.svc, v.svc, ids);
    forall id <- ids ensures InRoster(v.svc, d, k, id) {
      assert InRoster(w.svc, d, k, id);
    }
  }

  /** A step keeps the invariant if it keeps it for the tickets and the match it is about. */
  lemma StepMid(g: Session, w: Work, v: Work, used: set<MatchID>, used': set<MatchID>, c: ConfigurationName,
                roster: set<TicketID>, m: MatchID)
    requires Mid(g, w, used) && Touches(w, v, c, roster, m) && used <= used'
    requires forall id <- roster :: id in v.svc.tickets && TicketRel(g, v, id)
    requires v.svc.TrackerOf(c).Coherent() && MatchRel(g, v, used', m)
    requires forall d :: Tracked(v.svc, d, m) ==> RosterRel(v.svc, d, m) && OpenRel(g, v, used', d, m)
    ensures Mid(g, v, used')
  {
    hide TicketRel, RosterRel, OpenRel;
    StepTickets(g, w, v, used, c, roster, m);
    forall d, k | Tracked(v.svc, d, k) ensures RosterRel(v.svc, d, k) && OpenRel(g, v, used', d, k) {
      if k != m { StepRosters(g, w, v, used, used', c, roster, m, d, k); }
    }
    forall d ensures v.svc.TrackerOf(d).Coherent() {
      assert d != c ==> v.svc.TrackerOf(d) == w.svc.TrackerOf(d);
    }
    forall k ensures MatchRel(g, v, used', k) {
      if k != m {
        assert SameMatch(w, v, c, k) && MatchRel(g, w, used, k);
      }
    }
  }

  /** Handing out further ids does no harm. */
  lemma UsedMore(g: Session, w: Work, used: set<MatchID>, used': set<MatchID>)
    requires Mid(g, w, used) && used <= used'
    ensures Mid(g, w, used')
  {
    hide TicketRel, RosterRel, Tracker.Coherent;
    forall c, m | Tracked(w.svc, c, m) ensures OpenRel(g, w, used', c, m) {
      assert OpenRel(g, w, used, c, m);
    }
    forall m ensures MatchRel(g, w, used', m) {
      assert MatchRel(g, w, used, m);
    }
  }
}
