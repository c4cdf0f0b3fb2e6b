/** The four client commands under the engine contract: each keeps the invariant. */
module ProtocolCommands {
  import opened Wrappers
  import opened Domain
  import opened RosterKey
  import opened ProposalTracking
  import opened ServiceState
  import opened Tick
  import opened Commands
  import opened Runs
  import opened AnyEngine
  import opened AnyRun
  import opened Traces
  import opened EngineContract
  import opened Protocol
  import opened ProtocolSettle
  import opened ProtocolFinalize
  import opened ProtocolSync

  // ----- from a finished command to the next session

  ghost predicate BornOk(w: World) {
    && w.born.Keys <= w.svc.tickets.Keys
    && (forall id <- w.svc.tickets :: id in w.born && w.born[id] <= |w.log|)
  }

  /** The store `s` is that of `w`, except that ended tickets may have been evicted. */
  ghost predicate Carried(w: Work, s: Service) {
    && (forall id <- s.tickets :: id in w.svc.tickets && s.tickets[id] == w.svc.tickets[id])
    && (forall id <- w.svc.tickets :: id !in s.tickets ==> w.svc.tickets[id].Terminal())
    && (forall d :: s.TrackerOf(d) == w.svc.TrackerOf(d))
  }

  lemma CarriedSince(g: Session, w: Work, s: Service, now: Time, g2: Session, id: TicketID)
    requires BornOk(g.world) && g2.world == g.world.After(s, w.batch, now) && id in s.tickets
    ensures g2.world.Since(id) == g.world.Since(id) + w.batch
  {
    var l := g.world.log;
    if id in g.world.svc.tickets {
      assert (l + w.batch)[g.world.born[id]..] == l[g.world.born[id]..] + w.batch;
    } else {
      assert (l + w.batch)[|l|..] == w.batch;
    }
  }

  lemma CarriedTicket(g: Session, w: Work, s: Service, now: Time, g2: Session, id: TicketID)
    requires Carried(w, s) && BornOk(g.world) && g2.world == g.world.After(s, w.batch, now)
    requires id in s.tickets && id in w.svc.tickets && TicketRel(g, w, id)
    ensures TicketRel(g2, Work(s, [], false), id)
  {
    hide TicketOk, Walk, StatusPhase;
    CarriedSince(g, w, s, now, g2, id);
    hide BornOk, World.After, World.Since;
    NamedAppend(g.world.Since(id), w.batch, id);
    NamedNothing(id);
    hide Named;
    assert Trace(g2, Work(s, [], false), id) == Trace(g, w, id);
    assert s.TrackerOf(s.tickets[id].config) == w.svc.TrackerOf(s.tickets[id].config);
  }

  lemma CarriedMatch(g: Session, w: Work, s: Service, now: Time, g2: Session, m: MatchID)
    requires g2.world == g.world.After(s, w.batch, now)
    ensures MatchTrace(g2, Work(s, [], false), m) == MatchTrace(g, w, m)
  {
    AboutAppend(g.world.log, w.batch, m);
    assert AboutMatch([], m) == [];
  }

  lemma CarriedRoster(g: Session, w: Work, s: Service, now: Time, g2: Session, used: set<MatchID>,
                      c: ConfigurationName, m: MatchID)
    requires Carried(w, s) && g2.world == g.world.After(s, w.batch, now) && Tracked(w.svc, c, m)
    requires RosterRel(w.svc, c, m) && OpenRel(g, w, used, c, m)
    ensures Tracked(s, c, m) && RosterRel(s, c, m) && OpenRel(g2, Work(s, [], false), used, c, m)
  {
    assert s.TrackerOf(c) == w.svc.TrackerOf(c);
    CarriedMatch(g, w, s, now, g2, m);
    var ids := Roster(w.svc, c, m);
    hide MatchWalk, MatchTrace;
    forall id <- ids ensures InRoster(s, c, m, id) && s.tickets[id] == w.svc.tickets[id] {
      assert InRoster(w.svc, c, m, id);
      assert id in w.svc.tickets && !w.svc.tickets[id].Terminal();
    }
    MergedFrom(w.svc, s, ids);
  }

  lemma CarriedMid(g: Session, w: Work, s: Service, now: Time, g2: Session, used: set<MatchID>)
    requires Mid(g, w, used) && Carried(w, s) && BornOk(g.world) && g2.world == g.world.After(s, w.batch, now)
    ensures Mid(g2, Work(s, [], false), used)
  {
    hide TicketRel, RosterRel, OpenRel, MatchTrace, MatchWalk, BornOk;
    forall id <- s.tickets ensures TicketRel(g2, Work(s, [], false), id) {
      CarriedTicket(g, w, s, now, g2, id);
    }
    forall c ensures s.TrackerOf(c).Coherent() {
      assert s.TrackerOf(c) == w.svc.TrackerOf(c) && w.svc.TrackerOf(c).Coherent();
    }
    forall c, m | Tracked(s, c, m) ensures RosterRel(s, c, m) && OpenRel(g2, Work(s, [], false), used, c, m) {
      assert s.TrackerOf(c) == w.svc.TrackerOf(c) && Tracked(w.svc, c, m);
      CarriedRoster(g, w, s, now, g2, used, c, m);
    }
    forall m ensures MatchRel(g2, Work(s, [], false), used, m) {
      CarriedMatch(g, w, s, now, g2, m);
      assert MatchRel(g, w, used, m);
    }
  }

  lemma SoundBorn(g: Session)
    requires Inv(g) && Sound(g.world)
    ensures BornOk(g.world)
  {
    hide Mid, Mirrors, EngineKnows, OneBackfillPerSession, StateSound;
    forall id <- g.world.svc.tickets ensures id in g.world.born && g.world.born[id] <= |g.world.log| {
      assert TicketSound(g.world, id);
    }
  }

  // ----- a new ticket

  /** From `w` to `v` the fresh ticket `t` was registered and announced as searching. */
  ghost predicate Registered(g: Session, w: Work, v: Work, t: TicketState) {
    && t.id !in w.svc.tickets && PlainID(t.id) && Fresh(t)
    && g.world.Since(t.id) == [] && Named(w.batch, t.id) == []
    && v.svc.tickets == w.svc.tickets[t.id := t] && (forall d :: v.svc.TrackerOf(d) == w.svc.TrackerOf(d))
    && v.batch == w.batch + [SearchingStarted(t.id)]
  }

  lemma RegisteredTicket(g: Session, w: Work, v: Work, t: TicketState, id: TicketID)
    requires Registered(g, w, v, t) && id in v.svc.tickets && (id in w.svc.tickets ==> TicketRel(g, w, id))
    ensures TicketRel(g, v, id)
  {
    hide Named, Walk, Fresh, TicketOk;
    NamedOne(w.batch, SearchingStarted(t.id), id);
    if id == t.id {
      NamedNothing(id);
      assert Trace(g, v, id) == [] + [SearchingStarted(id)];
      FirstEvent(id);
      hide Trace;
      FreshOk(t);
    } else {
      assert Trace(g, v, id) == Trace(g, w, id);
      hide Trace;
      assert v.svc.TrackerOf(v.svc.tickets[id].config) == w.svc.TrackerOf(v.svc.tickets[id].config);
    }
  }

  lemma FirstEvent(id: TicketID)
    ensures Walk(Unborn, [] + [SearchingStarted(id)]) == Waiting
  {
    WalkOne(Unborn, [], SearchingStarted(id));
  }

  lemma FreshOk(t: TicketState)
    requires Fresh(t) && PlainID(t.id)
    ensures TicketOk(t, t.id) && StatusPhase(t) == Waiting && !t.status.RequiresAcceptance?
  {
    hide SeatedTeams;
  }

  lemma NamedNothing(id: TicketID)
    ensures Named([], id) == []
  {
  }

  lemma RegisteredRoster(g: Session, w: Work, v: Work, t: TicketState, used: set<MatchID>, c: ConfigurationName,
                         m: MatchID)
    requires Registered(g, w, v, t) && Tracked(w.svc, c, m) && RosterRel(w.svc, c, m) && OpenRel(g, w, used, c, m)
    ensures Tracked(v.svc, c, m) && RosterRel(v.svc, c, m) && OpenRel(g, v, used, c, m)
  {
    hide MatchWalk, AboutMatch, Fresh, Named, MergedAcceptances;
    assert v.svc.TrackerOf(c) == w.svc.TrackerOf(c);
    AboutOne(w.batch, SearchingStarted(t.id), m);
    assert MatchTrace(g, v, m) == MatchTrace(g, w, m);
    var ids := Roster(w.svc, c, m);
    forall id <- ids
      ensures InRoster(v.svc, c, m, id) && id in w.svc.tickets && v.svc.tickets[id] == w.svc.tickets[id] {
      assert InRoster(w.svc, c, m, id);
    }
    hide Registered, MatchTrace;
    MergedFrom(w.svc, v.svc, ids);
  }

  lemma RegisteredMid(g: Session, w: Work, v: Work, t: TicketState, used: set<MatchID>)
    requires Mid(g, w, used) && Registered(g, w, v, t)
    ensures Mid(g, v, used)
  {
    hide TicketRel, RosterRel, OpenRel, AboutMatch, MatchWalk, Fresh, Named;
    forall id <- v.svc.tickets ensures TicketRel(g, v, id) {
      RegisteredTicket(g, w, v, t, id);
    }
    forall c ensures v.svc.TrackerOf(c).Coherent() {
      assert v.svc.TrackerOf(c) == w.svc.TrackerOf(c) && w.svc.TrackerOf(c).Coherent();
    }
    forall c, m | Tracked(v.svc, c, m) ensures RosterRel(v.svc, c, m) && OpenRel(g, v, used, c, m) {
      assert v.svc.TrackerOf(c) == w.svc.TrackerOf(c) && Tracked(w.svc, c, m);
      RegisteredRoster(g, w, v, t, used, c, m);
    }
    forall m ensures MatchRel(g, v, used, m) {
      AboutOne(w.batch, SearchingStarted(t.id), m);
      assert MatchRel(g, w, used, m);
    }
  }

  // ----- a change the protocol does not see

  /** The tickets differ at most in the cancel intent and the rule metrics. */
  predicate AlmostSame(t: TicketState, u: TicketState) {
    u == t.(cancelByAPI := u.cancelByAPI, ruleMetrics := u.ruleMetrics)
  }

  ghost predicate Unseen(w: Work, v: Work) {
    && v.svc.tickets.Keys == w.svc.tickets.Keys && v.batch == w.batch
    && (forall id <- w.svc.tickets :: AlmostSame(w.svc.tickets[id], v.svc.tickets[id]))
    && (forall d :: v.svc.TrackerOf(d) == w.svc.TrackerOf(d))
  }

  lemma UnseenTicket(g: Session, w: Work, v: Work, id: TicketID)
    requires Unseen(w, v) && id in w.svc.tickets && TicketRel(g, w, id)
    ensures TicketRel(g, v, id)
  {
    hide Walk, Named, SeatedTeams;
    assert AlmostSame(w.svc.tickets[id], v.svc.tickets[id]);
    assert v.svc.TrackerOf(v.svc.tickets[id].config) == w.svc.TrackerOf(v.svc.tickets[id].config);
    assert Trace(g, v, id) == Trace(g, w, id);
    hide Trace;
  }

  lemma UnseenMid(g: Session, w: Work, v: Work, used: set<MatchID>)
    requires Mid(g, w, used) && Unseen(w, v)
    ensures Mid(g, v, used)
  {
    hide TicketRel, RosterRel, OpenRel, MatchWalk, AboutMatch;
    forall id <- v.svc.tickets ensures TicketRel(g, v, id) {
      UnseenTicket(g, w, v, id);
    }
    forall c ensures v.svc.TrackerOf(c).Coherent() {
      assert v.svc.TrackerOf(c) == w.svc.TrackerOf(c) && w.svc.TrackerOf(c).Coherent();
    }
    hide Tracker.Coherent;
    forall c, m | Tracked(v.svc, c, m) ensures RosterRel(v.svc, c, m) && OpenRel(g, v, used, c, m) {
      assert v.svc.TrackerOf(c) == w.svc.TrackerOf(c) && Tracked(w.svc, c, m);
      UnseenRoster(g, w, v, used, c, m);
    }
    forall m ensures MatchRel(g, v, used, m) {
      assert MatchRel(g, w, used, m);
    }
  }

  lemma UnseenRoster(g: Session, w: Work, v: Work, used: set<MatchID>, c: ConfigurationName, m: MatchID)
    requires Unseen(w, v) && Tracked(w.svc, c, m) && RosterRel(w.svc, c, m) && OpenRel(g, w, used, c, m)
    ensures Tracked(v.svc, c, m) && RosterRel(v.svc, c, m) && OpenRel(g, v, used, c, m)
  {
    assert v.svc.TrackerOf(c) == w.svc.TrackerOf(c);
    var ids := Roster(w.svc, c, m);
    hide MatchWalk, AboutMatch;
    forall id <- ids
      ensures InRoster(v.svc, c, m, id) && id in w.svc.tickets && AlmostSame(w.svc.tickets[id], v.svc.tickets[id]) {
      assert InRoster(w.svc, c, m, id);
    }
    MergedFrom(w.svc, v.svc, ids);
  }

  // ----- a decision

  /** What a successful AcceptMatch does: it records the players' decisions and reports those of the whole match. */
  lemma AcceptReport(x: AcceptInput, s: Service)
    requires AcceptMatch(x, s).outcome.Pass?
    ensures x.ticketID in s.tickets
    ensures var r, t, u := AcceptMatch(x, s), s.tickets[x.ticketID], AnyRun.Decided(x, s);
            var ids := match s.TrackerOf(t.config).TicketsFor(t.matchID) case Some(ids) => ids case None => [t.id];
            && t.status.RequiresAcceptance? && Dedupe(x.playerIDs) != []
            && (forall p <- Dedupe(x.playerIDs) :: p in PlayerIDs(t.players))
            && r.svc == s.Save(u).WithTracker(t.config)
            && r.batch == [AcceptanceRecorded(t.matchID, ids, MergedAcceptances(r.svc, ids))]
  {
    hide Key, MergedAcceptances, Dedupe, FirstError, PlayerIDs;
  }

  lemma {:induction false} MergedGrows(s: Service, r: Service, ids: seq<TicketID>)
    requires forall id <- ids :: id in s.tickets && id in r.tickets
               && s.tickets[id].playerAcceptances.Keys <= r.tickets[id].playerAcceptances.Keys
    ensures MergedAcceptances(s, ids).Keys <= MergedAcceptances(r, ids).Keys
  {
    if ids != [] {
      assert ids[|ids| - 1] in ids;
      MergedGrows(s, r, ids[..|ids| - 1]);
    }
  }

  /** From `w` to `v` decisions were recorded on one ticket of the tracked match `m` and reported for its roster. */
  ghost predicate Recorded(w: Work, v: Work, id: TicketID, players: seq<PlayerID>, accepted: bool) {
    && id in w.svc.tickets && w.svc.tickets[id].status.RequiresAcceptance?
    && (forall p <- players :: p in PlayerIDs(w.svc.tickets[id].players))
    && v.svc.tickets == w.svc.tickets[id := w.svc.tickets[id].RecordPlayerAcceptances(players, accepted)]
    && (forall d :: v.svc.TrackerOf(d) == w.svc.TrackerOf(d))
    && var t := w.svc.tickets[id];
       && Tracked(w.svc, t.config, t.matchID) && id in Roster(w.svc, t.config, t.matchID)
       && w.batch == []
       && var ids := Roster(w.svc, t.config, t.matchID);
          v.batch == [AcceptanceRecorded(t.matchID, ids, MergedAcceptances(v.svc, ids))]
  }

  lemma RecordedEvents(w: Work, v: Work, id: TicketID, players: seq<PlayerID>, accepted: bool)
    requires Recorded(w, v, id, players, accepted)
    ensures var t := w.svc.tickets[id];
            var ids := Roster(w.svc, t.config, t.matchID);
            && (forall k :: Named(v.batch, k) == if k in ids then v.batch else [])
            && (forall k :: AboutMatch(v.batch, k) == if k == t.matchID then v.batch else [])
  {
    var t := w.svc.tickets[id];
    var ids := Roster(w.svc, t.config, t.matchID);
    var e := v.batch[0];
    assert v.batch == [] + [e];
    hide MergedAcceptances;
    forall k ensures Named(v.batch, k) == if k in ids then v.batch else [] { NamedOne([], e, k); }
    forall k ensures AboutMatch(v.batch, k) == if k == t.matchID then v.batch else [] { AboutOne([], e, k); }
  }

  lemma RecordedTicket(g: Session, w: Work, v: Work, id: TicketID, players: seq<PlayerID>, accepted: bool, k: TicketID)
    requires Recorded(w, v, id, players, accepted)
    requires var t := w.svc.tickets[id]; k in w.svc.tickets && InRoster(w.svc, t.config, t.matchID, k) && TicketRel(g, w, k)
    requires var t := w.svc.tickets[id]; k in Roster(w.svc, t.config, t.matchID)
    ensures k in v.svc.tickets && TicketRel(g, v, k)
    ensures InRoster(v.svc, w.svc.tickets[id].config, w.svc.tickets[id].matchID, k)
    ensures v.svc.tickets[k].players == w.svc.tickets[k].players
    ensures w.svc.tickets[k].playerAcceptances.Keys <= v.svc.tickets[k].playerAcceptances.Keys
  {
    var t := w.svc.tickets[id];
    RecordedEvents(w, v, id, players, accepted);
    hide Named, AboutMatch, MergedAcceptances, SeatedTeams;
    assert Named(w.batch, k) == [] by { NamedNothing(k); }
    assert Trace(g, v, k) == Trace(g, w, k) + [v.batch[0]];
    WalkOne(Unborn, Trace(g, w, k), v.batch[0]);
    hide Walk, Trace;
    assert v.svc.TrackerOf(t.config) == w.svc.TrackerOf(t.config);
  }

  lemma RecordedMatch(g: Session, w: Work, v: Work, used: set<MatchID>, id: TicketID, players: seq<PlayerID>,
                      accepted: bool)
    requires Recorded(w, v, id, players, accepted)
    requires var t := w.svc.tickets[id];
             var ids := Roster(w.svc, t.config, t.matchID);
             && OpenRel(g, w, used, t.config, t.matchID) && MatchRel(g, w, used, t.matchID)
             && (forall k <- ids :: k in w.svc.tickets && k in v.svc.tickets
                   && w.svc.tickets[k].playerAcceptances.Keys <= v.svc.tickets[k].playerAcceptances.Keys)
    ensures var t := w.svc.tickets[id];
            MatchRel(g, v, used, t.matchID) && Tracked(v.svc, t.config, t.matchID) && OpenRel(g, v, used, t.config, t.matchID)
  {
    var t := w.svc.tickets[id];
    var m, ids := t.matchID, Roster(w.svc, t.config, t.matchID);
    RecordedEvents(w, v, id, players, accepted);
    MergedGrows(w.svc, v.svc, ids);
    assert AboutMatch(w.batch, m) == [];
    hide Named, AboutMatch, MergedAcceptances, TicketState.RecordPlayerAcceptances;
    assert MatchTrace(g, v, m) == MatchTrace(g, w, m) + [v.batch[0]];
    MatchWalkOne(Unused, MatchTrace(g, w, m), v.batch[0]);
    hide MatchTrace, MatchWalk;
    assert v.svc.TrackerOf(t.config) == w.svc.TrackerOf(t.config);
  }

  lemma RecordedRoster(g: Session, w: Work, v: Work, used: set<MatchID>, id: TicketID, players: seq<PlayerID>,
                       accepted: bool)
    requires Mid(g, w, used) && Recorded(w, v, id, players, accepted)
    ensures var t := w.svc.tickets[id];
            && Tracked(v.svc, t.config, t.matchID) && Roster(v.svc, t.config, t.matchID) == Roster(w.svc, t.config, t.matchID)
            && RosterRel(v.svc, t.config, t.matchID)
            && (forall k <- Roster(w.svc, t.config, t.matchID) :: k in v.svc.tickets && TicketRel(g, v, k))
            && (forall k <- Roster(w.svc, t.config, t.matchID) :: k in w.svc.tickets && k in v.svc.tickets
                  && w.svc.tickets[k].playerAcceptances.Keys <= v.svc.tickets[k].playerAcceptances.Keys)
  {
    hide TicketRel, RosterRel, MergedAcceptances, TicketState.RecordPlayerAcceptances, InRoster, Mid, PlayerIDs;
    var t := w.svc.tickets[id];
    var c, m := t.config, t.matchID;
    var ids := Roster(w.svc, c, m);
    RosterRelated(g, w, used, c, m);
    assert v.svc.TrackerOf(c) == w.svc.TrackerOf(c);
    forall k <- ids
      ensures k in v.svc.tickets && k in w.svc.tickets && TicketRel(g, v, k) && InRoster(v.svc, c, m, k)
      ensures v.svc.tickets[k].players == w.svc.tickets[k].players
      ensures w.svc.tickets[k].playerAcceptances.Keys <= v.svc.tickets[k].playerAcceptances.Keys
    {
      RecordedTicket(g, w, v, id, players, accepted, k);
    }
    hide Recorded;
    SameRoster(w.svc, v.svc, c, m);
  }

  lemma RosterRelated(g: Session, w: Work, used: set<MatchID>, c: ConfigurationName, m: MatchID)
    requires Mid(g, w, used) && Tracked(w.svc, c, m)
    ensures RosterRel(w.svc, c, m)
    ensures forall k <- Roster(w.svc, c, m) :: InRoster(w.svc, c, m, k) && k in w.svc.tickets && TicketRel(g, w, k)
  {
    hide TicketRel, OpenRel, MatchRel;
    assert RosterRel(w.svc, c, m);
    forall k <- Roster(w.svc, c, m) ensures InRoster(w.svc, c, m, k) && k in w.svc.tickets && TicketRel(g, w, k) {
      assert InRoster(w.svc, c, m, k);
    }
  }

  lemma SameRoster(s: Service, r: Service, c: ConfigurationName, m: MatchID)
    requires r.TrackerOf(c) == s.TrackerOf(c) && Tracked(s, c, m) && RosterRel(s, c, m)
    requires forall k <- Roster(s, c, m) :: k in s.tickets && InRoster(r, c, m, k) && k in r.tickets
               && r.tickets[k].players == s.tickets[k].players
    ensures Tracked(r, c, m) && RosterRel(r, c, m)
  {
  }

  lemma RecordedMid(g: Session, w: Work, v: Work, used: set<MatchID>, id: TicketID, players: seq<PlayerID>,
                    accepted: bool)
    requires Mid(g, w, used) && Recorded(w, v, id, players, accepted)
    ensures Mid(g, v, used)
  {
    var t := w.svc.tickets[id];
    var c, m := t.config, t.matchID;
    var ids := Roster(w.svc, c, m);
    hide TicketRel, OpenRel, MatchRel, MergedAcceptances, Tracker.Coherent, RosterRel,
         TicketState.RecordPlayerAcceptances, Touches;
    RecordedTouches(g, w, v, used, id, players, accepted);
    RecordedRoster(g, w, v, used, id, players, accepted);
    assert OpenRel(g, w, used, c, m) && MatchRel(g, w, used, m);
    RecordedMatch(g, w, v, used, id, players, accepted);
    assert v.svc.TrackerOf(c) == w.svc.TrackerOf(c) && w.svc.TrackerOf(c).Coherent();
    forall d | d != c ensures !Tracked(v.svc, d, m) {
      assert v.svc.TrackerOf(d) == w.svc.TrackerOf(d);
      if Tracked(w.svc, d, m) { TrackedOnce(g, w, used, c, d, m); }
    }
    hide Recorded, Mid;
    StepMid(g, w, v, used, used, c, IDSet(ids), m);
  }

  lemma NothingAbout(id: TicketID, m: MatchID)
    ensures Named([], id) == [] && AboutMatch([], m) == []
  {
  }

  lemma RecordedTouches(g: Session, w: Work, v: Work, used: set<MatchID>, id: TicketID, players: seq<PlayerID>,
                        accepted: bool)
    requires Mid(g, w, used) && Recorded(w, v, id, players, accepted)
    ensures var t := w.svc.tickets[id]; Touches(w, v, t.config, IDSet(Roster(w.svc, t.config, t.matchID)), t.matchID)
  {
    hide Named, AboutMatch, MergedAcceptances, TicketState.RecordPlayerAcceptances, Mid;
    var t := w.svc.tickets[id];
    RecordedEvents(w, v, id, players, accepted);
    RosterAlone(g, w, used, t.config, t.matchID);
    forall k ensures Named(w.batch, k) == [] { NothingAbout(k, ""); }
    forall j ensures AboutMatch(w.batch, j) == [] { NothingAbout("", j); }
    assert v.svc.TrackerOf(t.config) == w.svc.TrackerOf(t.config);
  }
}
