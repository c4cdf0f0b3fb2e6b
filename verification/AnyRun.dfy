/**
 What every reachable state of the service satisfies, whatever the engine answers: the indices agree with the tickets,
 an ended ticket was announced at most once, each game session has at most one outstanding backfill, and ended
 tickets are kept for the retention time and not much longer.
 */
module AnyRun {
  import opened Wrappers
  import opened Domain
  import opened RosterKey
  import opened ProposalTracking
  import opened ServiceState
  import opened Tick
  import opened Commands
  import opened Runs
  import opened AnyEngine

  // ----- what every reachable world satisfies

  /** Both are outstanding backfill requests for the same game session of the same configuration. */
  predicate Competing(t: TicketState, u: TicketState) {
    && t.config == u.config && t.gameSessionARN != ""
    && IsSessionBackfill(t, t.gameSessionARN) && IsSessionBackfill(u, t.gameSessionARN)
  }

  ghost predicate OneBackfillPerSession(s: Service) {
    forall a, b :: Rivals(s, a, b) ==> a == b
  }

  predicate Rivals(s: Service, a: TicketID, b: TicketID) {
    a in s.tickets && b in s.tickets && Competing(s.tickets[a], s.tickets[b])
  }

  /** The time the configuration was last swept, if it was. */
  function LastSweep(s: Service, c: ConfigurationName): Time {
    s.NextCleanup(c) - s.CleanupInterval()
  }

  /**
   The end time is set exactly on ended tickets; the end was announced at most once, and only of an ended ticket;
   and at the last sweep an ended ticket that is still there had not outlived its retention.
   */
  predicate StateSound(t: TicketState, since: seq<Event>, clock: Time, lastSweep: Time, retention: Time) {
    && (t.Terminal() <==> t.endTime != 0) && 0 <= t.endTime <= clock
    && Endings(since, t.id) <= Ended(t)
    && (t.Terminal() ==> lastSweep - t.endTime < retention)
  }

  predicate TicketSound(w: World, id: TicketID)
    requires id in w.svc.tickets
  {
    var t := w.svc.tickets[id];
    && id in w.born && w.born[id] < |w.log| && t.id == id
    && StateSound(t, w.Since(id), w.clock, LastSweep(w.svc, t.config), w.svc.Retention())
  }

  ghost predicate Sound(w: World) {
    && Fit(w.svc)
    && w.clock > 0
    && (forall id <- w.svc.tickets :: TicketSound(w, id))
    && (forall c :: LastSweep(w.svc, c) <= w.clock)
    && w.svc.tickets.Keys !! w.svc.reserved
    && OneBackfillPerSession(w.svc)
  }

  /**
   What became of a ticket from `w` to a later `u`: it is still there, evolved, and its end was announced only as it
   ended; or it had ended in `w` already and was evicted no earlier than its retention allows.
   */
  predicate KeptTicket(w: World, u: World, id: TicketID)
    requires id in w.svc.tickets
  {
    && w.log <= u.log
    && if id in u.svc.tickets then
         && id in w.born && id in u.born && u.born[id] == w.born[id]
         && Evolves(w.svc.tickets[id], u.svc.tickets[id], u.clock)
         && Endings(u.log[|w.log|..], id) + Ended(w.svc.tickets[id]) <= Ended(u.svc.tickets[id])
       else
         w.svc.tickets[id].Terminal() && u.clock - w.svc.tickets[id].endTime >= w.svc.Retention()
  }

  ghost predicate Kept(w: World, u: World) {
    forall id <- w.svc.tickets :: KeptTicket(w, u, id)
  }

  ghost predicate Extends(w: World, v: Work, now: Time) {
    w.clock <= now && Grew(Work(w.svc, [], false), v, now)
  }

  lemma ExtendsTicket(w: World, v: Work, now: Time, id: TicketID)
    requires 0 < w.clock <= now
    requires id in w.svc.tickets && TicketSound(w, id) && Advanced(Work(w.svc, [], false), v, now, id)
    requires v.svc.nextCleanup == w.svc.nextCleanup && v.svc.ticketRetention == w.svc.ticketRetention
    requires LastSweep(w.svc, w.svc.tickets[id].config) <= w.clock
    ensures TicketSound(w.After(v.svc, v.batch, now), id)
  {
    var u := w.After(v.svc, v.batch, now);
    assert u.born[id] == w.born[id];
    assert u.Since(id) == w.Since(id) + v.batch;
    EndingsAppend(w.Since(id), v.batch, id);
    assert Endings([], id) == 0;
    hide Endings;
    var c := w.svc.tickets[id].config;
    assert LastSweep(u.svc, c) == LastSweep(w.svc, c);
  }

  lemma ExtendsSessions(s: Service, v: Work, now: Time)
    requires Fit(s) && OneBackfillPerSession(s) && Grew(Work(s, [], false), v, now)
    ensures OneBackfillPerSession(v.svc)
  {
    forall a, b | Rivals(v.svc, a, b) ensures a == b {
      assert Advanced(Work(s, [], false), v, now, a) && Advanced(Work(s, [], false), v, now, b);
      assert Rivals(s, a, b);
    }
  }

  lemma ExtendsKeptTicket(w: World, v: Work, now: Time, id: TicketID)
    requires id in w.svc.tickets && id in w.born && Advanced(Work(w.svc, [], false), v, now, id)
    ensures KeptTicket(w, w.After(v.svc, v.batch, now), id)
  {
    assert (w.log + v.batch)[|w.log|..] == v.batch;
    assert Endings([], id) == 0;
    hide Endings, Evolves;
  }

  lemma ExtendsKept(w: World, v: Work, now: Time)
    requires Sound(w) && Extends(w, v, now)
    ensures Kept(w, w.After(v.svc, v.batch, now))
  {
    hide StateSound;
    forall id <- w.svc.tickets ensures KeptTicket(w, w.After(v.svc, v.batch, now), id) {
      assert Advanced(Work(w.svc, [], false), v, now, id) && TicketSound(w, id);
      ExtendsKeptTicket(w, v, now, id);
    }
  }

  /** A command that only lets tickets evolve keeps the world sound. */
  lemma ExtendsSound(w: World, v: Work, now: Time)
    requires Sound(w) && Extends(w, v, now)
    ensures Sound(w.After(v.svc, v.batch, now)) && Kept(w, w.After(v.svc, v.batch, now))
  {
    var u := w.After(v.svc, v.batch, now);
    ExtendsKept(w, v, now);
    forall id <- u.svc.tickets ensures TicketSound(u, id) {
      assert Advanced(Work(w.svc, [], false), v, now, id) && TicketSound(w, id);
      ExtendsTicket(w, v, now, id);
    }
    ExtendsSessions(w.svc, v, now);
    forall c ensures LastSweep(u.svc, c) <= u.clock {
      assert LastSweep(u.svc, c) == LastSweep(w.svc, c) <= w.clock;
    }
  }

  // ----- eviction

  /** An ended ticket of `c` is kept for at most the retention time and one clean-up interval. */
  predicate Young(s: Service, c: ConfigurationName, now: Time, id: TicketID)
    requires id in s.tickets
  {
    var t := s.tickets[id];
    t.config == c && t.Terminal() ==> now - t.endTime < s.Retention() + s.CleanupInterval()
  }

  /** `u` is `w` after a sweep of configuration `c`. */
  ghost predicate Swept(w: World, u: World, c: ConfigurationName) {
    && u.svc == w.svc.Evict(c, w.clock) && u.log == w.log && u.clock == w.clock
    && forall id <- u.svc.tickets :: id in w.born && id in u.born && u.born[id] == w.born[id]
  }

  lemma EvictTicket(w: World, u: World, c: ConfigurationName, id: TicketID)
    requires Swept(w, u, c) && id in w.svc.tickets && TicketSound(w, id) && w.svc.Indexed(c, id) && id in u.svc.tickets
    ensures Young(u.svc, c, u.clock, id) && TicketSound(u, id)
  {
    hide Endings;
    assert u.Since(id) == w.Since(id);
  }

  /** Sweeping keeps the world sound, and bounds the age of every ended ticket of the configuration. */
  lemma EvictSound(w: World, u: World, c: ConfigurationName)
    requires Sound(w) && Swept(w, u, c)
    ensures Sound(u) && forall id <- u.svc.tickets :: Young(u.svc, c, u.clock, id)
  {
    EvictIndexOk(w.svc, c, w.clock);
    hide Endings, StateSound;
    forall id <- u.svc.tickets ensures TicketSound(u, id) && Young(u.svc, c, u.clock, id) {
      assert TicketSound(w, id) && w.svc.Indexed(c, id);
      EvictTicket(w, u, c, id);
    }
    forall d ensures LastSweep(u.svc, d) <= u.clock {
      assert LastSweep(w.svc, d) <= w.clock;
    }
    forall a, b | Rivals(u.svc, a, b) ensures a == b {
      assert Rivals(w.svc, a, b);
    }
  }

  // ----- registering a new ticket

  /** Registering one ticket says nothing about the others. */
  lemma CommitOther(w: World, v: Work, t: TicketState, batch: seq<Event>, now: Time, id: TicketID)
    requires id in v.svc.tickets && t.id != id && id in w.svc.tickets && id in w.born
    requires TicketSound(w.After(v.svc, batch, now), id)
    ensures TicketSound(w.After(v.svc.Commit(t), batch, now), id)
  {
    hide StateSound;
    var a, b := w.After(v.svc, batch, now), w.After(v.svc.Commit(t), batch, now);
    assert a.svc.tickets[id] == b.svc.tickets[id] && a.Since(id) == b.Since(id);
  }

  lemma CommitNew(w: World, v: Work, t: TicketState, now: Time)
    requires t.id !in w.svc.tickets && t.events == [] && !t.Terminal() && t.endTime == 0 && now > 0
    requires Endings(v.batch, t.id) == 0
    ensures TicketSound(w.After(v.svc.Commit(t), v.batch + [SearchingStarted(t.id)], now), t.id)
  {
    var batch := v.batch + [SearchingStarted(t.id)];
    var u := w.After(v.svc.Commit(t), batch, now);
    assert batch[..|batch| - 1] == v.batch;
    assert u.Since(t.id) == batch;
  }

  lemma CommitIndexOk(s: Service, t: TicketState)
    requires Fit(s) && t.id !in s.tickets && t.events == []
    ensures Fit(s.Commit(t))
  {
    SaveIndexOk(s, t);
    forall c, id ensures s.Commit(t).Indexed(c, id) {
      assert s.Save(t).Indexed(c, id);
    }
  }

  lemma CommitSessions(s: Service, t: TicketState)
    requires t.id !in s.tickets && OneBackfillPerSession(s)
    requires forall id <- s.tickets :: !Competing(t, s.tickets[id])
    ensures OneBackfillPerSession(s.Commit(t))
  {
    var r := s.Commit(t);
    forall a, b | Rivals(r, a, b) ensures a == b {
      assert Rivals(r, b, a);
      assert Rivals(s, a, b) || a == t.id || b == t.id;
    }
  }

  /** The parts of soundness after one more ticket has been registered. */
  lemma SoundWithOneMore(before: World, u: World, id: TicketID)
    requires Sound(before) && u.clock == before.clock
    requires Fit(u.svc) && OneBackfillPerSession(u.svc)
    requires forall k <- u.svc.tickets :: TicketSound(u, k)
    requires u.svc.nextCleanup == before.svc.nextCleanup && u.svc.ticketRetention == before.svc.ticketRetention
    requires u.svc.tickets.Keys == before.svc.tickets.Keys + {id} && u.svc.reserved == before.svc.reserved - {id}
    ensures Sound(u)
  {
    hide TicketSound, Fit, OneBackfillPerSession;
    forall c ensures LastSweep(u.svc, c) <= u.clock {
      assert LastSweep(before.svc, c) <= before.clock;
    }
  }

  lemma KeptWithOneMore(w: World, before: World, u: World)
    requires Kept(w, before) && u.log == before.log && u.clock == before.clock
    requires forall id <- w.svc.tickets :: id in before.svc.tickets && id in before.born && id in u.svc.tickets
               && id in u.born && u.svc.tickets[id] == before.svc.tickets[id] && u.born[id] == before.born[id]
    ensures Kept(w, u)
  {
    hide Evolves, Endings;
    forall id <- w.svc.tickets ensures KeptTicket(w, u, id) {
      assert KeptTicket(w, before, id);
    }
  }

  lemma CommitTickets(w: World, v: Work, t: TicketState, batch: seq<Event>, now: Time)
    requires Sound(w.After(v.svc, batch, now)) && v.svc.tickets.Keys == w.svc.tickets.Keys <= w.born.Keys
    requires t.id !in w.svc.tickets && TicketSound(w.After(v.svc.Commit(t), batch, now), t.id)
    ensures forall id <- v.svc.Commit(t).tickets :: TicketSound(w.After(v.svc.Commit(t), batch, now), id)
  {
    hide StateSound;
    forall id <- v.svc.Commit(t).tickets ensures TicketSound(w.After(v.svc.Commit(t), batch, now), id) {
      if id != t.id {
        assert TicketSound(w.After(v.svc, batch, now), id);
        CommitOther(w, v, t, batch, now, id);
      }
    }
  }

  lemma BornKnown(w: World)
    requires Sound(w)
    ensures w.svc.tickets.Keys <= w.born.Keys
  {
    forall id <- w.svc.tickets ensures id in w.born { assert TicketSound(w, id); }
  }

  lemma SearchingSound(w: World, v: Work, e: Event, now: Time)
    requires Sound(w) && Extends(w, v, now) && e.SearchingStarted?
    ensures var u := w.After(v.svc, v.batch + [e], now); Sound(u) && Kept(w, u)
    ensures v.svc.tickets.Keys == w.svc.tickets.Keys
  {
    GrewAdd(v, e, now);
    GrewTransitive(Work(w.svc, [], false), v, v.Add(e), now);
    ExtendsSound(w, v.Add(e), now);
  }

  lemma CommitSound(w: World, v: Work, t: TicketState, now: Time)
    requires Sound(w) && Extends(w, v, now)
    requires t.id !in w.svc.tickets && t.events == [] && !t.Terminal() && t.endTime == 0
    requires Endings(v.batch, t.id) == 0
    requires forall id <- v.svc.tickets :: !Competing(t, v.svc.tickets[id])
    ensures var u := w.After(v.svc.Commit(t), v.batch + [SearchingStarted(t.id)], now); Sound(u) && Kept(w, u)
  {
    hide Endings, StateSound, KeptTicket, Competing;
    var e := SearchingStarted(t.id);
    var batch := v.batch + [e];
    var before := w.After(v.svc, batch, now);
    SearchingSound(w, v, e, now);
    CommitNew(w, v, t, now);
    BornKnown(w);
    hide Endings, StateSound, Grew;
    CommitTickets(w, v, t, batch, now);
    CommitSessions(v.svc, t);
    CommitIndexOk(v.svc, t);
    hide IsSessionBackfill, OneBackfillPerSession, Service.IndexOk, Service.Quiet;
    SoundWithOneMore(before, w.After(v.svc.Commit(t), batch, now), t.id);
    KeptWithOneMore(w, before, w.After(v.svc.Commit(t), batch, now));
  }

  lemma ReserveSound(w: World, ids: set<TicketID>)
    requires Sound(w) && ids !! w.svc.tickets.Keys
    ensures Sound(w.(svc := w.svc.(reserved := w.svc.reserved + ids)))
  {
    var u := w.(svc := w.svc.(reserved := w.svc.reserved + ids));
    forall c, id ensures u.svc.Indexed(c, id) { assert w.svc.Indexed(c, id); }
    forall id <- u.svc.tickets ensures TicketSound(u, id) { assert TicketSound(w, id); }
    forall c ensures LastSweep(u.svc, c) <= u.clock { assert LastSweep(w.svc, c) <= w.clock; }
    forall a, b | Rivals(u.svc, a, b) ensures a == b { assert Rivals(w.svc, a, b); }
  }

  // ----- the commands

  /** The lookup of a session's outstanding backfill finds it if there is one. */
  lemma {:induction false} FirstSessionBackfillFinds(s: Service, ids: seq<TicketID>, arn: string)
    ensures match FirstSessionBackfill(s, ids, arn)
            case None => forall id <- ids :: id in s.tickets ==> !IsSessionBackfill(s.tickets[id], arn)
            case Some(t) => exists id <- ids :: id in s.tickets && s.tickets[id] == t && IsSessionBackfill(t, arn)
  {
    if ids != [] {
      FirstSessionBackfillFinds(s, ids[1..], arn);
    }
  }

  lemma FindSessionBackfillFinds(s: Service, c: ConfigurationName, arn: string)
    requires s.IndexOk()
    ensures match FindSessionBackfill(s, c, arn)
            case None => forall id <- s.tickets :: s.tickets[id].config == c ==> !IsSessionBackfill(s.tickets[id], arn)
            case Some(t) => t.id in s.tickets && s.tickets[t.id] == t && t.config == c && IsSessionBackfill(t, arn)
  {
    var ids := SortedListing(s.Active(c));
    ListingDistinct(ids, s.Active(c));
    FirstSessionBackfillFinds(s, ids, arn);
    forall id ensures id in ids <==> id in s.tickets && s.tickets[id].config == c && !s.tickets[id].Terminal() {
      assert s.Indexed(c, id);
    }
  }

  /** A plain registration. */
  lemma RegisterSound(w: World, t: TicketState, now: Time)
    requires Sound(w) && w.clock <= now
    requires t.id !in w.svc.tickets && t.events == [] && !t.Terminal() && t.endTime == 0
    requires forall id <- w.svc.tickets :: !Competing(t, w.svc.tickets[id])
    ensures var u := w.After(w.svc.Commit(t), [SearchingStarted(t.id)], now); Sound(u) && Kept(w, u)
  {
    var v := Work(w.svc, [], false);
    GrewNothing(v, now);
    assert Endings(v.batch, t.id) == 0 && v.batch + [SearchingStarted(t.id)] == [SearchingStarted(t.id)];
    assert Extends(w, v, now);
    hide *;
    CommitSound(w, v, t, now);
  }

  lemma NothingSound(w: World, now: Time)
    requires Sound(w) && w.clock <= now
    ensures Sound(w.After(w.svc, [], now)) && Kept(w, w.After(w.svc, [], now))
  {
    var v := Work(w.svc, [], false);
    GrewNothing(v, now);
    assert Extends(w, v, now);
    hide *;
    ExtendsSound(w, v, now);
  }

  /** A ticket as it is registered: waiting, clean, and with its first event handed over. */
  predicate Fresh(t: TicketState) {
    && t.events == [] && t.status.Queued? && t.endTime == 0 && t.matchID == "" && t.playerAcceptances == map[]
    && t.playerTeams == t.RequestedSeats() && t.players != [] && !t.cancelByAPI
  }

  /** What StartMatchmaking registers, if it succeeds. */
  function StartedTicket(x: StartInput): TicketState {
    TicketState(if x.ticketID != "" then x.ticketID else x.generatedID, x.config, x.players, false, "", x.now, Queued,
                "", "", 0, "", false, map[], map[], [], [])
  }

  lemma StartCases(x: StartInput, s: Service)
    ensures var r, t := StartMatchmaking(x, s), StartedTicket(x);
            if r.outcome.Pass? then
              !s.Taken(t.id) && x.players != [] && r.svc == s.Commit(t) && r.batch == [SearchingStarted(t.id)]
            else r.svc == s && r.batch == []
  {
    var t := StartedTicket(x);
    assert !s.Taken(t.id) ==> s.Reserve(t.id).CancelReservation(t.id) == s;
    assert s.Reserve(t.id).Commit(t) == s.Commit(t);
  }

  lemma StartSound(w: World, x: StartInput)
    requires Sound(w) && w.clock <= x.now
    ensures Sound(Exec(w, Start(x))) && Kept(w, Exec(w, Start(x)))
  {
    var r := StartMatchmaking(x, w.svc);
    StartCases(x, w.svc);
    hide StartMatchmaking, Sound, Kept;
    if r.outcome.Pass? {
      RegisterSound(w, StartedTicket(x), x.now);
    } else {
      NothingSound(w, x.now);
    }
  }

  /** Superseding a request that waits in the pool: it ends with its one event, or only its metrics change. */
  lemma SupersedeCases(x: BackfillInput, s: Service, prior: TicketState) returns (u: TicketState)
    requires Pooled(prior.status) && prior.events == []
    ensures SupersedeBackfill(x, s, prior) == if x.cancelPrior.Fault? then Result(s.Put(u), [], Fail(EngineFault))
                                              else Result(s.Save(u.Drained()), u.events, Pass)
    ensures Evolves(prior, u, x.start.now) && Announced(prior, u)
    ensures u.Terminal() == !x.cancelPrior.Fault?
    ensures if x.cancelPrior.Fault? then u == prior.(ruleMetrics := u.ruleMetrics)
            else exists e :: u.events == [e] && e.MatchmakingCancelled? && e.ticketID == prior.id
                             && e.message == SupersededMessage
  {
    var t := if x.priorMetrics.Some? then prior.SetRuleMetrics(x.priorMetrics.value) else prior;
    if x.cancelPrior.Fault? {
      u := t;
    } else {
      u := SupersededTicket(prior, t, x.start.now);
    }
  }

  lemma SupersededTicket(prior: TicketState, t: TicketState, now: Time) returns (u: TicketState)
    requires Pooled(prior.status) && prior.events == [] && t == prior.(ruleMetrics := t.ruleMetrics)
    ensures t.MarkCancelled(SupersededMessage, now) == Some(u)
    ensures Evolves(prior, u, now) && Announced(prior, u) && u.Terminal()
    ensures exists e :: u.events == [e] && e.MatchmakingCancelled? && e.ticketID == prior.id && e.message == SupersededMessage
  {
    u := t.MarkCancelled(SupersededMessage, now).value;
    assert u.events == [u.events[0]];
  }

  lemma SupersedeGrew(x: BackfillInput, s: Service, prior: TicketState)
    requires Fit(s) && prior.id in s.tickets && s.tickets[prior.id] == prior && Pooled(prior.status)
    ensures var r := SupersedeBackfill(x, s, prior);
            && Grew(Work(s, [], false), Work(r.svc, r.batch, r.outcome.Fail?), x.start.now)
            && (r.outcome.Pass? <==> !x.cancelPrior.Fault?)
            && (r.outcome.Pass? ==> r.svc.tickets[prior.id].Terminal())
            && (r.outcome.Fail? ==> r.batch == [])
            && (forall e <- r.batch :: e.MatchmakingCancelled? && e.ticketID == prior.id)
  {
    var w := Work(s, [], false);
    assert prior.events == [] && prior.id in s.tickets;
    hide SupersedeBackfill, Grew, Evolves, Announced, Fit, Service.Save, Service.Put, Work.Store, Work.Abort;
    var u := SupersedeCases(x, s, prior);
    assert u.id == prior.id by { EvolvedID(prior, u, x.start.now); }
    WorkIs(s, u);
    if x.cancelPrior.Fault? {
      GrewAbort(w, u, x.start.now);
    } else {
      GrewStore(w, u, x.start.now);
    }
  }

  lemma EvolvedID(t: TicketState, u: TicketState, now: Time)
    requires Evolves(t, u, now)
    ensures u.id == t.id
  {
  }

  lemma WorkIs(s: Service, u: TicketState)
    ensures Work(s, [], false).Store(u) == Work(s.Save(u.Drained()), u.events, false)
    ensures Work(s, [], false).Abort(u) == Work(s.Put(u), [], true)
    ensures u.id in s.Save(u.Drained()).tickets && s.Save(u.Drained()).tickets[u.id] == u.Drained()
  {
    assert [] + u.events == u.events;
  }

  lemma {:induction false} NoEndings(events: seq<Event>, id: TicketID)
    requires forall e <- events :: !e.Ends(id)
    ensures Endings(events, id) == 0
  {
    if events != [] {
      NoEndings(events[..|events| - 1], id);
    }
  }

  lemma UnreserveSound(w: World, id: TicketID)
    requires Sound(w)
    ensures Sound(w.(svc := w.svc.CancelReservation(id)))
    ensures forall v: World {:trigger Kept(v, w)} :: Kept(v, w) ==> Kept(v, w.(svc := w.svc.CancelReservation(id)))
  {
    var u := w.(svc := w.svc.CancelReservation(id));
    forall c, k ensures u.svc.Indexed(c, k) { assert w.svc.Indexed(c, k); }
    forall k <- u.svc.tickets ensures TicketSound(u, k) { assert TicketSound(w, k); }
    forall c ensures LastSweep(u.svc, c) <= u.clock { assert LastSweep(w.svc, c) <= w.clock; }
    forall a, b | Rivals(u.svc, a, b) ensures a == b { assert Rivals(w.svc, a, b); }
    forall v: World | Kept(v, w) ensures Kept(v, u) {
      forall k <- v.svc.tickets ensures KeptTicket(v, u, k) { assert KeptTicket(v, w, k); }
    }
  }

  /** Once the earlier request has ended, nothing competes with the new one. */
  lemma NoRivalLeft(s: Service, v: Work, prior: TicketState, t: TicketState, now: Time)
    requires OneBackfillPerSession(s) && Grew(Work(s, [], false), v, now)
    requires prior.id in s.tickets && s.tickets[prior.id] == prior
    requires prior.config == t.config && IsSessionBackfill(prior, t.gameSessionARN) && t.gameSessionARN != ""
    requires v.svc.tickets[prior.id].Terminal()
    ensures forall id <- v.svc.tickets :: !Competing(t, v.svc.tickets[id])
  {
    forall id <- v.svc.tickets ensures !Competing(t, v.svc.tickets[id]) {
      assert Advanced(Work(s, [], false), v, now, id);
      if Competing(t, v.svc.tickets[id]) {
        assert Rivals(s, id, prior.id);
      }
    }
  }

  /** A plan that goes ahead: a fresh ticket, and the outstanding request of its session if there is one. */
  lemma PlanSound(x: BackfillInput, s: Service)
    requires Fit(s) && PlanBackfill(x, s).Replace?
    ensures var t, prior := PlanBackfill(x, s).ticket, PlanBackfill(x, s).prior;
            && t.events == [SearchingStarted(t.id)] && !t.Terminal() && t.endTime == 0
            && t.config == x.start.config && t.gameSessionARN == x.gameSessionARN && t.isBackfill
            && (prior.None? ==> forall id <- s.tickets :: !Competing(t, s.tickets[id]))
            && (prior.Some? ==> && prior.value.id in s.tickets && s.tickets[prior.value.id] == prior.value
                                && Competing(t, prior.value) && Pooled(prior.value.status))
  {
    FindSessionBackfillFinds(s, x.start.config, x.gameSessionARN);
    hide FindSessionBackfill;
  }

  /** The command once the ticket is made, its id reserved, and the engine has accepted it. */
  lemma ReplaceSound(w: World, x: BackfillInput, t: TicketState, prior: Option<TicketState>)
    requires Sound(w) && w.clock <= x.start.now
    requires t.id !in w.svc.tickets && t.events == [SearchingStarted(t.id)] && !t.Terminal() && t.endTime == 0
    requires prior.None? ==> forall id <- w.svc.tickets :: !Competing(t, w.svc.tickets[id])
    requires prior.Some? ==> && prior.value.id in w.svc.tickets && w.svc.tickets[prior.value.id] == prior.value
                             && Competing(t, prior.value) && Pooled(prior.value.status)
    ensures var r := ReplaceBackfill(x, w.svc, t, prior);
            Sound(w.After(r.svc, r.batch, x.start.now)) && Kept(w, w.After(r.svc, r.batch, x.start.now))
  {
    var now := x.start.now;
    var d := t.Drained();
    hide SupersedeBackfill, Kept, Sound;
    if prior.None? {
      RegisterSound(w, d, now);
    } else {
      hide Competing;
      ReplaceBoth(w, x, t, prior.value);
    }
  }

  lemma ReplaceBoth(w: World, x: BackfillInput, t: TicketState, prior: TicketState)
    requires Sound(w) && w.clock <= x.start.now
    requires t.id !in w.svc.tickets && t.events == [SearchingStarted(t.id)] && !t.Terminal() && t.endTime == 0
    requires prior.id in w.svc.tickets && w.svc.tickets[prior.id] == prior && Competing(t, prior) && Pooled(prior.status)
    ensures var r := ReplaceBackfill(x, w.svc, t, Some(prior));
            Sound(w.After(r.svc, r.batch, x.start.now)) && Kept(w, w.After(r.svc, r.batch, x.start.now))
  {
    var now := x.start.now;
    var r := SupersedeBackfill(x, w.svc, prior);
    var v := Work(r.svc, r.batch, r.outcome.Fail?);
    SoundFits(w);
    hide ReplaceBackfill, SupersedeBackfill, Kept, Sound, Fit, Grew, Service.Commit, World.After, Competing;
    SupersedeGrew(x, w.svc, prior);
    assert Extends(w, v, now);
    hide Extends;
    ReplaceIs(x, w.svc, t, prior);
    if r.outcome.Pass? {
      ReplacedSound(w, v, t, prior, now);
    } else {
      RolledBackSound(w, v, t.id, now);
    }
  }

  /** Replacing an earlier request, in the terms of what superseding it gave. */
  lemma ReplaceIs(x: BackfillInput, s: Service, t: TicketState, prior: TicketState)
    requires t.events == [SearchingStarted(t.id)]
    ensures var r, u := SupersedeBackfill(x, s, prior), ReplaceBackfill(x, s, t, Some(prior));
            if r.outcome.Pass? then u.svc == r.svc.Commit(t.Drained()) && u.batch == r.batch + [SearchingStarted(t.id)]
            else u.batch == r.batch && (u.svc == r.svc || u.svc == r.svc.CancelReservation(t.id))
  {
    hide SupersedeBackfill, Service.Commit;
  }

  lemma RolledBackSound(w: World, v: Work, id: TicketID, now: Time)
    requires Sound(w) && Extends(w, v, now) && v.batch == []
    ensures Sound(w.After(v.svc, [], now)) && Kept(w, w.After(v.svc, [], now))
    ensures var s := v.svc.CancelReservation(id); Sound(w.After(s, [], now)) && Kept(w, w.After(s, [], now))
  {
    hide Sound, Kept, Extends;
    ExtendsSound(w, v, now);
    UnreserveSound(w.After(v.svc, [], now), id);
    UnreservedAs(w, v.svc, now, id);
  }

  lemma SoundFits(w: World)
    requires Sound(w)
    ensures Fit(w.svc)
  {
  }

  lemma UnreservedAs(w: World, s: Service, now: Time, id: TicketID)
    ensures w.After(s.CancelReservation(id), [], now) == w.After(s, [], now).(svc := s.CancelReservation(id))
  {
  }

  /** The earlier request has ended, so the new one has no rival. */
  lemma ReplacedSound(w: World, v: Work, t: TicketState, prior: TicketState, now: Time)
    requires Sound(w) && Extends(w, v, now)
    requires t.id !in w.svc.tickets && t.events == [SearchingStarted(t.id)] && !t.Terminal() && t.endTime == 0
    requires prior.id in w.svc.tickets && w.svc.tickets[prior.id] == prior && Competing(t, prior)
    requires prior.id in v.svc.tickets && v.svc.tickets[prior.id].Terminal()
    requires forall e <- v.batch :: e.MatchmakingCancelled? && e.ticketID == prior.id
    ensures var u := w.After(v.svc.Commit(t.Drained()), v.batch + [SearchingStarted(t.id)], now); Sound(u) && Kept(w, u)
  {
    NoEndings(v.batch, t.id);
    NoRivalLeft(w.svc, v, prior, t.Drained(), now);
    hide Sound, Competing, Kept, Fit, Grew;
    CommitSound(w, v, t.Drained(), now);
  }

  lemma KeptFromReserved(w: World, reserved: World, u: World)
    requires Kept(reserved, u) && reserved == w.(svc := w.svc.(reserved := reserved.svc.reserved))
    ensures Kept(w, u)
  {
    forall id <- w.svc.tickets ensures KeptTicket(w, u, id) { assert KeptTicket(reserved, u, id); }
  }

  lemma BackfillSound(w: World, x: BackfillInput)
    requires Sound(w) && w.clock <= x.start.now
    ensures Sound(Exec(w, Backfill(x))) && Kept(w, Exec(w, Backfill(x)))
  {
    var s := w.svc;
    var plan := PlanBackfill(x, s);
    if plan.Replace? && !s.Taken(plan.ticket.id) && x.start.enqueue.Enqueued? {
      PlanSound(x, s);
      hide PlanBackfill, ReplaceBackfill;
      ReserveSound(w, {plan.ticket.id});
      hide StateSound;
      var reserved := w.(svc := s.Reserve(plan.ticket.id));
      ReplaceSound(reserved, x, plan.ticket, plan.prior);
      KeptFromReserved(w, reserved, Exec(w, Backfill(x)));
    } else {
      hide PlanBackfill;
      assert plan.Replace? && !s.Taken(plan.ticket.id) ==> s.Reserve(plan.ticket.id).CancelReservation(plan.ticket.id) == s;
      NothingSound(w, x.start.now);
    }
  }

  /** The ticket an AcceptMatch names, with the request's decisions recorded. */
  function Decided(x: AcceptInput, s: Service): TicketState
    requires x.ticketID in s.tickets
  {
    s.tickets[x.ticketID].RecordPlayerAcceptances(Dedupe(x.playerIDs), x.accepted)
  }

  /** A successful AcceptMatch records on one ticket and reports the match's decisions; a failing one does nothing. */
  lemma AcceptCases(x: AcceptInput, s: Service) returns (e: Event)
    ensures var r := AcceptMatch(x, s);
            if r.outcome.Pass? then
              && x.ticketID in s.tickets && s.tickets[x.ticketID].status.RequiresAcceptance? && e.AcceptanceRecorded?
              && r.svc == s.Save(Decided(x, s)).WithTracker(Decided(x, s).config) && r.batch == [e]
            else r.svc == s && r.batch == []
  {
    hide Key;
    var r := AcceptMatch(x, s);
    e := if r.batch != [] then r.batch[0] else SearchingStarted("");
  }

  lemma AcceptSound(w: World, x: AcceptInput)
    requires Sound(w)
    ensures Sound(Exec(w, Accept(x))) && Kept(w, Exec(w, Accept(x)))
  {
    var r := AcceptMatch(x, w.svc);
    var e := AcceptCases(x, w.svc);
    hide AcceptMatch, Sound, Kept, Service.Save;
    if r.outcome.Pass? {
      DecidedEvolves(w, x);
      hide Decided;
      AcceptGrew(w, Decided(x, w.svc), e);
    } else {
      NothingSound(w, w.clock);
    }
  }

  lemma DecidedEvolves(w: World, x: AcceptInput)
    requires Sound(w) && x.ticketID in w.svc.tickets
    ensures var u := Decided(x, w.svc);
            u.id == x.ticketID && u.events == [] && Evolves(w.svc.tickets[u.id], u, w.clock)
  {
  }

  lemma AcceptGrew(w: World, u: TicketState, e: Event)
    requires Sound(w) && e.AcceptanceRecorded? && u.id in w.svc.tickets && u.events == []
    requires Evolves(w.svc.tickets[u.id], u, w.clock)
    ensures var v := w.After(w.svc.Save(u).WithTracker(u.config), [e], w.clock); Sound(v) && Kept(w, v)
  {
    var a := Work(w.svc, [], false);
    var b := Work(w.svc.Save(u), [], false);
    var c := Work(w.svc.Save(u).WithTracker(u.config), [], false);
    var d := Work(w.svc.Save(u).WithTracker(u.config), [e], false);
    hide Service.Save, Evolves, OneBackfillPerSession, TicketSound;
    assert c == b.(svc := b.svc.SetTracker(u.config, b.svc.TrackerOf(u.config))) && d == c.Add(e);
    assert Fit(a.svc) && forall id :: !e.Ends(id);
    hide Fit, Grew;
    assert Extends(w, d, w.clock) == Grew(a, d, w.clock);
    hide *;
    GrewSave(a, u, w.clock);
    GrewFit(a, b, w.clock);
    GrewTracker(b, u.config, b.svc.TrackerOf(u.config), w.clock);
    GrewFit(b, c, w.clock);
    GrewAdd(c, e, w.clock);
    GrewTransitive(a, b, c, w.clock);
    GrewTransitive(a, c, d, w.clock);
    ExtendsSound(w, d, w.clock);
  }

  lemma StopSound(w: World, x: StopInput)
    requires Sound(w)
    ensures Sound(Exec(w, Stop(x))) && Kept(w, Exec(w, Stop(x)))
  {
    var r := StopMatchmaking(x, w.svc);
    var u := if r.outcome.Pass? then Some(w.svc.tickets[x.ticketID].RequestCancel()) else None;
    assert r.batch == [] && r.svc == if u.Some? then w.svc.Save(u.value) else w.svc;
    hide StopMatchmaking, Service.Save, Evolves;
    if u.Some? { StopEvolves(w, x.ticketID); }
    if u.Some? {
      StopGrew(w, u.value);
    } else {
      hide Sound, Kept;
      NothingSound(w, w.clock);
    }
  }

  lemma StopEvolves(w: World, id: TicketID)
    requires Sound(w) && id in w.svc.tickets
    ensures var u := w.svc.tickets[id].RequestCancel(); Evolves(w.svc.tickets[id], u, w.clock) && u.id == id && u.events == []
  {
  }

  lemma StopGrew(w: World, u: TicketState)
    requires Sound(w) && u.id in w.svc.tickets && u.events == []
    requires Evolves(w.svc.tickets[u.id], u, w.clock)
    ensures var v := w.After(w.svc.Save(u), [], w.clock); Sound(v) && Kept(w, v)
  {
    GrewSave(Work(w.svc, [], false), u, w.clock);
    hide Service.Save, Evolves, Grew, Fit;
    ExtendsSound(w, Work(w.svc.Save(u), [], false), w.clock);
  }

  // ----- the tick

  lemma RunTickGrew(x: TickInput, s: Service)
    requires Fit(s) && !x.refused && !x.engine.fails
    ensures var w1 := Settle(x, Work(s.WithTracker(x.config), [], false), x.order);
            var w2 := Finalize(x, w1, x.engine.matches);
            var w3 := Apply(x, w2, x.engine.pending);
            var w4 := if w3.failed then w3 else Sync(x, w3);
            Grew(Work(s, [], false), w4, x.now)
  {
    hide Grew, Settle, Finalize, Apply, Sync, Service.IndexOk, Service.Quiet;
    var w := Work(s, [], false);
    var w0 := Work(s.WithTracker(x.config), [], false);
    GrewTracker(w, x.config, s.TrackerOf(x.config), x.now);
    GrewFit(w, w0, x.now);
    var w1 := Settle(x, w0, x.order);
    SettleGrew(x, w0, x.order);
    GrewTransitive(w, w0, w1, x.now);
    GrewFit(w, w1, x.now);
    var w2 := Finalize(x, w1, x.engine.matches);
    FinalizeGrew(x, w1, x.engine.matches);
    GrewTransitive(w, w1, w2, x.now);
    GrewFit(w, w2, x.now);
    var w3 := Apply(x, w2, x.engine.pending);
    ApplyGrew(x, w2, x.engine.pending);
    GrewTransitive(w, w2, w3, x.now);
    GrewFit(w, w3, x.now);
    if !w3.failed {
      SyncGrew(x, w3);
      GrewTransitive(w, w3, Sync(x, w3), x.now);
    }
  }

  lemma GrewFit(a: Work, b: Work, now: Time)
    requires Grew(a, b, now)
    ensures Fit(b.svc)
  {
  }

  /** Sweeping after a command: what the command kept, the sweep keeps too, or evicts when it is due. */
  lemma EvictKept(w: World, mid: World, u: World, c: ConfigurationName, id: TicketID)
    requires id in w.svc.tickets && KeptTicket(w, mid, id) && id in mid.svc.tickets
    requires Swept(mid, u, c) && mid.svc.ticketRetention == w.svc.ticketRetention
    ensures KeptTicket(w, u, id)
  {
    hide Endings;
    if id !in u.svc.tickets {
      assert id in mid.svc.Expired(c, mid.clock);
      assert mid.clock - mid.svc.tickets[id].endTime >= mid.svc.Retention() > 0;
    } else {
      assert u.svc.tickets[id] == mid.svc.tickets[id];
    }
  }

  /** After every tick that reports no error, no ended ticket of its configuration is older than the bound. */
  lemma TickSound(w: World, x: TickInput)
    requires Sound(w) && w.clock <= x.now
    ensures Sound(Exec(w, DoTick(x))) && Kept(w, Exec(w, DoTick(x)))
    ensures var u := Exec(w, DoTick(x)).svc;
            !RunTick(x, w.svc).failed ==> forall id <- u.tickets :: Young(u, x.config, x.now, id)
  {
    var s := w.svc;
    if x.refused || x.engine.fails {
      GrewNothing(Work(s, [], false), x.now);
      ExtendsSound(w, Work(s, [], false), x.now);
    } else {
      RunTickGrew(x, s);
      var w1 := Settle(x, Work(s.WithTracker(x.config), [], false), x.order);
      var w3 := Apply(x, Finalize(x, w1, x.engine.matches), x.engine.pending);
      var w4 := if w3.failed then w3 else Sync(x, w3);
      var r := RunTick(x, s);
      assert r == if w4.failed then w4 else w4.(svc := w4.svc.Evict(x.config, x.now));
      hide RunTick, Settle, Finalize, Apply, Sync;
      TickSoundAfter(w, x, w4);
    }
  }

  lemma TickSoundAfter(w: World, x: TickInput, w4: Work)
    requires Sound(w) && w.clock <= x.now && Grew(Work(w.svc, [], false), w4, x.now)
    ensures var r := if w4.failed then w4 else w4.(svc := w4.svc.Evict(x.config, x.now));
            var u := w.After(r.svc, r.batch, x.now);
            && Sound(u) && Kept(w, u)
            && (!w4.failed ==> forall id <- u.svc.tickets :: Young(u.svc, x.config, x.now, id))
  {
    ExtendsSound(w, w4, x.now);
    if !w4.failed {
      assert w4.svc.tickets.Keys == w.svc.tickets.Keys && w4.svc.ticketRetention == w.svc.ticketRetention;
      BornKnown(w);
      SweepSound(w, w4, x.config, x.now);
    }
  }

  lemma SweepSound(w: World, v: Work, c: ConfigurationName, now: Time)
    requires Sound(w.After(v.svc, v.batch, now)) && Kept(w, w.After(v.svc, v.batch, now))
    requires v.svc.tickets.Keys == w.svc.tickets.Keys <= w.born.Keys && v.svc.ticketRetention == w.svc.ticketRetention
    ensures var s := v.svc.Evict(c, now);
            var u := w.After(s, v.batch, now);
            Sound(u) && Kept(w, u) && forall id <- s.tickets :: Young(s, c, now, id)
  {
    var mid := w.After(v.svc, v.batch, now);
    var u := w.After(v.svc.Evict(c, now), v.batch, now);
    assert Swept(mid, u, c);
    hide Swept, Service.Evict, StateSound;
    EvictSound(mid, u, c);
    hide Sound, Young;
    forall id <- w.svc.tickets ensures KeptTicket(w, u, id) {
      EvictKept(w, mid, u, c, id);
    }
  }

  // ----- every run

  lemma ExecSound(w: World, cmd: Command)
    requires Sound(w) && Legal(w, cmd)
    ensures Sound(Exec(w, cmd)) && Kept(w, Exec(w, cmd))
  {
    hide Sound, Kept;
    match cmd
    case Start(x) => StartSound(w, x);
    case Backfill(x) => BackfillSound(w, x);
    case Accept(x) => AcceptSound(w, x);
    case Stop(x) => StopSound(w, x);
    case DoTick(x) => TickSound(w, x);
  }

  /** Every state a run reaches is sound. */
  lemma {:induction false} RunSound(worlds: seq<World>, cmds: seq<Command>, n: nat)
    requires IsRun(worlds, cmds) && n < |worlds| && Sound(worlds[0])
    ensures Sound(worlds[n])
  {
    if n > 0 {
      RunSound(worlds, cmds, n - 1);
      assert Leads(worlds, cmds, n - 1);
      ExecSound(worlds[n - 1], cmds[n - 1]);
    }
  }

  lemma NewWorldSound(ticketRetention: Time)
    ensures Sound(NewWorld(ticketRetention))
  {
    var w := NewWorld(ticketRetention);
    forall c, id ensures w.svc.Indexed(c, id) {
    }
  }

  // ----- the main results, for every run and any engine

  /** Everything below is about the states reachable from an empty service. */
  ghost predicate Reachable(w: World) {
    exists worlds: seq<World>, cmds: seq<Command> :: Reaches(worlds, cmds, w)
  }

  /** A run that starts with an empty service. */
  ghost predicate FromEmpty(worlds: seq<World>, cmds: seq<Command>) {
    IsRun(worlds, cmds) && worlds[0] == NewWorld(worlds[0].svc.ticketRetention)
  }

  ghost predicate Reaches(worlds: seq<World>, cmds: seq<Command>, w: World) {
    FromEmpty(worlds, cmds) && worlds[|cmds|] == w
  }

  lemma ReachableSound(w: World)
    requires Reachable(w)
    ensures Sound(w)
  {
    var worlds: seq<World>, cmds: seq<Command> :| Reaches(worlds, cmds, w);
    hide IsRun, Sound;
    NewWorldSound(worlds[0].svc.ticketRetention);
    RunSound(worlds, cmds, |cmds|);
  }

  lemma EndTimeSet(w: World, id: TicketID)
    requires Sound(w) && id in w.svc.tickets
    ensures w.svc.tickets[id].endTime != 0 <==> w.svc.tickets[id].status.IsTerminal()
  {
    hide Fit, OneBackfillPerSession, Endings;
    assert TicketSound(w, id);
  }

  /**
   After every command, also one that ended in an error: a ticket is in the index of its own configuration and of no
   other; the active index of a configuration lists its tickets of active status; an end time is set exactly on the
   tickets that have ended; no id is both registered and reserved; and no recorded event is left behind.
   */
  lemma IndexAgreement(w: World)
    requires Reachable(w)
    ensures forall c, id :: id in w.svc.ByConfig(c) <==> id in w.svc.tickets && w.svc.tickets[id].config == c
    ensures forall c, id :: id in w.svc.Active(c) <==>
              id in w.svc.tickets && w.svc.tickets[id].config == c && w.svc.tickets[id].status.IsActive()
    ensures forall id <- w.svc.tickets :: w.svc.tickets[id].endTime != 0 <==> w.svc.tickets[id].status.IsTerminal()
    ensures forall id <- w.svc.tickets :: id !in w.svc.reserved && w.svc.tickets[id].events == []
  {
    hide Reachable, StateSound, OneBackfillPerSession, LastSweep;
    ReachableSound(w);
    forall c, id
      ensures id in w.svc.ByConfig(c) <==> id in w.svc.tickets && w.svc.tickets[id].config == c
      ensures id in w.svc.Active(c) <==>
              id in w.svc.tickets && w.svc.tickets[id].config == c && w.svc.tickets[id].status.IsActive()
    {
      assert w.svc.Indexed(c, id);
    }
    forall id <- w.svc.tickets
      ensures w.svc.tickets[id].endTime != 0 <==> w.svc.tickets[id].status.IsTerminal()
    {
      EndTimeSet(w, id);
    }
  }

  /** A registered ticket is named by at most one Cancelled, TimedOut or Succeeded event, and only once it has ended. */
  lemma AnnouncedAtMostOnce(w: World, id: TicketID)
    requires Reachable(w) && id in w.svc.tickets
    ensures Endings(w.Since(id), id) <= 1
    ensures w.svc.tickets[id].status.IsActive() ==> Endings(w.Since(id), id) == 0
  {
    ReachableSound(w);
    assert TicketSound(w, id);
  }

  /** In `u` the ticket that `w` has under `id`, if it is still there, is as ended as it was, and as often announced. */
  ghost predicate SameEnd(w: World, u: World, id: TicketID)
    requires id in w.svc.tickets
  {
    id in w.born && id in u.svc.tickets && id in u.born && u.born[id] == w.born[id] ==>
      && u.svc.tickets[id].status == w.svc.tickets[id].status && u.svc.tickets[id].endTime == w.svc.tickets[id].endTime
      && Endings(u.Since(id), id) == Endings(w.Since(id), id)
  }

  lemma SinceExec(w: World, cmd: Command, id: TicketID)
    requires id in w.svc.tickets && id in w.born && w.born[id] <= |w.log| && id in Exec(w, cmd).svc.tickets
    ensures var v := Exec(w, cmd);
            |v.log| >= |w.log| && v.Since(id) == w.Since(id) + v.log[|w.log|..]
  {
    hide Effect;
  }

  lemma EndedStaysOnce(w: World, u: World, cmd: Command, id: TicketID)
    requires id in w.svc.tickets && w.svc.tickets[id].Terminal() && TicketSound(w, id) && |w.log| <= |u.log|
    requires Sound(u) && Kept(u, Exec(u, cmd)) && SameEnd(w, u, id)
    ensures SameEnd(w, Exec(u, cmd), id) && |u.log| <= |Exec(u, cmd).log|
  {
    var v := Exec(u, cmd);
    hide Effect, Fit, OneBackfillPerSession, Endings, StateSound;
    if id in v.svc.tickets && v.born[id] == w.born[id] && id in u.svc.tickets {
      assert TicketSound(u, id) && KeptTicket(u, v, id);
      SinceExec(u, cmd, id);
      EndingsAppend(u.Since(id), v.log[|u.log|..], id);
    }
  }

  /** No run changes the status or end time of a ticket that has ended, or announces it again. */
  lemma {:induction false} EndedStays(worlds: seq<World>, cmds: seq<Command>, i: nat, j: nat, id: TicketID)
    requires FromEmpty(worlds, cmds) && i <= j < |worlds|
    requires id in worlds[i].svc.tickets && worlds[i].svc.tickets[id].status.IsTerminal()
    ensures SameEnd(worlds[i], worlds[j], id) && |worlds[i].log| <= |worlds[j].log|
  {
    hide Effect, SameEnd, Sound, Legal, TicketSound, Kept;
    NewWorldSound(worlds[0].svc.ticketRetention);
    RunSound(worlds, cmds, i);
    SoundTicket(worlds[i], id);
    if j == i {
      SameEndAtFirst(worlds[i], id);
    } else {
      EndedStays(worlds, cmds, i, j - 1, id);
      RunSound(worlds, cmds, j - 1);
      assert Leads(worlds, cmds, j - 1);
      ExecSound(worlds[j - 1], cmds[j - 1]);
      EndedStaysOnce(worlds[i], worlds[j - 1], cmds[j - 1], id);
    }
  }

  lemma SameEndAtFirst(w: World, id: TicketID)
    requires id in w.svc.tickets
    ensures SameEnd(w, w, id)
  {
  }

  lemma SoundTicket(w: World, id: TicketID)
    requires Sound(w) && id in w.svc.tickets
    ensures TicketSound(w, id)
  {
  }

  /** A configuration has at most one outstanding backfill request per game session. */
  lemma OneOutstandingBackfill(w: World, a: TicketID, b: TicketID)
    requires Reachable(w) && a in w.svc.tickets && b in w.svc.tickets
    requires var t, u := w.svc.tickets[a], w.svc.tickets[b];
             && t.config == u.config && t.gameSessionARN == u.gameSessionARN != ""
             && t.isBackfill && u.isBackfill && t.status.IsActive() && u.status.IsActive()
    ensures a == b
  {
    ReachableSound(w);
    assert Rivals(w.svc, a, b);
  }

  /** Ended tickets are kept for the configured time, or for three hours if none is configured. */
  function KeptFor(s: Service): Time {
    if s.ticketRetention > 0 then s.ticketRetention else 3 * 60 * 60 * 1_000_000_000
  }

  /** A configuration is swept once a minute, or as often as its tickets expire if that is sooner. */
  function SweptEvery(s: Service): Time {
    if 60 * 1_000_000_000 < KeptFor(s) then 60 * 1_000_000_000 else KeptFor(s)
  }

  lemma SweepTimes(s: Service)
    ensures s.Retention() == KeptFor(s) && s.CleanupInterval() == SweptEvery(s)
  {
  }

  /** A tick that reports no error leaves no ended ticket of its configuration older than retention and one interval. */
  lemma RetentionUpperBound(w: World, x: TickInput, id: TicketID)
    requires Reachable(w) && Legal(w, DoTick(x)) && !RunTick(x, w.svc).failed
    requires id in Exec(w, DoTick(x)).svc.tickets && Exec(w, DoTick(x)).svc.tickets[id].config == x.config
    ensures var t := Exec(w, DoTick(x)).svc.tickets[id];
            t.status.IsTerminal() ==> x.now - t.endTime < KeptFor(w.svc) + SweptEvery(w.svc)
  {
    hide Reachable, Sound, RunTick, Kept, KeptFor, SweptEvery;
    ReachableSound(w);
    SweepTimes(w.svc);
    TickSound(w, x);
    assert Fit(w.svc) by { SoundFit(w); }
    RunTickGrewRetention(x, w.svc);
    assert Young(Exec(w, DoTick(x)).svc, x.config, x.now, id);
  }

  lemma SoundFit(w: World)
    requires Sound(w)
    ensures Fit(w.svc)
  {
  }

  lemma RunTickGrewRetention(x: TickInput, s: Service)
    requires Fit(s)
    ensures RunTick(x, s).svc.ticketRetention == s.ticketRetention
  {
    if !x.refused && !x.engine.fails {
      RunTickGrew(x, s);
      hide Settle, Finalize, Apply, Sync;
    }
  }

  /** No command removes an active ticket, or an ended one before its retention has passed. */
  lemma RetentionLowerBound(worlds: seq<World>, cmds: seq<Command>, i: nat, id: TicketID)
    requires FromEmpty(worlds, cmds) && i < |cmds|
    requires id in worlds[i].svc.tickets && id !in worlds[i + 1].svc.tickets
    ensures worlds[i].svc.tickets[id].status.IsTerminal()
    ensures worlds[i + 1].clock - worlds[i].svc.tickets[id].endTime >= KeptFor(worlds[i].svc)
  {
    hide Sound, Effect, KeptFor;
    NewWorldSound(worlds[0].svc.ticketRetention);
    RunSound(worlds, cmds, i);
    assert Leads(worlds, cmds, i);
    ExecSound(worlds[i], cmds[i]);
    SweepTimes(worlds[i].svc);
    assert KeptTicket(worlds[i], worlds[i + 1], id);
  }

  /**
   A failing StartMatchBackfill registers nothing, ends nothing and emits nothing, even if the engine had already
   accepted the new ticket. Two traces can remain, and only where the engine took the new ticket and then refused to
   cancel the earlier request of the session: the rule metrics, if any were captured, stored on that request; and the
   reservation of the new id, if the engine could not be made to give the new ticket up again.
   */
  lemma FailedBackfillUndone(x: BackfillInput, s: Service)
    requires Fit(s) && StartMatchBackfill(x, s).outcome.Fail?
    ensures var r, plan := StartMatchBackfill(x, s), PlanBackfill(x, s);
            && r.batch == [] && r.svc == s.(tickets := r.svc.tickets, reserved := r.svc.reserved)
            && r.svc.tickets == (if HalfDone(x, s) && x.priorMetrics.Some?
                                 then s.tickets[plan.prior.value.id := plan.prior.value.SetRuleMetrics(x.priorMetrics.value)]
                                 else s.tickets)
            && r.svc.reserved == (if HalfDone(x, s) && (x.cancelNew.Fault? || x.evictNew.Fault?)
                                  then s.reserved + {plan.ticket.id} else s.reserved)
  {
    var plan := PlanBackfill(x, s);
    if plan.Replace? && !s.Taken(plan.ticket.id) {
      PlanSound(x, s);
      assert s.Reserve(plan.ticket.id).CancelReservation(plan.ticket.id) == s;
      hide PlanBackfill, ReplaceBackfill;
      if x.start.enqueue.Enqueued? {
        FailedReplacement(x, s, plan.ticket, plan.prior);
      }
    }
  }

  /** The engine took the new ticket, then refused to cancel the earlier one. */
  ghost predicate HalfDone(x: BackfillInput, s: Service) {
    && PlanBackfill(x, s).Replace? && !s.Taken(PlanBackfill(x, s).ticket.id) && PlanBackfill(x, s).prior.Some?
    && x.start.enqueue.Enqueued? && x.cancelPrior.Fault?
  }

  lemma FailedReplacement(x: BackfillInput, s: Service, t: TicketState, prior: Option<TicketState>)
    requires !s.Taken(t.id)
    requires prior.Some? ==> && prior.value.id in s.tickets && s.tickets[prior.value.id] == prior.value
                             && Pooled(prior.value.status) && prior.value.events == []
    requires ReplaceBackfill(x, s.Reserve(t.id), t, prior).outcome.Fail?
    ensures prior.Some? && x.cancelPrior.Fault?
    ensures var r := ReplaceBackfill(x, s.Reserve(t.id), t, prior);
            && r.batch == [] && r.svc == s.(tickets := r.svc.tickets, reserved := r.svc.reserved)
            && r.svc.tickets == (if x.priorMetrics.Some?
                                 then s.tickets[prior.value.id := prior.value.SetRuleMetrics(x.priorMetrics.value)]
                                 else s.tickets)
            && r.svc.reserved == if x.cancelNew.Fault? || x.evictNew.Fault? then s.reserved + {t.id} else s.reserved
  {
    var u := SupersedeCases(x, s.Reserve(t.id), prior.value);
    assert s.tickets[prior.value.id := prior.value] == s.tickets;
    assert s.reserved + {t.id} - {t.id} == s.reserved;
    hide Evolves, Announced, Service.Commit, Service.Save, TicketState.MarkCancelled;
  }
}
