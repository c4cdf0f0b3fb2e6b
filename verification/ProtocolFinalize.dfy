/** The second pass under the engine contract: completing the tickets of finished matches. */
module ProtocolFinalize {
  import opened Wrappers
  import opened Domain
  import opened RosterKey
  import opened ProposalTracking
  import opened ServiceState
  import opened Tick
  import opened Commands
  import opened Runs
  import opened AnyEngine
  import opened Traces
  import opened EngineContract
  import opened Protocol
  import opened ProtocolSettle

  // ----- the tickets of one match

  predicate Finalizable(x: TickInput, t: TicketState, id: TicketID) {
    && t.id == id && t.events == [] && id !in x.engine.completeFails
    && (Pooled(t.status) || t.status.RequiresAcceptance?)
  }

  /** The completed ticket of a match. */
  function Finished(x: TickInput, t: TicketState, m: MatchID, teams: map<PlayerID, string>): TicketState {
    t.(status := Completed, endTime := x.now, matchID := if m != "" then m else t.matchID,
       playerTeams := t.playerTeams + TeamsOf(t.players, teams))
  }

  /** Some ticket of the match was asked to accept it. */
  predicate Asked(x: TickInput, s: Service, ids: seq<TicketID>) {
    x.acceptanceRequired && exists id <- ids :: id in s.tickets && s.tickets[id].status.RequiresAcceptance?
  }

  lemma FinalizeTicketExact(x: TickInput, w: Work, m: MatchID, teams: map<PlayerID, string>, id: TicketID)
    requires !w.failed && id in w.svc.tickets && Finalizable(x, w.svc.tickets[id], id)
    ensures FinalizeTicket(x, w, m, teams, id)
         == (w.(svc := w.svc.Save(Finished(x, w.svc.tickets[id], m, teams))),
             x.acceptanceRequired && w.svc.tickets[id].status.RequiresAcceptance?)
  {
    hide TeamsOf;
  }

  /** `v` differs from `w` only in that the listed tickets are finished. */
  ghost predicate AllFinished(x: TickInput, w: Work, v: Work, m: MatchID, teams: map<PlayerID, string>,
                              ids: seq<TicketID>) {
    && !v.failed && v.batch == w.batch && v.svc.trackers == w.svc.trackers && v.svc.tickets.Keys == w.svc.tickets.Keys
    && (forall id <- ids :: id in w.svc.tickets && v.svc.tickets[id] == Finished(x, w.svc.tickets[id], m, teams))
    && (forall k <- w.svc.tickets | k !in ids :: v.svc.tickets[k] == w.svc.tickets[k])
  }

  lemma {:induction false} FinalizeTicketsExact(x: TickInput, w: Work, m: MatchID, teams: map<PlayerID, string>,
                                                ids: seq<TicketID>, settled: bool)
    requires !w.failed && NoDuplicates(ids)
    requires forall id <- ids :: id in w.svc.tickets && Finalizable(x, w.svc.tickets[id], id)
    ensures var r := FinalizeTickets(x, w, m, teams, ids, settled);
            AllFinished(x, w, r.0, m, teams, ids) && r.1 == (settled || Asked(x, w.svc, ids))
    decreases |ids|
  {
    if ids != [] {
      var id := ids[0];
      assert id in ids;
      FinalizeTicketExact(x, w, m, teams, id);
      FinishedID(x, w.svc.tickets[id], m, teams);
      var (w1, s1) := FinalizeTicket(x, w, m, teams, id);
      hide FinalizeTicket, Finished, Service.SyncIndex;
      assert w1.svc.tickets == w.svc.tickets[id := Finished(x, w.svc.tickets[id], m, teams)];
      assert w1.svc.trackers == w.svc.trackers;
      hide Finalizable, Service.Save;
      AskedFirst(x, w.svc, w1.svc, ids);
      hide Asked;
      forall k <- ids[1..] ensures k in w1.svc.tickets && Finalizable(x, w1.svc.tickets[k], k) {
        assert k in ids && k != id;
      }
      FinalizeTicketsExact(x, w1, m, teams, ids[1..], settled || s1);
      FinishedFirst(x, w, w1, FinalizeTickets(x, w1, m, teams, ids[1..], settled || s1).0, m, teams, ids);
      hide AllFinished;
    }
  }

  lemma FinishedFirst(x: TickInput, w: Work, w1: Work, v: Work, m: MatchID, teams: map<PlayerID, string>,
                      ids: seq<TicketID>)
    requires ids != [] && NoDuplicates(ids) && ids[0] in w.svc.tickets
    requires w1.svc.tickets == w.svc.tickets[ids[0] := Finished(x, w.svc.tickets[ids[0]], m, teams)]
    requires w1.batch == w.batch && w1.svc.trackers == w.svc.trackers
    requires AllFinished(x, w1, v, m, teams, ids[1..])
    ensures AllFinished(x, w, v, m, teams, ids)
  {
    hide Finished;
    assert ids[0] !in ids[1..];
    forall id <- ids ensures id in w.svc.tickets && v.svc.tickets[id] == Finished(x, w.svc.tickets[id], m, teams) {
      if id == ids[0] {
        assert v.svc.tickets[id] == w1.svc.tickets[id];
      } else {
        assert id in ids[1..];
      }
    }
  }

  lemma FinishedID(x: TickInput, t: TicketState, m: MatchID, teams: map<PlayerID, string>)
    ensures Finished(x, t, m, teams).id == t.id && Finished(x, t, m, teams).config == t.config
  {
  }

  lemma AskedFirst(x: TickInput, s: Service, r: Service, ids: seq<TicketID>)
    requires ids != [] && NoDuplicates(ids) && ids[0] in s.tickets && r.tickets.Keys == s.tickets.Keys
    requires forall id <- s.tickets | id != ids[0] :: r.tickets[id] == s.tickets[id]
    ensures Asked(x, s, ids) <==> (x.acceptanceRequired && s.tickets[ids[0]].status.RequiresAcceptance?) || Asked(x, r, ids[1..])
  {
    assert forall id :: id in ids <==> id == ids[0] || id in ids[1..];
    if Asked(x, s, ids) && !s.tickets[ids[0]].status.RequiresAcceptance? {
      var id :| id in ids && id in s.tickets && s.tickets[id].status.RequiresAcceptance?;
      assert id in ids[1..] && r.tickets[id] == s.tickets[id];
    }
    if Asked(x, r, ids[1..]) {
      var id :| id in ids[1..] && id in r.tickets && r.tickets[id].status.RequiresAcceptance?;
      assert id in ids && id != ids[0];
    }
  }

  // ----- one match

  /** The id a finished match is announced under. */
  function AnnouncedID(x: TickInput, s: Service, m: Match): MatchID {
    match s.TrackerOf(x.config).Known(m.ticketIDs)
    case Some(k) => k
    case None => m.newID
  }

  /** The announcement of a finished match. */
  function Success(x: TickInput, s: Service, m: Match): seq<Event> {
    var k := AnnouncedID(x, s, m);
    (if s.TrackerOf(x.config).Known(m.ticketIDs).Some? then [] else [PotentialMatchCreated(k, m.ticketIDs, m.metrics)])
    + (if Asked(x, s, m.ticketIDs) then [AcceptMatchCompleted(k, m.ticketIDs, Accepted)] else [])
    + [MatchmakingSucceeded(k, m.ticketIDs)]
  }

  /** The announcement of a match whose tickets accepted it, and of one that nobody was asked about. */
  function AcceptedSuccess(k: MatchID, m: Match): seq<Event> {
    [AcceptMatchCompleted(k, m.ticketIDs, Accepted), MatchmakingSucceeded(k, m.ticketIDs)]
  }

  function DirectSuccess(k: MatchID, m: Match): seq<Event> {
    [PotentialMatchCreated(k, m.ticketIDs, m.metrics), MatchmakingSucceeded(k, m.ticketIDs)]
  }

  /** The tracker once a finished match is forgotten. */
  function TrackerAfter(x: TickInput, s: Service, m: Match): Tracker {
    var tracker := s.TrackerOf(x.config);
    match tracker.Known(m.ticketIDs)
    case Some(k) => tracker.Forget(k)
    case None => tracker.AssignAt(m.ticketIDs, m.newID, 0).Forget(m.newID)
  }

  /** The tickets are completed under the known id, or under a new one that is tracked first. */
  function Identified(x: TickInput, w: Work, m: Match): Work {
    var tracker := w.svc.TrackerOf(x.config);
    if tracker.Known(m.ticketIDs).Some? then w
    else w.(svc := w.svc.SetTracker(x.config, tracker.AssignAt(m.ticketIDs, m.newID, 0)))
  }

  lemma FinalizeMatchIs(x: TickInput, w: Work, m: Match, w2: Work)
    requires FinalizeTickets(x, Identified(x, w, m), AnnouncedID(x, w.svc, m), m.teams, m.ticketIDs, false)
          == (w2, Asked(x, w.svc, m.ticketIDs))
    requires !w2.failed && w2.batch == w.batch && w2.svc.trackers == Identified(x, w, m).svc.trackers
    ensures FinalizeMatch(x, w, m)
         == w2.(svc := w2.svc.SetTracker(x.config, TrackerAfter(x, w.svc, m)), batch := w.batch + Success(x, w.svc, m))
  {
    hide Key, Tracker.Forget, Tracker.AssignAt, FinalizeTickets, Asked;
  }

  lemma FinalizeMatchBody(x: TickInput, w: Work, m: Match)
    requires !w.failed && NoDuplicates(m.ticketIDs)
    requires forall id <- m.ticketIDs :: id in w.svc.tickets && Finalizable(x, w.svc.tickets[id], id)
    ensures var v := FinalizeMatch(x, w, m);
            && !v.failed && v.batch == w.batch + Success(x, w.svc, m) && v.svc.tickets.Keys == w.svc.tickets.Keys
            && (forall id <- m.ticketIDs :: v.svc.tickets[id] == Finished(x, w.svc.tickets[id], AnnouncedID(x, w.svc, m), m.teams))
            && (forall k <- w.svc.tickets | k !in m.ticketIDs :: v.svc.tickets[k] == w.svc.tickets[k])
            && v.svc.TrackerOf(x.config) == TrackerAfter(x, w.svc, m)
            && (forall d | d != x.config :: v.svc.TrackerOf(d) == w.svc.TrackerOf(d))
  {
    hide Key, Finished, Tracker.Forget, Tracker.AssignAt, FinalizeTickets, Finalizable, FinalizeMatch, TrackerAfter, Success,
         AnnouncedID;
    hide Identified, Asked;
    var k, w1 := AnnouncedID(x, w.svc, m), Identified(x, w, m);
    IdentifiedSame(x, w, m);
    FinalizeTicketsExact(x, w1, k, m.teams, m.ticketIDs, false);
    var w2 := FinalizeTickets(x, w1, k, m.teams, m.ticketIDs, false).0;
    FinalizeMatchIs(x, w, m, w2);
  }

  lemma IdentifiedSame(x: TickInput, w: Work, m: Match)
    ensures var v := Identified(x, w, m);
            && v.svc.tickets == w.svc.tickets && v.batch == w.batch && v.failed == w.failed
            && (Asked(x, v.svc, m.ticketIDs) <==> Asked(x, w.svc, m.ticketIDs))
            && (forall d | d != x.config :: v.svc.TrackerOf(d) == w.svc.TrackerOf(d))
  {
    hide Key, Tracker.AssignAt;
  }

  /** Events that all name the same roster and match. */
  predicate SameSubject(events: seq<Event>, m: MatchID, ids: seq<TicketID>) {
    forall e <- events :: e.About(m) && e.ticketIDs == ids
  }

  lemma {:induction false} SubjectNamed(batch: seq<Event>, events: seq<Event>, m: MatchID, ids: seq<TicketID>,
                                        id: TicketID)
    requires SameSubject(events, m, ids)
    ensures Named(batch + events, id) == if id in ids then Named(batch, id) + events else Named(batch, id)
  {
    if events == [] {
      assert batch + events == batch;
    } else {
      hide Named;
      var front, last := events[..|events| - 1], events[|events| - 1];
      assert events == front + [last] && last in events && forall e <- front :: e in events;
      SubjectNamed(batch, front, m, ids, id);
      SubjectNamedOne(batch, front, last, m, ids, id);
    }
  }

  lemma SubjectNamedOne(batch: seq<Event>, front: seq<Event>, last: Event, m: MatchID, ids: seq<TicketID>, id: TicketID)
    requires last.About(m) && last.ticketIDs == ids
    requires Named(batch + front, id) == if id in ids then Named(batch, id) + front else Named(batch, id)
    ensures Named(batch + (front + [last]), id) == if id in ids then Named(batch, id) + (front + [last]) else Named(batch, id)
  {
    hide Named;
    NamedOne(batch + front, last, id);
    assert batch + (front + [last]) == (batch + front) + [last];
    assert Named(batch, id) + (front + [last]) == (Named(batch, id) + front) + [last];
  }

  lemma {:induction false} SubjectAbout(batch: seq<Event>, events: seq<Event>, m: MatchID, ids: seq<TicketID>,
                                        k: MatchID)
    requires SameSubject(events, m, ids)
    ensures AboutMatch(batch + events, k) == if k == m then AboutMatch(batch, k) + events else AboutMatch(batch, k)
  {
    if events == [] {
      assert batch + events == batch;
    } else {
      hide AboutMatch;
      var front, last := events[..|events| - 1], events[|events| - 1];
      assert events == front + [last] && last in events && forall e <- front :: e in events;
      SubjectAbout(batch, front, m, ids, k);
      SubjectAboutOne(batch, front, last, m, ids, k);
    }
  }

  lemma SubjectAboutOne(batch: seq<Event>, front: seq<Event>, last: Event, m: MatchID, ids: seq<TicketID>, k: MatchID)
    requires last.About(m) && last.ticketIDs == ids
    requires AboutMatch(batch + front, k) == if k == m then AboutMatch(batch, k) + front else AboutMatch(batch, k)
    ensures AboutMatch(batch + (front + [last]), k)
         == if k == m then AboutMatch(batch, k) + (front + [last]) else AboutMatch(batch, k)
  {
    hide AboutMatch;
    AboutOne(batch + front, last, k);
    assert batch + (front + [last]) == (batch + front) + [last];
    assert AboutMatch(batch, k) + (front + [last]) == (AboutMatch(batch, k) + front) + [last];
  }

  /** Everything finalizing a match does to one of its tickets. */
  predicate Concluded(x: TickInput, w: Work, v: Work, m: Match, id: TicketID) {
    && id in w.svc.tickets && id in v.svc.tickets
    && v.svc.tickets[id] == Finished(x, w.svc.tickets[id], AnnouncedID(x, w.svc, m), m.teams)
    && Named(v.batch, id) == Named(w.batch, id) + Success(x, w.svc, m)
  }

  /** Finalizing a match completes its tickets, announces it, and forgets it; nothing else changes. */
  lemma FinalizeMatchExact(x: TickInput, w: Work, m: Match)
    requires !w.failed && NoDuplicates(m.ticketIDs)
    requires forall id <- m.ticketIDs :: id in w.svc.tickets && Finalizable(x, w.svc.tickets[id], id)
    ensures var v, k := FinalizeMatch(x, w, m), AnnouncedID(x, w.svc, m);
            && !v.failed && v.svc.tickets.Keys == w.svc.tickets.Keys
            && (forall id <- m.ticketIDs :: Concluded(x, w, v, m, id))
            && (forall id <- w.svc.tickets | id !in m.ticketIDs :: Untouched(w, v, id))
            && (forall j | j != k :: AboutMatch(v.batch, j) == AboutMatch(w.batch, j))
            && AboutMatch(v.batch, k) == AboutMatch(w.batch, k) + Success(x, w.svc, m)
            && v.svc.TrackerOf(x.config) == TrackerAfter(x, w.svc, m)
            && (forall d | d != x.config :: v.svc.TrackerOf(d) == w.svc.TrackerOf(d))
  {
    FinalizeMatchBody(x, w, m);
    SuccessSubject(x, w.svc, m);
    hide FinalizeMatch, Finalizable, Finished, Key, Named, AboutMatch, Success, AnnouncedID, TrackerAfter, SameSubject;
    var e, k := Success(x, w.svc, m), AnnouncedID(x, w.svc, m);
    forall id
      ensures Named(w.batch + e, id) == if id in m.ticketIDs then Named(w.batch, id) + e else Named(w.batch, id) {
      SubjectNamed(w.batch, e, k, m.ticketIDs, id);
    }
    forall j
      ensures AboutMatch(w.batch + e, j) == if j == k then AboutMatch(w.batch, j) + e else AboutMatch(w.batch, j) {
      SubjectAbout(w.batch, e, k, m.ticketIDs, j);
    }
  }

  lemma SuccessSubject(x: TickInput, s: Service, m: Match)
    ensures SameSubject(Success(x, s, m), AnnouncedID(x, s, m), m.ticketIDs)
  {
    hide Asked, Key;
  }

  // ----- the tracker and the key of a roster

  /** A tracked roster is found under any order of its tickets. */
  lemma KnownRoster(g: Session, w: Work, used: set<MatchID>, c: ConfigurationName, m: MatchID, ids: seq<TicketID>)
    requires Mid(g, w, used) && Tracked(w.svc, c, m) && multiset(Roster(w.svc, c, m)) == multiset(ids)
    ensures w.svc.TrackerOf(c).Known(ids) == Some(m)
  {
    hide Key, TicketRel, RosterRel, OpenRel, MatchRel;
    KeyIgnoresOrder(Roster(w.svc, c, m), ids);
    assert w.svc.TrackerOf(c).Coherent();
  }

  lemma KnownTracked(tracker: Tracker, ids: seq<TicketID>)
    requires tracker.Coherent()
    ensures tracker.Known(ids).Some? ==> tracker.Known(ids).value in tracker.byMatch
  {
    hide Key;
  }

  /** A roster that is found is a permutation of the one tracked. */
  lemma KnownMeans(g: Session, w: Work, used: set<MatchID>, c: ConfigurationName, ids: seq<TicketID>)
    requires Mid(g, w, used) && ids != [] && PlainIDs(ids) && w.svc.TrackerOf(c).Known(ids).Some?
    ensures var m := w.svc.TrackerOf(c).Known(ids).value;
            Tracked(w.svc, c, m) && multiset(Roster(w.svc, c, m)) == multiset(ids)
  {
    hide Key, TicketRel, RosterRel, OpenRel, MatchRel;
    assert w.svc.TrackerOf(c).Coherent();
    var m := w.svc.TrackerOf(c).Known(ids).value;
    RosterPlain(g, w, used, c, m);
    KeyFaithful(Roster(w.svc, c, m), ids);
  }

  // ----- the invariant

  /** The roster of this match is tracked as `m`. */
  predicate Proposed(x: TickInput, s: Service, mt: Match, m: MatchID) {
    Tracked(s, x.config, m) && multiset(Roster(s, x.config, m)) == multiset(mt.ticketIDs)
  }

  /** Where acceptance is required the match is a tracked proposal; elsewhere its tickets wait in the pool. */
  ghost predicate Ready(x: TickInput, s: Service, used: set<MatchID>, mt: Match) {
    && mt.ticketIDs != [] && NoDuplicates(mt.ticketIDs)
    && (forall id <- mt.ticketIDs :: id in s.tickets && s.tickets[id].config == x.config
                                     && id !in x.engine.completeFails && InMatches(x.engine, id))
    && if x.acceptanceRequired then exists m :: Proposed(x, s, mt, m)
       else
         && s.TrackerOf(x.config).byMatch == map[] && mt.newID != "" && mt.newID !in used
         && (forall id <- mt.ticketIDs :: Pooled(s.tickets[id].status))
  }

  lemma SameElements(a: seq<TicketID>, b: seq<TicketID>)
    requires multiset(a) == multiset(b)
    ensures forall id :: id in a <==> id in b
  {
    forall id ensures id in a <==> id in b {
      assert id in a <==> id in multiset(a);
      assert id in b <==> id in multiset(b);
    }
  }

  /** What finalizing a ready match announces, and under which id. */
  lemma ReadyCases(g: Session, x: TickInput, w: Work, used: set<MatchID>, mt: Match)
    requires TickMid(g, x, w, used) && Ready(x, w.svc, used, mt)
    ensures var k := AnnouncedID(x, w.svc, mt);
            if x.acceptanceRequired then
              && Proposed(x, w.svc, mt, k)
              && Success(x, w.svc, mt) == AcceptedSuccess(k, mt)
            else
              && k == mt.newID && (forall d :: !Tracked(w.svc, d, k))
              && Success(x, w.svc, mt) == DirectSuccess(k, mt)
    ensures TrackerAfter(x, w.svc, mt) == w.svc.TrackerOf(x.config).Forget(AnnouncedID(x, w.svc, mt))
  {
    hide Key, Grew, TicketRel, MatchRel, EndedInTick;
    var tracker := w.svc.TrackerOf(x.config);
    assert tracker.Coherent();
    if x.acceptanceRequired {
      var m :| Proposed(x, w.svc, mt, m);
      KnownRoster(g, w, used, x.config, m, mt.ticketIDs);
      assert RosterRel(w.svc, x.config, m);
      var id := mt.ticketIDs[0];
      SameElements(Roster(w.svc, x.config, m), mt.ticketIDs);
      assert id in mt.ticketIDs && InRoster(w.svc, x.config, m, id);
      assert Asked(x, w.svc, mt.ticketIDs);
    } else {
      forall d ensures !Tracked(w.svc, d, mt.newID) {
        assert Tracked(w.svc, d, mt.newID) ==> OpenRel(g, w, used, d, mt.newID);
      }
      KnownTracked(tracker, mt.ticketIDs);
      hide RosterRel, OpenRel;
      tracker.AssignThenForget(mt.ticketIDs, mt.newID, 0);
    }
  }

  /** The tickets of a ready match may be finalized, and stand where the announcement finds them. */
  lemma ReadyTicket(g: Session, x: TickInput, w: Work, used: set<MatchID>, mt: Match, id: TicketID)
    requires TickMid(g, x, w, used) && Ready(x, w.svc, used, mt) && id in mt.ticketIDs
    ensures id in w.svc.tickets && Finalizable(x, w.svc.tickets[id], id) && TicketRel(g, w, id)
    ensures forall m :: x.acceptanceRequired && Proposed(x, w.svc, mt, m) ==> StatusPhase(w.svc.tickets[id]) == InMatch(m)
    ensures !x.acceptanceRequired ==> StatusPhase(w.svc.tickets[id]) == Waiting
  {
    hide Key, OpenRel, MatchRel, EndedInTick, Walk, Named;
    assert TicketRel(g, w, id);
    DuringTick(g, x, w, used, id);
    hide Grew, TickMid, Mid;
    if x.acceptanceRequired {
      forall m | Proposed(x, w.svc, mt, m)
        ensures StatusPhase(w.svc.tickets[id]) == InMatch(m) && w.svc.tickets[id].status.RequiresAcceptance? {
        assert RosterRel(w.svc, x.config, m) by { MidRoster(g, w, used, x.config, m); }
        SameElements(Roster(w.svc, x.config, m), mt.ticketIDs);
        assert InRoster(w.svc, x.config, m, id);
      }
    }
  }

  lemma MidRoster(g: Session, w: Work, used: set<MatchID>, c: ConfigurationName, m: MatchID)
    requires Mid(g, w, used) && Tracked(w.svc, c, m)
    ensures RosterRel(w.svc, c, m)
  {
  }

  lemma ConcludedPhase(x: TickInput, s: Service, mt: Match, before: seq<Event>, p: Phase)
    requires Walk(Unborn, before) == p
    requires var k := AnnouncedID(x, s, mt);
             || (p == InMatch(k) && Success(x, s, mt) == AcceptedSuccess(k, mt))
             || (p == Waiting && Success(x, s, mt) == DirectSuccess(k, mt))
    ensures Walk(Unborn, before + Success(x, s, mt)) == Over
  {
    hide Success, AnnouncedID;
    var e := Success(x, s, mt);
    assert before + e == (before + [e[0]]) + [e[1]];
    WalkOne(Unborn, before, e[0]);
    WalkOne(Unborn, before + [e[0]], e[1]);
  }

  lemma ConcludedTicketRel(g: Session, x: TickInput, w: Work, v: Work, used: set<MatchID>, mt: Match, id: TicketID)
    requires TickMid(g, x, w, used) && Ready(x, w.svc, used, mt) && id in mt.ticketIDs && Concluded(x, w, v, mt, id)
    ensures TicketRel(g, v, id) && EndedInTick(g, x, v, id)
  {
    hide TickMid, Success, AnnouncedID, TrackerAfter, Named, Key, InMatches, TicketRel, Concluded, Roster;
    ReadyCases(g, x, w, used, mt);
    ReadyTicket(g, x, w, used, mt, id);
    assert InMatches(x.engine, id);
    hide Ready;
    ConcludedTicket(g, x, w, v, mt, id, StatusPhase(w.svc.tickets[id]));
  }

  lemma ConcludedTicket(g: Session, x: TickInput, w: Work, v: Work, mt: Match, id: TicketID, p: Phase)
    requires Concluded(x, w, v, mt, id) && TicketRel(g, w, id) && p == StatusPhase(w.svc.tickets[id])
    requires InMatches(x.engine, id)
    requires var k := AnnouncedID(x, w.svc, mt);
             || (p == InMatch(k) && Success(x, w.svc, mt) == AcceptedSuccess(k, mt))
             || (p == Waiting && Success(x, w.svc, mt) == DirectSuccess(k, mt))
    ensures TicketRel(g, v, id) && EndedInTick(g, x, v, id)
  {
    hide Success, AnnouncedID, Named, InMatches;
    assert Trace(g, v, id) == Trace(g, w, id) + Success(x, w.svc, mt);
    ConcludedPhase(x, w.svc, mt, Trace(g, w, id), p);
    hide Walk, Trace, TeamsOf;
  }

  lemma ConcludedMatchRel(g: Session, x: TickInput, w: Work, v: Work, used: set<MatchID>, mt: Match)
    requires TickMid(g, x, w, used) && Ready(x, w.svc, used, mt)
    requires var k := AnnouncedID(x, w.svc, mt); AboutMatch(v.batch, k) == AboutMatch(w.batch, k) + Success(x, w.svc, mt)
    ensures MatchRel(g, v, used + {mt.newID}, AnnouncedID(x, w.svc, mt))
  {
    hide Success, AnnouncedID, TrackerAfter, Key, AboutMatch, Grew, TicketRel, RosterRel, EndedInTick,
         MergedAcceptances;
    ReadyCases(g, x, w, used, mt);
    var k := AnnouncedID(x, w.svc, mt);
    assert x.acceptanceRequired ==> OpenRel(g, w, used, x.config, k);
    assert MatchRel(g, w, used, k);
    hide TickMid, Mid, MatchWalk;
    ConcludedMatch(g, x, w, v, used, mt);
  }

  lemma ConcludedMatch(g: Session, x: TickInput, w: Work, v: Work, used: set<MatchID>, mt: Match)
    requires var k := AnnouncedID(x, w.svc, mt); AboutMatch(v.batch, k) == AboutMatch(w.batch, k) + Success(x, w.svc, mt)
    requires var k := AnnouncedID(x, w.svc, mt);
             MatchRel(g, w, used, k)
             && if x.acceptanceRequired then
                  && Proposed(x, w.svc, mt, k) && OpenRel(g, w, used, x.config, k)
                  && Success(x, w.svc, mt) == AcceptedSuccess(k, mt)
                else
                  && k == mt.newID && k !in used
                  && Success(x, w.svc, mt) == DirectSuccess(k, mt)
    ensures MatchRel(g, v, used + {mt.newID}, AnnouncedID(x, w.svc, mt))
  {
    hide Success, AnnouncedID, AboutMatch, MergedAcceptances;
    var k, e := AnnouncedID(x, w.svc, mt), Success(x, w.svc, mt);
    var before := MatchTrace(g, w, k);
    assert MatchTrace(g, v, k) == before + e;
    hide MatchTrace;
    assert before + e == (before + [e[0]]) + [e[1]];
    MatchWalkOne(Unused, before, e[0]);
    MatchWalkOne(Unused, before + [e[0]], e[1]);
  }

  /** The tickets of a ready match are in no tracked roster but its own, and no other configuration tracks it. */
  ghost predicate Alone(x: TickInput, s: Service, ids: seq<TicketID>, k: MatchID) {
    && (forall j | j != k && Tracked(s, x.config, j) :: forall id <- Roster(s, x.config, j) :: id !in ids)
    && (Tracked(s, x.config, k) ==> forall id <- Roster(s, x.config, k) :: id in ids)
    && (forall d | d != x.config :: !Tracked(s, d, k))
    && (forall id <- ids :: id in s.tickets && s.tickets[id].config == x.config)
  }

  lemma ReadyAlone(g: Session, x: TickInput, w: Work, used: set<MatchID>, mt: Match)
    requires TickMid(g, x, w, used) && Ready(x, w.svc, used, mt)
    ensures Alone(x, w.svc, mt.ticketIDs, AnnouncedID(x, w.svc, mt))
  {
    var c, k := x.config, AnnouncedID(x, w.svc, mt);
    hide AnnouncedID, Success, TrackerAfter, Key, Mid, Grew, EndedInTick;
    ReadyCases(g, x, w, used, mt);
    if x.acceptanceRequired {
      RosterAlone(g, w, used, c, k);
      SameElements(Roster(w.svc, c, k), mt.ticketIDs);
      forall d | d != c ensures !Tracked(w.svc, d, k) {
        if Tracked(w.svc, d, k) { TrackedOnce(g, w, used, c, d, k); }
      }
    }
  }

  lemma ConcludedTouches(w: Work, v: Work, x: TickInput, ids: seq<TicketID>, k: MatchID)
    requires Alone(x, w.svc, ids, k) && w.svc.TrackerOf(x.config).Coherent()
    requires v.svc.tickets.Keys == w.svc.tickets.Keys
    requires forall id <- w.svc.tickets | id !in ids :: Untouched(w, v, id)
    requires forall j | j != k :: AboutMatch(v.batch, j) == AboutMatch(w.batch, j)
    requires v.svc.TrackerOf(x.config) == w.svc.TrackerOf(x.config).Forget(k)
    requires forall d | d != x.config :: v.svc.TrackerOf(d) == w.svc.TrackerOf(d)
    ensures Touches(w, v, x.config, IDSet(ids), k)
    ensures v.svc.TrackerOf(x.config).Coherent() && forall d :: !Tracked(v.svc, d, k)
  {
    w.svc.TrackerOf(x.config).ForgetKeepsCoherent(k);
    hide Key, Named, AboutMatch, Tracker.Forget, Tracker.Coherent;
    forall id <- w.svc.tickets | id !in ids
      ensures v.svc.tickets[id] == w.svc.tickets[id] && Named(v.batch, id) == Named(w.batch, id) {
      assert Untouched(w, v, id);
    }
    forall d ensures !Tracked(v.svc, d, k) {
      assert d != x.config ==> !Tracked(w.svc, d, k) && v.svc.TrackerOf(d) == w.svc.TrackerOf(d);
    }
  }

  lemma FinalizeMatchMid(g: Session, x: TickInput, w: Work, used: set<MatchID>, mt: Match)
    requires TickMid(g, x, w, used) && Ready(x, w.svc, used, mt)
    ensures var v := FinalizeMatch(x, w, mt);
            && TickMid(g, x, v, used + {mt.newID})
            && v.svc.TrackerOf(x.config) == w.svc.TrackerOf(x.config).Forget(AnnouncedID(x, w.svc, mt))
            && (forall id <- w.svc.tickets | id !in mt.ticketIDs :: Untouched(w, v, id))
  {
    var v, k := FinalizeMatch(x, w, mt), AnnouncedID(x, w.svc, mt);
    hide FinalizeMatch, AnnouncedID, Success, TrackerAfter, Key, Named, AboutMatch, TicketRel, RosterRel, OpenRel,
         MatchRel;
    forall id <- mt.ticketIDs ensures id in w.svc.tickets && Finalizable(x, w.svc.tickets[id], id) {
      ReadyTicket(g, x, w, used, mt, id);
    }
    ReadyCases(g, x, w, used, mt);
    FinalizeMatchExact(x, w, mt);
    FinalizeMatchGrew(x, w, mt);
    GrewTransitive(Work(g.world.svc, [], false), w, v, x.now);
    hide Grew, Finalizable;
    ReadyAlone(g, x, w, used, mt);
    assert w.svc.TrackerOf(x.config).Coherent();
    ConcludedTouches(w, v, x, mt.ticketIDs, k);
    ConcludedMatchRel(g, x, w, v, used, mt);
    forall id <- mt.ticketIDs ensures id in v.svc.tickets && TicketRel(g, v, id) && EndedInTick(g, x, v, id) {
      ConcludedTicketRel(g, x, w, v, used, mt, id);
    }
    hide Ready;
    StepMid(g, w, v, used, used + {mt.newID}, x.config, IDSet(mt.ticketIDs), k);
    hide Mid, Touches;
    forall id <- v.svc.tickets ensures EndedInTick(g, x, v, id) {
      if id !in mt.ticketIDs { assert Untouched(w, v, id) && EndedInTick(g, x, w, id); }
    }
  }

  // ----- the whole pass

  /** The rosters share no ticket, and each match would be given another id. */
  ghost predicate MatchesApart(matches: seq<Match>) {
    forall i, j | 0 <= i < j < |matches| ::
      Apart(matches[i].ticketIDs, matches[j].ticketIDs) && matches[i].newID != matches[j].newID
  }

  function MatchNewIDs(matches: seq<Match>): set<MatchID> {
    set m <- matches :: m.newID
  }

  predicate AmongMatches(x: TickInput, s: Service, matches: seq<Match>, m: MatchID) {
    exists mt <- matches :: Proposed(x, s, mt, m)
  }

  lemma ReadyLater(g: Session, x: TickInput, w: Work, v: Work, used: set<MatchID>, first: Match, mt: Match)
    requires TickMid(g, x, w, used) && Ready(x, w.svc, used, first) && Ready(x, w.svc, used, mt)
    requires Apart(first.ticketIDs, mt.ticketIDs) && first.newID != mt.newID
    requires v.svc.TrackerOf(x.config) == w.svc.TrackerOf(x.config).Forget(AnnouncedID(x, w.svc, first))
    requires forall id <- w.svc.tickets | id !in first.ticketIDs :: Untouched(w, v, id)
    ensures Ready(x, v.svc, used + {first.newID}, mt)
  {
    var k := AnnouncedID(x, w.svc, first);
    hide TickMid, AnnouncedID, Success, TrackerAfter, Key, Named, Tracker.Forget, Ready;
    ReadyCases(g, x, w, used, first);
    TickCoherent(g, x, w, used);
    ForgetWithin(w.svc.TrackerOf(x.config), k);
    ReadyStill(x, w.svc, v.svc, used, first, mt, k);
  }

  lemma TickCoherent(g: Session, x: TickInput, w: Work, used: set<MatchID>)
    requires TickMid(g, x, w, used)
    ensures w.svc.TrackerOf(x.config).Coherent()
  {
  }

  lemma ReadyStill(x: TickInput, s: Service, r: Service, used: set<MatchID>, first: Match, mt: Match, k: MatchID)
    requires Ready(x, s, used, mt) && Apart(first.ticketIDs, mt.ticketIDs) && first.newID != mt.newID
    requires x.acceptanceRequired ==> Proposed(x, s, first, k)
    requires Within(s.TrackerOf(x.config), r.TrackerOf(x.config))
    requires forall j :: j in r.TrackerOf(x.config).byMatch <==> j in s.TrackerOf(x.config).byMatch && j != k
    requires forall id <- s.tickets | id !in first.ticketIDs :: id in r.tickets && r.tickets[id] == s.tickets[id]
    ensures Ready(x, r, used + {first.newID}, mt)
  {
    if x.acceptanceRequired {
      var m :| Proposed(x, s, mt, m);
      SameElements(Roster(s, x.config, m), mt.ticketIDs);
      SameElements(Roster(s, x.config, k), first.ticketIDs);
      assert mt.ticketIDs[0] in mt.ticketIDs;
      assert Proposed(x, r, mt, m);
    } else {
      assert r.TrackerOf(x.config).byMatch == map[];
    }
  }

  lemma FinalizeFirst(g: Session, x: TickInput, w: Work, used: set<MatchID>, matches: seq<Match>)
    requires matches != [] && TickMid(g, x, w, used) && MatchesApart(matches)
    requires forall mt <- matches :: Ready(x, w.svc, used, mt)
    ensures var w1 := FinalizeMatch(x, w, matches[0]);
            && Finalize(x, w, matches) == Finalize(x, w1, matches[1..])
            && TickMid(g, x, w1, used + {matches[0].newID})
            && (forall mt <- matches[1..] :: Ready(x, w1.svc, used + {matches[0].newID}, mt))
            && Within(w.svc.TrackerOf(x.config), w1.svc.TrackerOf(x.config))
            && (forall m :: Tracked(w1.svc, x.config, m) ==> Tracked(w.svc, x.config, m) && !Proposed(x, w.svc, matches[0], m))
  {
    hide FinalizeMatch, Ready, AnnouncedID, Key, Tracker.Forget, Mid, Grew, EndedInTick, Within, Roster, Proposed;
    var first := matches[0];
    var w1 := FinalizeMatch(x, w, first);
    assert first in matches;
    assert Finalize(x, w, matches) == Finalize(x, w1, matches[1..]);
    hide TickMid, Finalize;
    FinalizeMatchMid(g, x, w, used, first);
    ForgetFirst(g, x, w, w1, used, first);
    forall mt <- matches[1..] ensures Ready(x, w1.svc, used + {first.newID}, mt) {
      var j :| 1 <= j < |matches| && matches[j] == mt;
      ReadyLater(g, x, w, w1, used, first, matches[j]);
    }
  }

  /** The pass completes the listed matches, removes exactly them from the tracker, and keeps the invariant. */
  lemma {:induction false} FinalizeMid(g: Session, x: TickInput, w: Work, used: set<MatchID>, matches: seq<Match>)
    requires TickMid(g, x, w, used) && MatchesApart(matches)
    requires forall mt <- matches :: Ready(x, w.svc, used, mt)
    ensures var v := Finalize(x, w, matches);
            && TickMid(g, x, v, used + MatchNewIDs(matches))
            && Within(w.svc.TrackerOf(x.config), v.svc.TrackerOf(x.config))
            && (forall m :: Tracked(v.svc, x.config, m) ==> Tracked(w.svc, x.config, m) && !AmongMatches(x, w.svc, matches, m))
    decreases |matches|
  {
    if matches == [] {
      hide TickMid;
      assert used + MatchNewIDs(matches) == used;
    } else {
      hide FinalizeMatch, Finalize, Ready, TickMid, MatchNewIDs, AmongMatches;
      var w1 := FinalizeMatch(x, w, matches[0]);
      FinalizeFirst(g, x, w, used, matches);
      FinalizeMid(g, x, w1, used + {matches[0].newID}, matches[1..]);
      NewIDsFirst(matches, used);
      FinalizeRest(x, w, w1, Finalize(x, w1, matches[1..]), matches);
    }
  }

  lemma NewIDsFirst(matches: seq<Match>, used: set<MatchID>)
    requires matches != []
    ensures used + {matches[0].newID} + MatchNewIDs(matches[1..]) == used + MatchNewIDs(matches)
  {
    forall m ensures m in MatchNewIDs(matches) <==> m == matches[0].newID || m in MatchNewIDs(matches[1..]) {
      if m in MatchNewIDs(matches) {
        var mt :| mt in matches && mt.newID == m;
        assert mt == matches[0] || mt in matches[1..];
      }
      if m in MatchNewIDs(matches[1..]) {
        var mt :| mt in matches[1..] && mt.newID == m;
        assert mt in matches;
      }
    }
  }

  /** A finished match is not tracked any more; the others are tracked as before. */
  lemma ForgetFirst(g: Session, x: TickInput, w: Work, w1: Work, used: set<MatchID>, first: Match)
    requires TickMid(g, x, w, used) && Ready(x, w.svc, used, first)
    requires w1.svc.TrackerOf(x.config) == w.svc.TrackerOf(x.config).Forget(AnnouncedID(x, w.svc, first))
    ensures Within(w.svc.TrackerOf(x.config), w1.svc.TrackerOf(x.config))
    ensures forall m :: Tracked(w1.svc, x.config, m) ==> Tracked(w.svc, x.config, m) && !Proposed(x, w.svc, first, m)
  {
    var k := AnnouncedID(x, w.svc, first);
    ReadyCases(g, x, w, used, first);
    assert w.svc.TrackerOf(x.config).Coherent();
    ForgetWithin(w.svc.TrackerOf(x.config), k);
    hide AnnouncedID, Success, TrackerAfter, Key, Tracker.Forget, EndedInTick, Grew;
    forall m | Tracked(w1.svc, x.config, m) ensures Tracked(w.svc, x.config, m) && !Proposed(x, w.svc, first, m) {
      if Proposed(x, w.svc, first, m) {
        if x.acceptanceRequired {
          KnownRoster(g, w, used, x.config, m, first.ticketIDs);
          KnownRoster(g, w, used, x.config, k, first.ticketIDs);
        }
      }
    }
  }

  lemma FinalizeRest(x: TickInput, w: Work, w1: Work, v: Work, matches: seq<Match>)
    requires matches != []
    requires Within(w.svc.TrackerOf(x.config), w1.svc.TrackerOf(x.config))
    requires Within(w1.svc.TrackerOf(x.config), v.svc.TrackerOf(x.config))
    requires forall m :: Tracked(w1.svc, x.config, m) ==> Tracked(w.svc, x.config, m) && !Proposed(x, w.svc, matches[0], m)
    requires forall m :: Tracked(v.svc, x.config, m) ==> Tracked(w1.svc, x.config, m) && !AmongMatches(x, w1.svc, matches[1..], m)
    ensures Within(w.svc.TrackerOf(x.config), v.svc.TrackerOf(x.config))
    ensures forall m :: Tracked(v.svc, x.config, m) ==> Tracked(w.svc, x.config, m) && !AmongMatches(x, w.svc, matches, m)
  {
    forall m | Tracked(v.svc, x.config, m) ensures Tracked(w.svc, x.config, m) && !AmongMatches(x, w.svc, matches, m) {
      forall mt <- matches ensures !Proposed(x, w.svc, mt, m) {
        if mt != matches[0] {
          assert mt in matches[1..];
          assert !Proposed(x, w1.svc, mt, m);
        }
      }
    }
  }
}
