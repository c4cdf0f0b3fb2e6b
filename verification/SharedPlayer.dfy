/**
 A contract run in which two tickets of one proposal play for the same player: the player's refusal is recorded on the
 first ticket and makes the failure Rejected, but no event reports it, because the second ticket's acceptance wins.
 */
module SharedPlayer {
  import opened Wrappers
  import opened Domain
  import opened RosterKey
  import opened ProposalTracking
  import opened ServiceState
  import opened Tick
  import opened Commands
  import opened Runs
  import opened AnyEngine
  import opened AnyRun
  import opened Traces
  import opened EngineContract
  import opened Protocol
  import opened ProtocolSettle
  import opened ProtocolFinalize
  import opened ProtocolApply
  import opened ProtocolTick
  import opened ProtocolCommands
  import opened ProtocolRun
  import opened ProtocolSilence
  import opened Guarantees
  import Witness

  function Joint(): Proposal {
    Proposal(["a", "b"], 2, map[], [], "m")
  }

  /** Both tickets become part of one proposal. */
  function Joining(): TickInput {
    TickInput("c", true, false, 2,
              EngineTick(false, [], [Joint()], Witness.Pair(RequiresAcceptance, RequiresAcceptance),
                         Witness.Pair(RequiresAcceptance, RequiresAcceptance), map[], map[], {}), [])
  }

  function Deciding(id: TicketID, accepted: bool): AcceptInput {
    AcceptInput(id, ["p"], accepted, false, false, [["a", "b"]], map[])
  }

  /** The proposal is gone: the first ticket is cancelled, the second one back in the pool. */
  function Failure(): TickInput {
    TickInput("c", true, false, 3,
              EngineTick(false, [], [], Witness.Pair(Cancelled, Searching), Witness.Pair(Cancelled, Searching), map[], map[], {}),
              ["m"])
  }

  // ----- one proposal with both tickets

  /** The player's decision as it is recorded, if there is one. */
  predicate Holds(decisions: map<PlayerID, bool>, d: Option<bool>) {
    if d.Some? then decisions.Keys == {"p"} && decisions["p"] == d.value else decisions == map[]
  }

  predicate Asked(t: TicketState, id: TicketID, d: Option<bool>) {
    && t.id == id && t.config == "c" && t.status.RequiresAcceptance? && t.matchID == "m" && t.events == []
    && t.players == [Player("p", "blue")] && !t.cancelByAPI && Holds(t.playerAcceptances, d)
  }

  ghost predicate AskedBoth(s: Service, a: Option<bool>, b: Option<bool>) {
    && s.tickets.Keys == {"a", "b"} && Asked(s.tickets["a"], "a", a) && Asked(s.tickets["b"], "b", b)
    && s.TrackerOf("c").byMatch.Keys == {"m"} && s.TrackerOf("c").byMatch["m"] == ["a", "b"]
    && s.TrackerOf("c").CreatedAt("m") == 2
  }

  /** What is known while the proposal is pending. */
  ghost predicate Pending(g: Session, a: Option<bool>, b: Option<bool>) {
    && AskedBoth(g.world.svc, a, b)
    && g.world.clock == 2 && g.acceptance == {"c"} && g.used == {"m"} && g.Pending("c") == [Joint()]
    && Witness.AskedBoth(g.engine)
  }

  // ----- the first tick

  ghost predicate Requested(g: Session) {
    Witness.Requested(g, map["a" := "p", "b" := "p"])
  }

  lemma JoiningAllowed(g: Session)
    requires Requested(g)
    ensures Legal(g.world, DoTick(Joining())) && Contract(g, DoTick(Joining()))
  {
    assert g.world.svc.TrackerOf("c").Proposals() == {};
    JoiningRosters(g);
    JoiningAnswers(g);
    hide Requested, RostersOk, PendingOk, AcceptanceOk, CallsOk, FailedProposalsOk, AbsorbingOk, IDsOk;
  }

  lemma JoiningRosters(g: Session)
    requires Requested(g)
    ensures RostersOk(g, Joining()) && IDsOk(g, Joining())
  {
    var e := Joining().engine;
    assert NewIDs(e) == ["m"] && Rosters(e) == [["a", "b"]];
  }

  lemma JoiningAnswers(g: Session)
    requires Requested(g)
    ensures PendingOk(Joining()) && AcceptanceOk(g, Joining()) && CallsOk(g, Joining())
    ensures FailedProposalsOk(g, Joining()) && AbsorbingOk(g, Joining())
  {
    var e := Joining().engine;
    assert e.pending[0] == Joint();
    assert InPending(e, "a") && InPending(e, "b");
  }

  /** Where the engine reports the statuses the tickets have, the fourth pass does nothing. */
  lemma {:induction false} NothingToSync(x: TickInput, w: Work, settled: set<MatchID>, ids: seq<TicketID>)
    requires forall id <- ids :: id in w.svc.tickets && id in x.engine.statusAfter
               ==> x.engine.statusAfter[id] == w.svc.tickets[id].status
    ensures SyncTickets(x, w, settled, ids) == w
    decreases |ids|
  {
    if !w.failed && ids != [] {
      assert ids[0] in ids;
      assert SyncTicket(x, w, settled, ids[0]) == (w, settled);
      NothingToSync(x, w, settled, ids[1..]);
    }
  }

  /** The first tick, pass by pass: only the third one does anything. */
  lemma JoiningPasses(s: Service)
    requires Fit(s) && AskedBoth(ApplyProposal(Joining(), Work(s.WithTracker("c"), [], false), Joint()).svc, None, None)
    requires !ApplyProposal(Joining(), Work(s.WithTracker("c"), [], false), Joint()).failed
    ensures Passes(Joining(), s) == ApplyProposal(Joining(), Work(s.WithTracker("c"), [], false), Joint())
  {
    var x, w := Joining(), Work(s.WithTracker("c"), [], false);
    var v := ApplyProposal(x, w, Joint());
    hide ApplyProposal;
    assert Settle(x, w, []) == w && Finalize(x, w, []) == w;
    assert Apply(x, w, [Joint()]) == Apply(x, v, []) == v by { assert [Joint()][1..] == []; }
    NothingToSync(x, v, {}, SortedListing(v.svc.Active("c")));
  }

  lemma JointApplied(s: Service)
    requires s.tickets.Keys == {"a", "b"} && s.TrackerOf("c") == EmptyTracker
    requires forall id <- s.tickets :: s.tickets[id] == StartedTicket(Witness.Request(id, "p"))
    ensures var v := ApplyProposal(Joining(), Work(s.WithTracker("c"), [], false), Joint());
            && !v.failed && AskedBoth(v.svc, None, None)
            && AboutMatch(v.batch, "m") == [PotentialMatchCreated("m", ["a", "b"], [])]
  {
    var w := Work(s.WithTracker("c"), [], false);
    var v := ApplyProposal(Joining(), w, Joint());
    hide Key, ApplyProposal, AboutMatch, Untouched, Named, StartedTicket, Asked, Assigned;
    NothingAbout("", "m");
    assert w.svc.TrackerOf("c") == EmptyTracker;
    forall id <- ["a", "b"] ensures id in s.tickets && Assignable(s.tickets[id], id) { AskedNow(id); }
    ApplyNewExact(Joining(), w, Joint());
    forall id <- ["a", "b"] ensures id in v.svc.tickets && Asked(v.svc.tickets[id], id, None) {
      assert Joined(w, v, Joint(), id);
      AskedNow(id);
    }
    TrackedNow(v.svc.TrackerOf("c"));
  }

  lemma AskedNow(id: TicketID)
    requires id != ""
    ensures var t := StartedTicket(Witness.Request(id, "p")); Assignable(t, id) && Asked(Assigned(t, "m", map[]), id, None)
  {
  }

  lemma TrackedNow(t: Tracker)
    requires t == EmptyTracker.AssignAt(["a", "b"], "m", 2)
    ensures t.byMatch.Keys == {"m"} && t.byMatch["m"] == ["a", "b"] && t.CreatedAt("m") == 2
  {
    hide Key;
  }

  /** Nothing has ended, so the sweep removes nothing. */
  lemma NothingSwept(s: Service, c: ConfigurationName, now: Time)
    requires forall id <- s.tickets :: !s.tickets[id].Terminal()
    ensures s.Evict(c, now).tickets == s.tickets && forall d :: s.Evict(c, now).TrackerOf(d) == s.TrackerOf(d)
  {
  }

  lemma JoiningRun(s: Service)
    requires Fit(s) && s.tickets.Keys == {"a", "b"} && s.TrackerOf("c") == EmptyTracker
    requires forall id <- s.tickets :: s.tickets[id] == StartedTicket(Witness.Request(id, "p"))
    ensures var r := RunTick(Joining(), s);
            AskedBoth(r.svc, None, None) && AboutMatch(r.batch, "m") == [PotentialMatchCreated("m", ["a", "b"], [])]
  {
    hide Fit, StartedTicket, ApplyProposal, RunTick, AboutMatch, Passes, Service.Evict, Joint;
    JointApplied(s);
    JoiningPasses(s);
    RunTickPasses(Joining(), s);
    NothingSwept(Passes(Joining(), s).svc, "c", 2);
    SameAsked(Passes(Joining(), s).svc, RunTick(Joining(), s).svc);
  }

  lemma JoinedAfter(g: Session)
    requires Requested(g) && Fit(g.world.svc)
    ensures var g2 := Advance(g, DoTick(Joining()));
            Pending(g2, None, None) && MatchEvents(g2, "m") == MatchEvents(g, "m") + [PotentialMatchCreated("m", ["a", "b"], [])]
  {
    hide Fit, StartedTicket, RunTick, AboutMatch, Advance, MatchEvents, AskedBoth, Joining;
    JoiningRun(g.world.svc);
    hide Witness.Requested;
    AfterJoining(g);
    StepEvents(g, DoTick(Joining()), "m");
  }

  lemma SameAsked(s: Service, r: Service)
    requires AskedBoth(s, None, None) && r.tickets == s.tickets && r.TrackerOf("c") == s.TrackerOf("c")
    ensures AskedBoth(r, None, None)
  {
  }

  lemma AfterJoining(g: Session)
    requires Requested(g)
    ensures var g2 := Advance(g, DoTick(Joining()));
            && g2.world.svc == RunTick(Joining(), g.world.svc).svc
            && g2.world.clock == 2 && g2.acceptance == {"c"} && g2.used == {"m"} && g2.Pending("c") == [Joint()]
            && Witness.AskedBoth(g2.engine)
  {
    hide RunTick, EngineAfterTick, Witness.AskedBoth;
    assert MatchedIDs(Joining().engine) == {};
    Witness.EngineAfterProposing(g, Joining());
    var g2 := Advance(g, DoTick(Joining()));
    assert NewIDs(Joining().engine) == ["m"];
    assert g2.used == {"m"};
  }

  // ----- the decisions

  lemma MergedTwo(s: Service)
    requires "a" in s.tickets && "b" in s.tickets
    ensures MergedAcceptances(s, ["a", "b"]) == s.tickets["a"].playerAcceptances + s.tickets["b"].playerAcceptances
  {
    assert ["a", "b"][..1] == ["a"] && ["a"][..0] == [];
    assert MergedAcceptances(s, ["a"]) == s.tickets["a"].playerAcceptances;
  }

  /** The first ticket's decision counts only as long as the second one has none. */
  lemma MergedDecision(s: Service, a: Option<bool>, b: Option<bool>)
    requires AskedBoth(s, a, b)
    ensures Holds(MergedAcceptances(s, ["a", "b"]), if b.Some? then b else a)
  {
    MergedTwo(s);
    hide MergedAcceptances;
  }

  lemma OnePlayer(t: TicketState, id: TicketID, d: Option<bool>)
    requires Asked(t, id, d)
    ensures Dedupe(["p"]) == ["p"] && t.ValidatePlayerAcceptances(["p"]).Pass? && FirstError(["p"], map[]).Pass?
  {
    assert ["p"][..0] == [];
    assert t.players[0].id == "p";
    assert FirstError([], map[]).Pass?;
  }

  lemma DecisionPasses(s: Service, a: Option<bool>, b: Option<bool>, id: TicketID, accepted: bool)
    requires AskedBoth(s, a, b) && id in {"a", "b"}
    ensures AcceptMatch(Deciding(id, accepted), s).outcome.Pass? && Dedupe(["p"]) == ["p"]
  {
    var t, d := s.tickets[id], if id == "a" then a else b;
    assert Asked(t, id, d);
    hide Asked, Dedupe, MergedAcceptances, FirstError, TicketState.ValidatePlayerAcceptances, TicketState.RecordPlayerAcceptances,
         Service.Save, Service.WithTracker;
    OnePlayer(t, id, d);
    assert ["p"][..1] == ["p"];
    assert id in ["a", "b"] && Deciding(id, accepted).pending == [["a", "b"]];
    assert ["a", "b"] in Deciding(id, accepted).pending;
  }

  lemma DecidedAsked(t: TicketState, id: TicketID, accepted: bool)
    requires Asked(t, id, None)
    ensures Asked(t.RecordPlayerAcceptances(["p"], accepted), id, Some(accepted))
  {
  }

  lemma DecisionAccepted(s: Service, a: Option<bool>, b: Option<bool>, id: TicketID, accepted: bool)
    requires AskedBoth(s, a, b) && id in {"a", "b"} && (if id == "a" then a else b).None?
    ensures var r := AcceptMatch(Deciding(id, accepted), s);
            && AskedBoth(r.svc, if id == "a" then Some(accepted) else a, if id == "b" then Some(accepted) else b)
            && r.batch == [AcceptanceRecorded("m", ["a", "b"], MergedAcceptances(r.svc, ["a", "b"]))]
  {
    hide AcceptMatch, Dedupe, MergedAcceptances, PlayerIDs, Asked, TicketState.RecordPlayerAcceptances, Service.Save,
         Service.WithTracker;
    DecisionPasses(s, a, b, id, accepted);
    AcceptReport(Deciding(id, accepted), s);
    var t := s.tickets[id];
    var u := t.RecordPlayerAcceptances(["p"], accepted);
    DecidedAsked(t, id, accepted);
    AskedFields(t, id, None);
    SavedAsked(s, a, b, id, u, accepted);
  }

  lemma AskedFields(t: TicketState, id: TicketID, d: Option<bool>)
    requires Asked(t, id, d)
    ensures t.id == id && t.config == "c" && t.matchID == "m"
  {
  }

  lemma SavedAsked(s: Service, a: Option<bool>, b: Option<bool>, id: TicketID, u: TicketState, accepted: bool)
    requires AskedBoth(s, a, b) && id in {"a", "b"} && Asked(u, id, Some(accepted))
    ensures AskedBoth(s.Save(u).WithTracker("c"), if id == "a" then Some(accepted) else a,
                      if id == "b" then Some(accepted) else b)
  {
    AskedFields(u, id, Some(accepted));
    hide Asked;
    var r := s.Save(u).WithTracker("c");
    assert r.tickets == s.tickets[id := u] && r.TrackerOf("c") == s.TrackerOf("c");
  }

  lemma SameEngine(g: Session, s: Service)
    requires s.tickets.Keys == g.world.svc.tickets.Keys && forall id <- s.tickets :: !s.tickets[id].Terminal()
    ensures var e := EngineAfterCommand(g, s); e.Keys == g.engine.Keys && forall id <- e :: e[id] == g.engine[id]
  {
  }

  lemma DecidedAfter(g: Session, a: Option<bool>, b: Option<bool>, id: TicketID, accepted: bool)
    requires Pending(g, a, b) && id in {"a", "b"} && (if id == "a" then a else b).None?
    ensures var cmd := Accept(Deciding(id, accepted));
            var g2 := Advance(g, cmd);
            && Legal(g.world, cmd) && Contract(g, cmd)
            && Pending(g2, if id == "a" then Some(accepted) else a, if id == "b" then Some(accepted) else b)
            && MatchEvents(g2, "m")
               == MatchEvents(g, "m") + [AcceptanceRecorded("m", ["a", "b"], MergedAcceptances(g2.world.svc, ["a", "b"]))]
  {
    hide AcceptMatch, AboutMatch, MatchEvents, EngineAfterCommand, MergedAcceptances, Holds;
    var r := AcceptMatch(Deciding(id, accepted), g.world.svc);
    DecisionAccepted(g.world.svc, a, b, id, accepted);
    SameEngine(g, r.svc);
    StepEvents(g, Accept(Deciding(id, accepted)), "m");
    OneAbout(r.batch[0], "m");
    assert Advance(g, Accept(Deciding(id, accepted))).world.svc == r.svc;
  }

  lemma OneAbout(e: Event, m: MatchID)
    requires e.About(m)
    ensures AboutMatch([e], m) == [e]
  {
    AboutOne([], e, m);
    assert [] + [e] == [e];
  }

  // ----- the failure

  lemma FailureAllowed(g: Session, a: Option<bool>, b: Option<bool>)
    requires Pending(g, a, b)
    ensures Legal(g.world, DoTick(Failure())) && Contract(g, DoTick(Failure()))
  {
    FailureRosters(g, a, b);
    FailureAnswers(g, a, b);
    assert g.world.svc.TrackerOf("c").Proposals() == {"m"};
    hide RostersOk, PendingOk, AcceptanceOk, CallsOk, FailedProposalsOk, AbsorbingOk, IDsOk, Tracker.Proposals;
  }

  lemma FailureRosters(g: Session, a: Option<bool>, b: Option<bool>)
    requires Pending(g, a, b)
    ensures RostersOk(g, Failure()) && PendingOk(Failure()) && IDsOk(g, Failure())
  {
    assert NewIDs(Failure().engine) == [] && Rosters(Failure().engine) == [];
  }

  lemma FailureAnswers(g: Session, a: Option<bool>, b: Option<bool>)
    requires Pending(g, a, b)
    ensures AcceptanceOk(g, Failure()) && CallsOk(g, Failure())
    ensures FailedProposalsOk(g, Failure()) && AbsorbingOk(g, Failure())
  {
  }

  lemma FailureClosing(s: Service)
    requires AskedBoth(s, Some(false), Some(true))
    ensures Failing(Failure(), s, "m")
    ensures Closing(Failure(), s, "m") == [AcceptMatchCompleted("m", ["a", "b"], Rejected)]
  {
    hide Key;
    assert Rejects(s.tickets["a"]) by { assert "p" in s.tickets["a"].playerAcceptances; }
    assert "a" in ["a", "b"];
  }

  lemma FailedAfter(g: Session)
    requires Pending(g, Some(false), Some(true)) && Inv(g) && Sound(g.world)
    ensures MatchEvents(Advance(g, DoTick(Failure())), "m")
         == MatchEvents(g, "m") + [AcceptMatchCompleted("m", ["a", "b"], Rejected)]
  {
    hide Inv, Sound, AboutMatch, MatchEvents, RunTick, Settle, Failing, Closing, TickContract, Advance;
    FailureAllowed(g, Some(false), Some(true));
    FailureClosing(g.world.svc);
    hide Pending;
    assert Contracted(g, Failure());
    hide Contracted;
    SettledSpent(g, Failure(), "m");
    TickSilent(g, Failure(), "m");
    StepEvents(g, DoTick(Failure()), "m");
  }

  // ----- the run, and the sessions it goes through

  function Run(): seq<Command> {
    [Start(Witness.Request("a", "p")), Start(Witness.Request("b", "p")), DoTick(Joining()),
     Accept(Deciding("b", true)), Accept(Deciding("a", false)), DoTick(Failure())]
  }

  ghost function Session1(): Session {
    Advance(Witness.Begin(), Start(Witness.Request("a", "p")))
  }

  ghost function Session2(): Session {
    Advance(Session1(), Start(Witness.Request("b", "p")))
  }

  ghost function Session3(): Session {
    Advance(Session2(), DoTick(Joining()))
  }

  ghost function Session4(): Session {
    Advance(Session3(), Accept(Deciding("b", true)))
  }

  ghost function Session5(): Session {
    Advance(Session4(), Accept(Deciding("a", false)))
  }

  ghost function Session6(): Session {
    Advance(Session5(), DoTick(Failure()))
  }

  ghost predicate Allowed(g: Session, cmd: Command) {
    Legal(g.world, cmd) && Contract(g, cmd)
  }

  lemma RequestMade(g: Session, players: map<TicketID, PlayerID>, id: TicketID)
    requires Witness.Requested(g, players) && id !in players && id != "" && PlainID(id)
    requires Inv(g) && Sound(g.world)
    ensures var cmd := Start(Witness.Request(id, "p"));
            var g2 := Advance(g, cmd);
            && Legal(g.world, cmd) && Contract(g, cmd) && Inv(g2) && Sound(g2.world)
            && Witness.Requested(g2, players[id := "p"]) && MatchEvents(g2, "m") == MatchEvents(g, "m")
  {
    var x := Witness.Request(id, "p");
    hide Inv, Sound, Witness.Requested, Legal, Contract, Advance, PlainID, Witness.Request, MatchEvents, AboutMatch;
    Witness.RequestAccepted(g, players, id, "p");
    Witness.RequestedNext(g, players, id, "p");
    AdvanceInv(g, Start(x));
    StartCases(x, g.world.svc);
    hide StartMatchmaking;
    NoneAbout(StartMatchmaking(x, g.world.svc).batch, "m");
    StepEvents(g, Start(x), "m");
  }

  lemma RequestsMade()
    ensures Requested(Session2()) && Inv(Session2()) && Sound(Session2().world) && MatchEvents(Session2(), "m") == []
    ensures Allowed(Witness.Begin(), Start(Witness.Request("a", "p"))) && Allowed(Session1(), Start(Witness.Request("b", "p")))
  {
    hide Inv, Sound, Legal, Contract, Advance, Witness.Request, PlainID, MatchEvents, Witness.Begin, Witness.Requested;
    Witness.Started();
    NothingYet();
    RequestMade(Witness.Begin(), map[], "a");
    RequestMade(Session1(), map[]["a" := "p"], "b");
    assert map[]["a" := "p"]["b" := "p"] == map["a" := "p", "b" := "p"];
  }

  lemma NothingYet()
    ensures MatchEvents(Witness.Begin(), "m") == []
  {
    NothingAbout("", "m");
  }

  lemma ProposalJoined()
    ensures Pending(Session3(), None, None) && Inv(Session3()) && Sound(Session3().world)
    ensures Allowed(Session2(), DoTick(Joining()))
    ensures MatchEvents(Session3(), "m") == [PotentialMatchCreated("m", ["a", "b"], [])]
  {
    hide Inv, Sound, Legal, Contract, Advance, Requested, MatchEvents, Pending, Joining, Session2;
    RequestsMade();
    JoiningAllowed(Session2());
    SoundFit(Session2());
    JoinedAfter(Session2());
    AdvanceInv(Session2(), DoTick(Joining()));
  }

  lemma SoundFit(g: Session)
    requires Sound(g.world)
    ensures Fit(g.world.svc)
  {
  }

  /** What an event reports of the session's merged decisions. */
  function Report(g: Session): Event {
    AcceptanceRecorded("m", ["a", "b"], MergedAcceptances(g.world.svc, ["a", "b"]))
  }

  lemma FirstDecision()
    ensures Pending(Session4(), None, Some(true)) && Inv(Session4()) && Sound(Session4().world)
    ensures Allowed(Session3(), Accept(Deciding("b", true)))
    ensures MatchEvents(Session4(), "m") == MatchEvents(Session3(), "m") + [Report(Session4())]
  {
    hide Inv, Sound, Legal, Contract, Advance, MatchEvents, Pending, Deciding, Session3, MergedAcceptances;
    ProposalJoined();
    DecidedAfter(Session3(), None, None, "b", true);
    AdvanceInv(Session3(), Accept(Deciding("b", true)));
  }

  lemma SecondDecision()
    ensures Pending(Session5(), Some(false), Some(true)) && Inv(Session5()) && Sound(Session5().world)
    ensures Allowed(Session4(), Accept(Deciding("a", false)))
    ensures MatchEvents(Session5(), "m") == MatchEvents(Session4(), "m") + [Report(Session5())]
  {
    hide Inv, Sound, Legal, Contract, Advance, MatchEvents, Pending, Deciding, Session4, MergedAcceptances;
    FirstDecision();
    DecidedAfter(Session4(), None, Some(true), "a", false);
    AdvanceInv(Session4(), Accept(Deciding("a", false)));
  }

  lemma ProposalFailed()
    ensures Allowed(Session5(), DoTick(Failure()))
    ensures MatchEvents(Session6(), "m") == MatchEvents(Session5(), "m") + [AcceptMatchCompleted("m", ["a", "b"], Rejected)]
  {
    hide Inv, Sound, Legal, Contract, Advance, MatchEvents, Pending, Failure, Session5;
    SecondDecision();
    FailureAllowed(Session5(), Some(false), Some(true));
    FailedAfter(Session5());
  }

  /** The events report an acceptance, although one of the two decisions is a refusal. */
  lemma AcceptanceReported(g: Session, a: Option<bool>)
    requires Pending(g, a, Some(true))
    ensures Report(g) == AcceptanceRecorded("m", ["a", "b"], map["p" := true])
  {
    MergedDecision(g.world.svc, a, Some(true));
    hide MergedAcceptances;
    assert MergedAcceptances(g.world.svc, ["a", "b"]) == map["p" := true];
  }

  /**
   The player accepts on the second ticket and then refuses on the first. Both AcceptMatch events report an acceptance
   and no refusal; the first ticket records the refusal, and the proposal fails as Rejected.
   */
  lemma RejectedUnreported()
    ensures Reached(Session5()) && Reached(Session6())
    ensures SomeRejection(Session5().world.svc, ["a", "b"])
    ensures MatchEvents(Session6(), "m")
         == [PotentialMatchCreated("m", ["a", "b"], []),
             AcceptanceRecorded("m", ["a", "b"], map["p" := true]),
             AcceptanceRecorded("m", ["a", "b"], map["p" := true]),
             AcceptMatchCompleted("m", ["a", "b"], Rejected)]
  {
    hide *;
    ProposalJoined();
    FirstDecision();
    SecondDecision();
    ProposalFailed();
    AcceptanceReported(Session4(), None);
    AcceptanceReported(Session5(), Some(false));
    RefusalRecorded(Session5());
    RunReached();
  }

  lemma RefusalRecorded(g: Session)
    requires Pending(g, Some(false), Some(true))
    ensures SomeRejection(g.world.svc, ["a", "b"])
  {
    var t := g.world.svc.tickets["a"];
    assert "a" in ["a", "b"] && "p" in t.playerAcceptances && Rejects(t);
  }

  lemma RunReached()
    ensures Reached(Session5()) && Reached(Session6())
  {
    hide Inv, Sound, Legal, Contract, Advance, Requested, Pending, MatchEvents, Witness.Begin, Witness.Request, PlainID,
         Joining, Deciding, Failure, Report;
    Witness.Started();
    RequestsMade();
    ProposalJoined();
    FirstDecision();
    SecondDecision();
    ProposalFailed();
    var sessions := [Witness.Begin(), Session1(), Session2(), Session3(), Session4(), Session5(), Session6()];
    assert Advances(sessions, Run(), 0) && Advances(sessions, Run(), 1) && Advances(sessions, Run(), 2);
    assert Advances(sessions, Run(), 3) && Advances(sessions, Run(), 4) && Advances(sessions, Run(), 5);
    hide Allowed, Session1, Session2, Session3, Session4, Session5, Session6;
    PrefixReached(sessions, Run(), 5);
    PrefixReached(sessions, Run(), 6);
  }

  lemma PrefixReached(sessions: seq<Session>, cmds: seq<Command>, n: nat)
    requires IsContractRun(sessions, cmds) && n < |sessions|
    requires sessions[0] == NewSession(sessions[0].world.svc.ticketRetention, sessions[0].acceptance)
    ensures Reached(sessions[n])
  {
    hide Legal, Contract, Advance, NewSession;
    var front, done := sessions[..n + 1], cmds[..n];
    forall i | 0 <= i < n ensures Advances(front, done, i) {
      assert Advances(sessions, cmds, i);
    }
    assert ReachedBy(front, done, sessions[n]);
  }
}
