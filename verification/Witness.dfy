/**
 The engine contract can be kept: a run of a configuration that requires acceptance, in which two proposals become
 pending, one of them is matched and the other fails.
 */
module Witness {
  import opened Wrappers
  import opened Domain
  import opened RosterKey
  import opened ProposalTracking
  import opened ServiceState
  import opened Tick
  import opened Commands
  import opened Runs
  import opened AnyEngine
  import opened AnyRun
  import opened EngineContract
  import opened Protocol
  import opened ProtocolSettle
  import opened ProtocolTick
  import opened ProtocolCommands
  import opened ProtocolRun
  import opened ProtocolStreams
  import opened Guarantees

  function Request(id: TicketID, player: PlayerID): StartInput {
    StartInput("c", id, "", [Player(player, "blue")], false, Commands.Enqueued, 1)
  }

  function Pair(a: TicketStatus, b: TicketStatus): map<TicketID, TicketStatus> {
    map["a" := a, "b" := b]
  }

  function ProposalA(): Proposal {
    Proposal(["a"], 2, map[], [], "m")
  }

  function ProposalB(): Proposal {
    Proposal(["b"], 2, map[], [], "n")
  }

  /** Both tickets become part of a proposal of their own. */
  function Proposing(): TickInput {
    TickInput("c", true, false, 2,
              EngineTick(false, [], [ProposalA(), ProposalB()], Pair(RequiresAcceptance, RequiresAcceptance),
                         Pair(RequiresAcceptance, RequiresAcceptance), map[], map[], {}), [])
  }

  /** The proposal of the first ticket is matched, the second ticket is back in the pool. */
  function Deciding(): TickInput {
    TickInput("c", true, false, 3,
              EngineTick(false, [Match(["a"], map[], [], "o")], [], Pair(Placing, Searching), Pair(Completed, Searching),
                         map[], map[], {}), ["m", "n"])
  }

  function Run(): seq<Command> {
    [Start(Request("a", "p")), Start(Request("b", "q")), DoTick(Proposing()), DoTick(Deciding())]
  }

  /** What is known of the service once a request of each of these players, and nothing else, has been made. */
  ghost predicate Requested(g: Session, players: map<TicketID, PlayerID>) {
    && g.world.svc.tickets.Keys == players.Keys
    && (forall id <- players :: g.world.svc.tickets[id] == StartedTicket(Request(id, players[id])))
    && (forall c :: g.world.svc.TrackerOf(c) == EmptyTracker) && g.world.svc.reserved == {}
    && g.world.clock == 1 && g.acceptance == {"c"} && g.used == {} && g.pending == map[]
    && g.engine.Keys == players.Keys && (forall id <- players :: g.engine[id] == Queued)
  }

  lemma RequestAccepted(g: Session, players: map<TicketID, PlayerID>, id: TicketID, player: PlayerID)
    requires Requested(g, players) && id !in players && id != "" && PlainID(id)
    ensures StartMatchmaking(Request(id, player), g.world.svc).outcome.Pass?
    ensures Legal(g.world, Start(Request(id, player))) && Contract(g, Start(Request(id, player)))
  {
    assert PlainID("");
    hide PlainID;
    assert id !in g.world.svc.tickets && id !in g.world.svc.reserved;
  }

  lemma RequestedNext(g: Session, players: map<TicketID, PlayerID>, id: TicketID, player: PlayerID)
    requires Requested(g, players) && id !in players && id != "" && PlainID(id)
    ensures Requested(Advance(g, Start(Request(id, player))), players[id := player])
  {
    hide PlainID, StartMatchmaking, Legal, Contract, Service.Commit, StartedTicket, Advance, Requested;
    var s, x := g.world.svc, Request(id, player);
    var t := StartedTicket(x);
    RequestAccepted(g, players, id, player);
    StartCases(x, s);
    StartedAs(id, player);
    CommittedAs(s, t);
    AfterRequest(g, x);
    RequestedMore(g, Advance(g, Start(x)), players, id, player);
  }

  lemma AfterRequest(g: Session, x: StartInput)
    ensures var g2, r := Advance(g, Start(x)), StartMatchmaking(x, g.world.svc);
            && g2.world.svc == r.svc && g2.world.clock == x.now && g2.engine == EngineAfterCommand(g, r.svc)
            && g2.acceptance == g.acceptance && g2.used == g.used && g2.pending == g.pending
  {
    hide StartMatchmaking, EngineAfterCommand;
  }

  lemma RequestedMore(g: Session, g2: Session, players: map<TicketID, PlayerID>, id: TicketID, player: PlayerID)
    requires Requested(g, players) && id !in players
    requires var s, r := g.world.svc, g2.world.svc;
             && r.tickets == s.tickets[id := StartedTicket(Request(id, player))] && r.reserved == s.reserved - {id}
             && (forall c :: r.TrackerOf(c) == s.TrackerOf(c)) && g2.engine == EngineAfterCommand(g, r)
    requires g2.world.clock == 1 && g2.acceptance == g.acceptance && g2.used == g.used && g2.pending == g.pending
    ensures Requested(g2, players[id := player])
  {
    hide EngineAfterCommand, StartedTicket, Request;
    NewTicketEngine(g, g2.world.svc, id, StartedTicket(Request(id, player)));
    var more := players[id := player];
    assert more.Keys == players.Keys + {id};
    forall k <- more ensures k in g2.world.svc.tickets && g2.world.svc.tickets[k] == StartedTicket(Request(k, more[k])) {
      if k != id { assert k in players; }
    }
    forall k <- more ensures k in g2.engine && g2.engine[k] == Queued {
      if k != id { assert k in players && k in g.engine; }
    }
  }

  lemma StartedAs(id: TicketID, player: PlayerID)
    requires id != ""
    ensures StartedTicket(Request(id, player)).id == id
  {
  }

  lemma CommittedAs(s: Service, t: TicketState)
    ensures s.Commit(t).tickets == s.tickets[t.id := t] && s.Commit(t).reserved == s.reserved - {t.id}
    ensures forall c :: s.Commit(t).TrackerOf(c) == s.TrackerOf(c)
  {
  }

  lemma NewTicketEngine(g: Session, s: Service, id: TicketID, t: TicketState)
    requires s.tickets == g.world.svc.tickets[id := t] && id !in g.world.svc.tickets
    ensures var e := EngineAfterCommand(g, s); e.Keys == g.engine.Keys + {id} && e[id] == Queued
    ensures forall k <- g.engine | k != id :: EngineAfterCommand(g, s)[k] == g.engine[k]
  {
  }

  lemma ProposingAllowed(g: Session)
    requires Requested(g, map["a" := "p", "b" := "q"])
    ensures Legal(g.world, DoTick(Proposing())) && Contract(g, DoTick(Proposing()))
  {
    var x := Proposing();
    assert g.world.svc.TrackerOf("c").Proposals() == {};
    ProposingRosters(g);
    ProposingAnswers(g);
    hide Requested, RostersOk, PendingOk, AcceptanceOk, CallsOk, FailedProposalsOk, AbsorbingOk, IDsOk;
  }

  lemma ProposingRosters(g: Session)
    requires Requested(g, map["a" := "p", "b" := "q"])
    ensures RostersOk(g, Proposing()) && IDsOk(g, Proposing())
  {
    var e := Proposing().engine;
    assert NewIDs(e) == ["m", "n"] && Rosters(e) == [["a"], ["b"]];
  }

  lemma ProposingAnswers(g: Session)
    requires Requested(g, map["a" := "p", "b" := "q"])
    ensures PendingOk(Proposing()) && AcceptanceOk(g, Proposing()) && CallsOk(g, Proposing())
    ensures FailedProposalsOk(g, Proposing()) && AbsorbingOk(g, Proposing())
  {
    var e := Proposing().engine;
    assert e.pending[0] == ProposalA() && e.pending[1] == ProposalB();
    assert InPending(e, "a") && InPending(e, "b");
  }

  /** What is known when both proposals are pending. */
  ghost predicate BothPending(g: Session) {
    && g.world.svc.tickets.Keys <= {"a", "b"} && "a" in g.world.svc.tickets && "b" in g.world.svc.tickets
    && g.world.svc.tickets["a"].config == "c" && g.world.svc.tickets["b"].config == "c"
    && g.world.svc.TrackerOf("c").Proposals() == {"m", "n"}
    && g.world.clock == 2 && g.acceptance == {"c"} && g.used == {"m", "n"} && g.Pending("c") == [ProposalA(), ProposalB()]
    && AskedBoth(g.engine)
  }

  lemma DecidingAllowed(g: Session)
    requires BothPending(g)
    ensures Legal(g.world, DoTick(Deciding())) && Contract(g, DoTick(Deciding()))
  {
    DecidingRosters(g);
    DecidingAnswers(g);
    hide RostersOk, PendingOk, AcceptanceOk, CallsOk, FailedProposalsOk, AbsorbingOk, IDsOk, Tracker.Proposals;
  }

  lemma DecidingRosters(g: Session)
    requires BothPending(g)
    ensures RostersOk(g, Deciding()) && PendingOk(Deciding()) && IDsOk(g, Deciding())
  {
    var e := Deciding().engine;
    assert NewIDs(e) == ["o"] && Rosters(e) == [["a"]];
  }

  lemma DecidingAnswers(g: Session)
    requires BothPending(g)
    ensures AcceptanceOk(g, Deciding()) && CallsOk(g, Deciding())
    ensures FailedProposalsOk(g, Deciding()) && AbsorbingOk(g, Deciding())
  {
    var e := Deciding().engine;
    assert InMatches(e, "a") by { assert e.matches[0] in e.matches; }
    assert ProposalA() in g.Pending("c");
  }

  lemma EngineAnswered(g: Session, x: TickInput, id: TicketID)
    requires MatchedIDs(x.engine) == {}
    ensures id in EngineAfterTick(g, x) <==> id in g.engine || id in AskedIDs(g, x)
    ensures id in AskedIDs(g, x) ==> EngineAfterTick(g, x)[id] == x.engine.statusAfter[id]
  {
    hide MatchedIDs, AskedIDs;
  }

  /** The engine was asked about both tickets, and answered that they require acceptance. */
  ghost predicate AskedBoth(engine: map<TicketID, TicketStatus>) {
    engine.Keys == {"a", "b"} && engine["a"] == RequiresAcceptance && engine["b"] == RequiresAcceptance
  }

  lemma EngineAfterProposing(g: Session, x: TickInput)
    requires g.world.svc.tickets.Keys == g.engine.Keys == {"a", "b"}
    requires forall id <- g.world.svc.tickets :: g.world.svc.tickets[id].config == x.config
    requires MatchedIDs(x.engine) == {} && x.engine.statusAfter == Pair(RequiresAcceptance, RequiresAcceptance)
    ensures AskedBoth(EngineAfterTick(g, x))
  {
    assert AskedIDs(g, x) == {"a", "b"};
    hide MatchedIDs, AskedIDs, EngineAfterTick;
    forall id ensures id in EngineAfterTick(g, x) <==> id in {"a", "b"} { EngineAnswered(g, x, id); }
    EngineAnswered(g, x, "a");
    EngineAnswered(g, x, "b");
  }

  lemma AfterProposing(g: Session)
    requires Requested(g, map["a" := "p", "b" := "q"])
    ensures var g2 := Advance(g, DoTick(Proposing()));
            && g2.world.clock == 2 && g2.acceptance == {"c"} && g2.used == {"m", "n"}
            && g2.Pending("c") == [ProposalA(), ProposalB()]
            && AskedBoth(g2.engine)
  {
    hide RunTick, EngineAfterTick, AskedBoth;
    assert MatchedIDs(Proposing().engine) == {};
    EngineAfterProposing(g, Proposing());
    var g2 := Advance(g, DoTick(Proposing()));
    assert NewIDs(Proposing().engine) == ["m", "n"];
    assert g2.used == {"m", "n"};
  }

  /** The tracked match of a pending proposal with one ticket. */
  lemma PendingTracked(g: Session, p: Proposal, id: TicketID) returns (k: MatchID)
    requires Inv(g) && p in g.Pending("c") && p.ticketIDs == [id] && p.createdAt != 0
    ensures Tracked(g.world.svc, "c", k) && Roster(g.world.svc, "c", k) == [id] && k in g.used
    ensures k in g.world.svc.TrackerOf("c").Proposals()
    ensures id in g.world.svc.tickets && g.world.svc.tickets[id].config == "c"
  {
    var s := g.world.svc;
    hide Mid, EngineKnows;
    assert Mirrors(s, "c", g.Pending("c"));
    k :| Tracked(s, "c", k) && SameProposal(s, "c", k, p);
    hide Mirrors;
    TrackedFacts(g, k);
    hide Inv;
    OneTicket(s, k, p, id);
  }

  lemma OneTicket(s: Service, k: MatchID, p: Proposal, id: TicketID)
    requires Tracked(s, "c", k) && RosterRel(s, "c", k) && SameProposal(s, "c", k, p) && p.ticketIDs == [id]
    ensures Roster(s, "c", k) == [id] && k in s.TrackerOf("c").Proposals()
    ensures id in s.tickets && s.tickets[id].config == "c"
  {
    var ids := Roster(s, "c", k);
    assert |ids| == |multiset(ids)| == |multiset(p.ticketIDs)| == 1;
    assert ids[0] in multiset(ids);
    assert InRoster(s, "c", k, ids[0]);
  }

  lemma TrackedFacts(g: Session, k: MatchID)
    requires Inv(g) && Tracked(g.world.svc, "c", k)
    ensures RosterRel(g.world.svc, "c", k) && k in g.used
  {
    hide Mirrors, EngineKnows;
    OpenMatch(g, Work(g.world.svc, [], false), g.used, "c", k);
    RosterRelated(g, Work(g.world.svc, [], false), g.used, "c", k);
  }

  lemma TrackedUsed(g: Session)
    requires Inv(g)
    ensures g.world.svc.TrackerOf("c").Proposals() <= g.used
  {
    hide Inv, RosterRel;
    forall k <- g.world.svc.TrackerOf("c").Proposals() ensures k in g.used { TrackedFacts(g, k); }
  }

  lemma PendingAfter(g: Session)
    requires Requested(g, map["a" := "p", "b" := "q"]) && Inv(g) && Sound(g.world)
    ensures BothPending(Advance(g, DoTick(Proposing())))
  {
    hide Advance, Requested, Legal, Contract, Inv, Sound;
    ProposingAllowed(g);
    AfterProposing(g);
    AdvanceInv(g, DoTick(Proposing()));
    FewTickets(g);
    BothTracked(Advance(g, DoTick(Proposing())));
  }

  lemma FewTickets(g: Session)
    requires Requested(g, map["a" := "p", "b" := "q"]) && Inv(g) && Sound(g.world)
    requires Legal(g.world, DoTick(Proposing())) && Contract(g, DoTick(Proposing()))
    ensures Advance(g, DoTick(Proposing())).world.svc.tickets.Keys <= {"a", "b"}
  {
    hide RunTick, Inv, Sound, TickContract, EngineAfterTick, NewIDs;
    assert Contracted(g, Proposing());
    hide Contracted;
    NoNewTickets(g, Proposing());
  }

  lemma BothTracked(g: Session)
    requires Inv(g) && g.Pending("c") == [ProposalA(), ProposalB()] && g.used == {"m", "n"}
    ensures g.world.svc.TrackerOf("c").Proposals() == {"m", "n"}
    ensures forall id :: id in {"a", "b"} ==> id in g.world.svc.tickets && g.world.svc.tickets[id].config == "c"
  {
    hide Inv, Roster, Tracker.Proposals;
    assert ProposalA() in g.Pending("c") && ProposalB() in g.Pending("c");
    var k := PendingTracked(g, ProposalA(), "a");
    var l := PendingTracked(g, ProposalB(), "b");
    TrackedUsed(g);
    assert ["a"][0] != ["b"][0];
    assert k != l;
    assert {k, l} == {"m", "n"};
  }

  // ----- the sessions the run goes through

  ghost function Begin(): Session {
    NewSession(1, {"c"})
  }

  ghost function Session1(): Session {
    Advance(Begin(), Start(Request("a", "p")))
  }

  ghost function Session2(): Session {
    Advance(Session1(), Start(Request("b", "q")))
  }

  ghost function Session3(): Session {
    Advance(Session2(), DoTick(Proposing()))
  }

  ghost function Session4(): Session {
    Advance(Session3(), DoTick(Deciding()))
  }

  lemma Started()
    ensures Requested(Begin(), map[]) && Inv(Begin()) && Sound(Begin().world) && PlainID("a") && PlainID("b")
    ensures Begin() == NewSession(Begin().world.svc.ticketRetention, Begin().acceptance)
  {
    hide Inv, Sound;
    NewSessionInv(1, {"c"});
  }

  lemma RequestsMade()
    ensures Requested(Session2(), map["a" := "p", "b" := "q"]) && Inv(Session2()) && Sound(Session2().world)
    ensures Legal(Begin().world, Start(Request("a", "p"))) && Contract(Begin(), Start(Request("a", "p")))
    ensures Legal(Session1().world, Start(Request("b", "q"))) && Contract(Session1(), Start(Request("b", "q")))
  {
    hide Requested, Inv, Sound, Legal, Contract, Advance, Request, PlainID, Begin;
    Started();
    RequestAccepted(Begin(), map[], "a", "p");
    RequestedNext(Begin(), map[], "a", "p");
    AdvanceInv(Begin(), Start(Request("a", "p")));
    RequestAccepted(Session1(), map[]["a" := "p"], "b", "q");
    RequestedNext(Session1(), map[]["a" := "p"], "b", "q");
    AdvanceInv(Session1(), Start(Request("b", "q")));
    assert map[]["a" := "p"]["b" := "q"] == map["a" := "p", "b" := "q"];
  }

  lemma TicksAllowed()
    ensures Legal(Session2().world, DoTick(Proposing())) && Contract(Session2(), DoTick(Proposing()))
    ensures Legal(Session3().world, DoTick(Deciding())) && Contract(Session3(), DoTick(Deciding()))
  {
    hide Requested, BothPending, Inv, Sound, Legal, Contract, Advance, Session2, Proposing, Deciding;
    RequestsMade();
    ProposingAllowed(Session2());
    PendingAfter(Session2());
    DecidingAllowed(Session3());
  }

  /** Every command of the run keeps the contract. */
  lemma ContractKept()
    ensures exists sessions: seq<Session>, g: Session :: ReachedBy(sessions, Run(), g)
  {
    hide Requested, Inv, Sound, Legal, Contract, Advance, Request, PlainID, Begin, Proposing, Deciding;
    var sessions := [Begin(), Session1(), Session2(), Session3(), Session4()];
    Started();
    RequestsMade();
    TicksAllowed();
    assert Advances(sessions, Run(), 0) && Advances(sessions, Run(), 1);
    assert Advances(sessions, Run(), 2) && Advances(sessions, Run(), 3);
    assert ReachedBy(sessions, Run(), Session4());
  }
}
