/**
 A run that ends in the half-done state of a failing StartMatchBackfill: the engine took the new ticket, then refused to
 cancel the earlier one, and then to give the new one up.
 */
module FailedRollback {
  import opened Wrappers
  import opened Domain
  import opened RosterKey
  import opened ProposalTracking
  import opened ServiceState
  import opened Tick
  import opened Commands
  import opened Runs
  import opened AnyEngine
  import opened AnyRun

  function Request(id: TicketID, metrics: Option<seq<RuleMetric>>, cancelPrior: EngineReply, cancelNew: EngineReply):
    BackfillInput
  {
    BackfillInput(StartInput("c", id, "", [Player("p", "blue")], false, Commands.Enqueued, 1), "s", metrics,
                  cancelPrior, cancelNew, Done)
  }

  function First(): BackfillInput {
    Request("a", None, Done, Done)
  }

  function Second(metrics: seq<RuleMetric>): BackfillInput {
    Request("b", Some(metrics), Fault, Fault)
  }

  /** The ticket a request registers. */
  function Waiting(id: TicketID): TicketState {
    TicketState(id, "c", [Player("p", "blue")], true, "s", 1, Queued, "", "", 0, "", false,
                SeatedTeams([Player("p", "blue")]), map[], [], [])
  }

  /** The only active ticket is the one the session's lookup finds. */
  lemma OnlyBackfill(s: Service, id: TicketID)
    requires s.Active("c") == {id} && id in s.tickets && IsSessionBackfill(s.tickets[id], "s")
    ensures FindSessionBackfill(s, "c", "s") == Some(s.tickets[id])
  {
    var ids := SortedListing(s.Active("c"));
    assert |ids| == |multiset(ids)| == 1 && ids[0] in multiset(ids);
  }

  lemma NoBackfill(s: Service)
    requires s.Active("c") == {}
    ensures FindSessionBackfill(s, "c", "s") == None
  {
    var ids := SortedListing(s.Active("c"));
    assert |ids| == |multiset(ids)| == 0;
  }

  lemma PlanOf(x: BackfillInput, s: Service, id: TicketID, prior: Option<TicketState>)
    requires x == Request(id, x.priorMetrics, x.cancelPrior, x.cancelNew) && id != ""
    requires FindSessionBackfill(s, "c", "s") == prior && (prior.Some? ==> Pooled(prior.value.status))
    ensures var plan := PlanBackfill(x, s);
            plan.Replace? && plan.prior == prior && plan.ticket.Drained() == Waiting(id) && plan.ticket.id == id
  {
    hide FindSessionBackfill, SeatedTeams;
  }

  lemma FirstMade(s: Service)
    requires s == NewService(1)
    ensures var r := StartMatchBackfill(First(), s);
            && r.outcome.Pass? && r.svc.tickets == map["a" := Waiting("a")] && r.svc.Active("c") == {"a"} && r.svc.reserved == {}
  {
    NoBackfill(s);
    PlanOf(First(), s, "a", None);
    hide PlanBackfill, Waiting, FindSessionBackfill;
    assert Waiting("a").id == "a" && Waiting("a").config == "c" && Waiting("a").status.IsActive() by { WaitingFields("a"); }
  }

  lemma WaitingFields(id: TicketID)
    ensures var t := Waiting(id);
            t.id == id && t.config == "c" && t.status.IsActive() && Pooled(t.status) && IsSessionBackfill(t, "s")
  {
  }

  /** The second request fails half done: the metrics stay on the first ticket, and the new id stays reserved. */
  lemma SecondFails(s: Service, metrics: seq<RuleMetric>)
    requires Fit(s) && s.tickets == map["a" := Waiting("a")] && s.Active("c") == {"a"} && s.reserved == {}
    ensures HalfDone(Second(metrics), s)
    ensures var r := StartMatchBackfill(Second(metrics), s);
            && r.outcome.Fail? && r.batch == [] && r.svc.reserved == {"b"}
            && r.svc.tickets == map["a" := Waiting("a").SetRuleMetrics(metrics)]
  {
    WaitingFields("a");
    OnlyBackfill(s, "a");
    PlanOf(Second(metrics), s, "b", Some(Waiting("a")));
    hide PlanBackfill, Waiting, FindSessionBackfill, Fit;
    assert StartMatchBackfill(Second(metrics), s).outcome.Fail?;
    hide StartMatchBackfill, HalfDone;
    FailedBackfillUndone(Second(metrics), s);
  }

  /** A run with these two requests, and what the second one leaves behind. */
  ghost predicate LeftBehind(worlds: seq<World>, metrics: seq<RuleMetric>) {
    && IsRun(worlds, [Backfill(First()), Backfill(Second(metrics))]) && worlds[0] == NewWorld(1)
    && HalfDone(Second(metrics), worlds[1].svc) && worlds[2].log == worlds[1].log
    && worlds[2].svc.reserved == {"b"} && worlds[2].svc.tickets == map["a" := Waiting("a").SetRuleMetrics(metrics)]
  }

  lemma ExecFirst(w: World)
    requires w == NewWorld(1)
    ensures var u := Exec(w, Backfill(First()));
            && Legal(w, Backfill(First())) && Fit(u.svc) && u.clock == 1
            && u.svc.tickets == map["a" := Waiting("a")] && u.svc.Active("c") == {"a"} && u.svc.reserved == {}
  {
    FirstMade(w.svc);
    NewWorldSound(1);
    hide StartMatchBackfill, Sound, Waiting;
    ExecSound(w, Backfill(First()));
    SoundFits(Exec(w, Backfill(First())));
  }

  lemma ExecSecond(w: World, metrics: seq<RuleMetric>)
    requires Fit(w.svc) && w.clock == 1
    requires w.svc.tickets == map["a" := Waiting("a")] && w.svc.Active("c") == {"a"} && w.svc.reserved == {}
    ensures var cmd := Backfill(Second(metrics));
            var u := Exec(w, cmd);
            && Legal(w, cmd) && HalfDone(Second(metrics), w.svc) && u.log == w.log && u.svc.reserved == {"b"}
            && u.svc.tickets == map["a" := Waiting("a").SetRuleMetrics(metrics)]
  {
    SecondFails(w.svc, metrics);
    hide StartMatchBackfill, Waiting, HalfDone, Fit;
  }

  /** There is such a run: the condition under which traces remain is met by a service that is reached. */
  lemma RollbackFails(metrics: seq<RuleMetric>)
    ensures exists worlds: seq<World> :: LeftBehind(worlds, metrics)
  {
    var w0 := NewWorld(1);
    hide NewWorld, Exec, Legal, Fit, Waiting, HalfDone, First, Second;
    ExecFirst(w0);
    var w1 := Exec(w0, Backfill(First()));
    ExecSecond(w1, metrics);
    var worlds, cmds := [w0, w1, Exec(w1, Backfill(Second(metrics)))], [Backfill(First()), Backfill(Second(metrics))];
    assert Leads(worlds, cmds, 0) && Leads(worlds, cmds, 1);
    assert LeftBehind(worlds, metrics);
  }
}
