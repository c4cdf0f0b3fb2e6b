/**
 The service together with the delivery of its events: what a publisher has been asked to publish of the events that
 name a ticket is, at any time and in any interleaving of producers and workers, the beginning of the ticket's life.
 */
module Published {
  import opened Wrappers
  import opened Domain
  import opened ServiceState
  import opened Runs
  import opened AnyRun
  import opened Traces
  import opened EngineContract
  import opened Protocol
  import opened ProtocolCommands
  import opened ProtocolRun
  import opened Guarantees
  import opened ProtocolStreams
  import D = Delivery
  import opened DeliverySafety
  import DeliveryRuns

  /** A session of the service, and the state of the delivery lanes. */
  datatype State = State(session: Session, delivery: D.System)

  /**
   A command either runs while its producer holds the command lock of its configuration, and its events become the
   producer's batch, or it generates no event, and may end before a reservation. Every other step is one of delivery.
   */
  datatype Step =
    | Execute(owner: D.ProducerID, cmd: Command)
    | Silent(cmd: Command)
    | Deliver(action: D.Action)

  ghost predicate Becomes(g: Session, cmd: Command, h: Session) {
    Legal(g.world, cmd) && Contract(g, cmd) && h == Advance(g, cmd)
  }

  ghost predicate Takes(a: State, step: Step, b: State) {
    match step
    case Execute(p, cmd) =>
      && Becomes(a.session, cmd, b.session) && D.Next(a.delivery, D.Generate(p, Generated(a.session, cmd))) == Some(b.delivery)
      && HoldsLane(a.delivery, p, ConfigOf(a.session.world.svc, cmd))
    case Silent(cmd) =>
      Becomes(a.session, cmd, b.session) && Generated(a.session, cmd) == [] && b.delivery == a.delivery
    case Deliver(action) =>
      && D.Next(a.delivery, action) == Some(b.delivery) && (action.Generate? ==> action.events == [])
      && b.session == a.session
  }

  ghost function Generated(g: Session, cmd: Command): seq<Event> {
    Effect(g.world.svc, cmd).1
  }

  /** The producer runs its command, on the configuration `c`. */
  predicate HoldsLane(s: D.System, p: D.ProducerID, c: Option<ConfigurationName>) {
    c.Some? && p in s.procs && s.procs[p] == D.InCommand(c.value)
  }

  ghost predicate IsJointRun(states: seq<State>, steps: seq<Step>) {
    && |states| == |steps| + 1 && (forall i | 0 <= i < |steps| :: Leads(states, steps, i))
    && states[0].delivery == D.Start
    && states[0].session == NewSession(states[0].session.world.svc.ticketRetention, states[0].session.acceptance)
  }

  ghost predicate Leads(states: seq<State>, steps: seq<Step>, i: int) {
    0 <= i < |steps| && i + 1 < |states| && Takes(states[i], steps[i], states[i + 1])
  }

  // ----- both parts of a joint run

  /** All results about contract runs hold of the session, and all results about delivery hold of the lanes. */
  ghost predicate StateOk(a: State) {
    Reached(a.session) && D.Reachable(a.delivery)
  }

  lemma ReachedMore(g: Session, cmd: Command, h: Session)
    requires Reached(g) && Becomes(g, cmd, h)
    ensures Reached(h)
  {
    var sessions: seq<Session>, cmds: seq<Command> :| ReachedBy(sessions, cmds, g);
    hide NewSession, Legal, Contract, Advance;
    var more, all := sessions + [h], cmds + [cmd];
    forall i | 0 <= i < |all| ensures Advances(more, all, i) {
      if i < |cmds| { assert Advances(sessions, cmds, i); }
    }
    assert ReachedBy(more, all, h);
  }

  lemma ReachedFirst(g: Session)
    requires g == NewSession(g.world.svc.ticketRetention, g.acceptance)
    ensures Reached(g)
  {
    hide NewSession, Advances;
    assert ReachedBy([g], [], g);
  }

  lemma {:induction false} RunThen(s: D.System, actions: seq<D.Action>, t: D.System, a: D.Action, u: D.System)
    requires D.Run(s, actions) == Some(t) && D.Next(t, a) == Some(u)
    ensures D.Run(s, actions + [a]) == Some(u)
    decreases |actions|
  {
    hide D.Next;
    if actions == [] {
      assert [a][1..] == [] && actions + [a] == [a];
    } else {
      RunThen(D.Next(s, actions[0]).value, actions[1..], t, a, u);
      assert (actions + [a])[1..] == actions[1..] + [a];
    }
  }

  lemma StillReachable(s: D.System, a: D.Action, t: D.System)
    requires D.Reachable(s) && D.Next(s, a) == Some(t)
    ensures D.Reachable(t)
  {
    var actions: seq<D.Action> :| D.Run(D.Start, actions) == Some(s);
    RunThen(D.Start, actions, s, a, t);
  }

  lemma TakesOk(a: State, step: Step, b: State)
    requires StateOk(a) && Takes(a, step, b)
    ensures StateOk(b)
  {
    hide Reached, Becomes, D.Reachable, D.Next, HoldsLane, ConfigOf, Generated;
    match step
    case Execute(p, cmd) =>
      ReachedMore(a.session, cmd, b.session);
      StillReachable(a.delivery, D.Generate(p, Generated(a.session, cmd)), b.delivery);
    case Silent(cmd) => ReachedMore(a.session, cmd, b.session);
    case Deliver(action) => StillReachable(a.delivery, action, b.delivery);
  }

  lemma BeginOk(a: State)
    requires a.delivery == D.Start
    requires a.session == NewSession(a.session.world.svc.ticketRetention, a.session.acceptance)
    ensures StateOk(a)
  {
    ReachedFirst(a.session);
    hide Reached, NewSession;
    assert D.Run(D.Start, []) == Some(D.Start);
  }

  lemma {:induction false} JointOk(states: seq<State>, steps: seq<Step>, n: nat)
    requires IsJointRun(states, steps) && n < |states|
    ensures StateOk(states[n])
  {
    hide StateOk, Takes;
    if n == 0 {
      BeginOk(states[0]);
    } else {
      JointOk(states, steps, n - 1);
      assert Leads(states, steps, n - 1);
      TakesOk(states[n - 1], steps[n - 1], states[n]);
    }
  }

  // ----- what a lane has been handed

  function Handed(s: D.System, c: ConfigurationName): seq<Event> {
    Flatten(s.LaneOf(c).sent)
  }

  /** A step hands a lane the events its producer generates, and nothing to any other lane. */
  lemma HandedNext(s: D.System, a: D.Action, t: D.System, c: ConfigurationName)
    requires D.Next(s, a) == Some(t)
    ensures Handed(t, c) == Handed(s, c) + if a.Generate? && HoldsLane(s, a.p, Some(c)) then a.events else []
  {
    hide D.ProducerStep, D.CloserStep, D.ArriveStep, D.WorkerStep, D.ProducerMove, D.WorkerMove, D.UseLock, Flatten;
    hide D.System.LaneOf;
    if D.IsWorker(a) {
      var e := WorkerEffect(s, a, t);
      WorkerMoveOrder(a, s.works[a.w], s.LaneOf(s.works[a.w].lane));
      OneLane(s, s.works[a.w].lane, e.lane, t, c);
    } else if D.IsCloser(a) {
      CloserEffect(s, a, t);
      SameLane(s, t, c);
    } else if a.Arrive? {
      ArriveEffect(s, a.p, a.c, t);
      SameLane(s, t, c);
    } else {
      var e, w := ProducerEffect(s, a, t);
      var ph := s.procs[a.p];
      ProducerMoveHands(a, ph, s.LaneOf(ph.lane), s.closed, ph.lane !in s.locks, a.p in s.done);
      OneLane(s, ph.lane, e.lane, t, c);
    }
  }

  lemma ProducerMoveHands(a: D.Action, ph: D.Phase, l: D.Lane, closed: bool, free: bool, done: bool)
    requires D.IsProducer(a) && !ph.Gone? && D.ProducerMove(a, ph, l, closed, free, done).Some?
    ensures var e := D.ProducerMove(a, ph, l, closed, free, done).value;
            && Flatten(e.lane.sent) == Flatten(l.sent) + (if a.Generate? then a.events else [])
            && (a.Generate? ==> ph == D.InCommand(ph.lane))
  {
    if a.Generate? { FlattenOne(l.sent, D.Batch(a.p, a.events)); }
    hide Flatten;
  }

  // ----- what a command adds to a ticket's life

  /** `sent` has from `k` on exactly the ticket's events. */
  ghost predicate Carries(sent: seq<Event>, k: nat, g: Session, id: TicketID) {
    k <= |sent| && Named(sent[k..], id) == TicketEvents(g, id)
  }

  lemma MoreCarried(g: Session, cmd: Command, sent: seq<Event>, k: nat, id: TicketID)
    requires Inv(g) && Sound(g.world) && Legal(g.world, cmd) && Contract(g, cmd)
    requires id in g.world.svc.tickets && Carries(sent, k, g, id) && id in Advance(g, cmd).world.svc.tickets
    ensures var c, more := g.world.svc.tickets[id].config, Generated(g, cmd);
            && Advance(g, cmd).world.svc.tickets[id].config == c
            && Carries(sent + if ConfigOf(g.world.svc, cmd) == Some(c) then more else [], k, Advance(g, cmd), id)
  {
    hide Advance, Inv, Sound, Effect, Legal, Contract, Named, Exec, ConfigOf, World.Since;
    var c, more := g.world.svc.tickets[id].config, Generated(g, cmd);
    hide Generated;
    SoundBorn(g);
    AdvanceWorld(g, cmd);
    SameConfig(g.world, cmd, id);
    LifeContinues(g, cmd, id);
    hide BornOk;
    if ConfigOf(g.world.svc, cmd) == Some(c) {
      assert (sent + more)[k..] == sent[k..] + more;
      NamedAppend(sent[k..], more, id);
    } else {
      SparedNames(g, cmd, id);
      assert sent + [] == sent && Named(sent[k..], id) + [] == Named(sent[k..], id);
    }
  }

  lemma AdvanceWorld(g: Session, cmd: Command)
    ensures Advance(g, cmd).world == Exec(g.world, cmd) && Exec(g.world, cmd).svc == Effect(g.world.svc, cmd).0
  {
    hide Effect;
  }

  lemma SparedNames(g: Session, cmd: Command, id: TicketID)
    requires Inv(g) && Sound(g.world) && Legal(g.world, cmd) && Contract(g, cmd)
    requires id in g.world.svc.tickets && ConfigOf(g.world.svc, cmd) != Some(g.world.svc.tickets[id].config)
    ensures Named(Generated(g, cmd), id) == []
  {
    hide Inv, Sound, Effect, Legal, Contract, Named, ConfigOf;
    CommandSpares(g, cmd, id);
  }

  lemma SameConfig(w: World, cmd: Command, id: TicketID)
    requires Sound(w) && Legal(w, cmd) && id in w.svc.tickets && id in Exec(w, cmd).svc.tickets
    ensures Exec(w, cmd).svc.tickets[id].config == w.svc.tickets[id].config
  {
    hide Sound, Legal, Exec;
    ExecSound(w, cmd);
    assert KeptTicket(w, Exec(w, cmd), id);
  }

  /** The events that name a ticket since its registration grow by those the command generates. */
  lemma LifeContinues(g: Session, cmd: Command, id: TicketID)
    requires BornOk(g.world) && id in Exec(g.world, cmd).svc.tickets
    ensures Named(Exec(g.world, cmd).Since(id), id) == Named(g.world.Since(id), id) + Named(Generated(g, cmd), id)
  {
    hide Effect, Named;
    var (s, batch) := Effect(g.world.svc, cmd);
    assert Exec(g.world, cmd) == g.world.After(s, batch, TimeOf(g.world, cmd));
    hide Exec, BornOk, TimeOf;
    SinceAfter(g.world, s, batch, TimeOf(g.world, cmd), id);
    NamedAppend(g.world.Since(id), batch, id);
  }

  lemma SinceAfter(w: World, s: Service, batch: seq<Event>, now: Time, id: TicketID)
    requires BornOk(w) && id in s.tickets && (id !in w.svc.tickets ==> w.Since(id) == [])
    ensures w.After(s, batch, now).Since(id) == w.Since(id) + batch
  {
    if id in w.svc.tickets {
      assert (w.log + batch)[w.born[id]..] == w.log[w.born[id]..] + batch;
    } else {
      assert (w.log + batch)[|w.log|..] == batch;
    }
  }

  /** A new ticket's life begins with what the command that registers it hands its lane. */
  lemma FirstCarried(g: Session, cmd: Command, sent: seq<Event>, id: TicketID)
    requires Inv(g) && Sound(g.world) && Legal(g.world, cmd) && Contract(g, cmd)
    requires id !in g.world.svc.tickets && id in Advance(g, cmd).world.svc.tickets
    ensures var c, more := Advance(g, cmd).world.svc.tickets[id].config, Generated(g, cmd);
            && ConfigOf(g.world.svc, cmd) == Some(c)
            && Carries(sent + more, |sent|, Advance(g, cmd), id)
  {
    hide Advance, Inv, Sound, Effect, Legal, Contract, Named, Exec, ConfigOf, BornOk, World.Since;
    SoundBorn(g);
    AdvanceWorld(g, cmd);
    RegisteredHere(g, cmd, id);
    NoEarlierEvents(g, id);
    NamedNothing(id);
    LifeContinues(g, cmd, id);
    assert (sent + Generated(g, cmd))[|sent|..] == Generated(g, cmd);
  }

  lemma {:induction false} HandedOver(states: seq<State>, steps: seq<Step>, n: nat, id: TicketID) returns (k: nat)
    requires IsJointRun(states, steps) && n < |states| && id in states[n].session.world.svc.tickets
    ensures Carries(Handed(states[n].delivery, states[n].session.world.svc.tickets[id].config), k, states[n].session, id)
  {
    hide Takes, StateOk, Carries, Handed;
    if n == 0 {
      assert false;
    } else {
      JointOk(states, steps, n - 1);
      assert Leads(states, steps, n - 1);
      var a, b := states[n - 1], states[n];
      if id in a.session.world.svc.tickets {
        k := HandedOver(states, steps, n - 1, id);
        CarriedOn(a, steps[n - 1], b, k, id);
      } else {
        k := |Handed(a.delivery, b.session.world.svc.tickets[id].config)|;
        CarriedFirst(a, steps[n - 1], b, id);
      }
    }
  }

  /** What a step hands lane `c`. */
  ghost function HandedBy(a: State, step: Step, c: ConfigurationName): seq<Event> {
    if !step.Deliver? && ConfigOf(a.session.world.svc, step.cmd) == Some(c) then Generated(a.session, step.cmd) else []
  }

  lemma HandedStep(a: State, step: Step, b: State, c: ConfigurationName)
    requires Takes(a, step, b)
    ensures Handed(b.delivery, c) == Handed(a.delivery, c) + HandedBy(a, step, c)
  {
    hide Becomes, D.Next, ConfigOf, Handed, Generated;
    if step.Execute? {
      HandedNext(a.delivery, D.Generate(step.owner, Generated(a.session, step.cmd)), b.delivery, c);
    } else if step.Deliver? {
      HandedNext(a.delivery, step.action, b.delivery, c);
    }
  }

  lemma SessionStep(a: State, step: Step, b: State)
    requires Takes(a, step, b)
    ensures if step.Deliver? then b.session == a.session else Becomes(a.session, step.cmd, b.session)
  {
    hide Becomes, D.Next, HoldsLane, ConfigOf, Generated;
  }

  lemma CarriedOn(a: State, step: Step, b: State, k: nat, id: TicketID)
    requires StateOk(a) && Takes(a, step, b)
    requires id in a.session.world.svc.tickets && id in b.session.world.svc.tickets
    requires Carries(Handed(a.delivery, a.session.world.svc.tickets[id].config), k, a.session, id)
    ensures Carries(Handed(b.delivery, b.session.world.svc.tickets[id].config), k, b.session, id)
  {
    hide Takes, Reached, Inv, Sound, D.Reachable, Advance, Legal, Contract, ConfigOf, Carries, Handed, Generated;
    var c := a.session.world.svc.tickets[id].config;
    HandedStep(a, step, b, c);
    SessionStep(a, step, b);
    ReachedInv(a.session);
    hide StateOk;
    if step.Deliver? {
      assert Handed(a.delivery, c) + [] == Handed(a.delivery, c);
    } else {
      MoreCarried(a.session, step.cmd, Handed(a.delivery, c), k, id);
    }
  }

  lemma CarriedFirst(a: State, step: Step, b: State, id: TicketID)
    requires StateOk(a) && Takes(a, step, b)
    requires id !in a.session.world.svc.tickets && id in b.session.world.svc.tickets
    ensures var c := b.session.world.svc.tickets[id].config;
            Carries(Handed(b.delivery, c), |Handed(a.delivery, c)|, b.session, id)
  {
    hide Takes, Reached, Inv, Sound, D.Reachable, Advance, Legal, Contract, ConfigOf, Carries, Handed, Generated;
    var c := b.session.world.svc.tickets[id].config;
    HandedStep(a, step, b, c);
    SessionStep(a, step, b);
    ReachedInv(a.session);
    hide StateOk;
    FirstCarried(a.session, step.cmd, Handed(a.delivery, c), id);
  }

  // ----- what has been published

  lemma {:induction false} FlattenAppend(a: seq<D.Batch>, b: seq<D.Batch>)
    ensures Flatten(a + b) == Flatten(a) + Flatten(b)
  {
    if b == [] {
      assert a + b == a;
    } else {
      var front, last := b[..|b| - 1], b[|b| - 1];
      assert b == front + [last];
      FlattenAppend(a, front);
      FlattenAppendOne(a, front, last);
    }
  }

  lemma FlattenAppendOne(a: seq<D.Batch>, b: seq<D.Batch>, last: D.Batch)
    requires Flatten(a + b) == Flatten(a) + Flatten(b)
    ensures Flatten(a + (b + [last])) == Flatten(a) + Flatten(b + [last])
  {
    hide Flatten;
    FlattenOne(a + b, last);
    FlattenOne(b, last);
    assert a + (b + [last]) == (a + b) + [last];
  }

  /** The attempted events of a lane are the first ones of those it was handed. */
  lemma AttemptedFirst(s: D.System, c: ConfigurationName)
    requires D.Reachable(s)
    ensures s.LaneOf(c).attempts <= Handed(s, c)
    ensures s.LaneOf(c).finished == s.LaneOf(c).sent ==> s.LaneOf(c).attempts == Handed(s, c)
  {
    hide D.Reachable, D.System.LaneOf, Flatten;
    var current, k := DeliveryRuns.InOrderDelivery(s, c);
    var l := s.LaneOf(c);
    FlattenAppend(l.finished + current, l.pending);
    FlattenAppend(l.finished, current);
    assert Flatten(current) == Flatten(current)[..k] + Flatten(current)[k..];
  }

  lemma NamedPrefix(a: seq<Event>, b: seq<Event>, id: TicketID)
    requires a <= b
    ensures Named(a, id) <= Named(b, id)
  {
    NamedAppend(a, b[|a|..], id);
    hide Named;
    assert b == a + b[|a|..];
  }

  /** What was attempted of a lane from the position `k` of its events on. */
  function AttemptedSince(l: D.Lane, k: nat): seq<Event> {
    if k <= |l.attempts| then l.attempts[k..] else []
  }

  lemma AttemptedNamed(sent: seq<Event>, k: nat, l: D.Lane, g: Session, id: TicketID)
    requires Carries(sent, k, g, id) && l.attempts <= sent
    ensures Named(AttemptedSince(l, k), id) <= TicketEvents(g, id)
    ensures l.attempts == sent ==> Named(AttemptedSince(l, k), id) == TicketEvents(g, id)
  {
    if k <= |l.attempts| {
      assert l.attempts[k..] <= sent[k..];
      NamedPrefix(l.attempts[k..], sent[k..], id);
    } else {
      NamedNothing(id);
    }
  }

  lemma Beginning(g: Session, id: TicketID, seen: seq<Event>)
    requires Reached(g) && id in g.world.svc.tickets && seen <= TicketEvents(g, id)
    ensures Walk(Unborn, seen) != Wrong
    ensures forall i | 0 <= i < |seen| :: IsEnding(seen[i]) ==> i == |seen| - 1 && g.world.svc.tickets[id].status.IsTerminal()
    ensures forall i, j | 0 <= i < j < |seen| && seen[i].SearchingStarted? && seen[j].SearchingStarted? ::
              exists m | i < m < j :: seen[m].PotentialMatchCreated?
    ensures seen == TicketEvents(g, id) ==> Walk(Unborn, seen) == StatusPhase(g.world.svc.tickets[id])
  {
    hide Reached, TicketEvents, Walk, StatusPhase;
    var life := TicketEvents(g, id);
    EventGrammar(g, id);
    WrongStays(life, |seen|);
    assert life[..|seen|] == seen;
    LifeMeaning(seen);
  }

  /**
   Whatever the other configurations do, and however producers and workers interleave: what has been attempted of a
   ticket's events is the beginning of its life and keeps the grammar; nothing follows an ending. Once its lane has
   finished all it was handed, the whole life has been attempted, and it leads to where the ticket's status stands.
   */
  lemma PublishedGrammar(states: seq<State>, steps: seq<Step>, id: TicketID) returns (k: nat)
    requires IsJointRun(states, steps) && id in states[|steps|].session.world.svc.tickets
    ensures var g, t := states[|steps|].session, states[|steps|].session.world.svc.tickets[id];
            var l := states[|steps|].delivery.LaneOf(t.config);
            var seen := Named(AttemptedSince(l, k), id);
            && Carries(Flatten(l.sent), k, g, id)
            && seen <= TicketEvents(g, id) && Walk(Unborn, seen) != Wrong
            && (forall i | 0 <= i < |seen| :: IsEnding(seen[i]) ==> i == |seen| - 1 && t.status.IsTerminal())
            && (forall i, j | 0 <= i < j < |seen| && seen[i].SearchingStarted? && seen[j].SearchingStarted? ::
                  exists m | i < m < j :: seen[m].PotentialMatchCreated?)
            && (l.finished == l.sent ==> seen == TicketEvents(g, id) && Walk(Unborn, seen) == StatusPhase(t))
  {
    var b := states[|steps|];
    var t := b.session.world.svc.tickets[id];
    var l := b.delivery.LaneOf(t.config);
    hide IsJointRun, Reached, D.Reachable, Carries, TicketEvents, AttemptedSince, Named, Walk, D.System.LaneOf, StatusPhase;
    JointOk(states, steps, |steps|);
    k := HandedOver(states, steps, |steps|, id);
    AttemptedFirst(b.delivery, t.config);
    hide Flatten;
    AttemptedNamed(Handed(b.delivery, t.config), k, l, b.session, id);
    hide Handed;
    Beginning(b.session, id, Named(AttemptedSince(l, k), id));
  }
}
