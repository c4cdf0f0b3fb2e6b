/**
 Configurations do not disturb each other: whatever the other configurations do between its critical sections, each one
 goes through exactly what it would go through if its commands ran alone, one after the other without interruption.
 */
module Isolation {
  import opened Wrappers
  import opened Domain
  import opened Interleaving

  // ----- the part of a state that belongs to one configuration

  function Of(tickets: set<TicketRef>, c: ConfigurationName): set<TicketRef> {
    set t <- tickets | t.config == c
  }

  /** A ticket of configuration `c` is registered under the id. */
  predicate Registers(s: State, id: TicketID, c: ConfigurationName) {
    id in s.tickets && s.tickets[id].config == c
  }

  /** The two states agree on the maps, the index and the ticket objects of configuration `c`. */
  ghost predicate SameStore(s: State, u: State, c: ConfigurationName) {
    && u.ByConfig(c) == s.ByConfig(c) && u.Active(c) == s.Active(c) && u.Serial(c) == s.Serial(c)
    && Of(u.live, c) == Of(s.live, c) && Of(u.expired, c) == Of(s.expired, c)
    && (forall id :: Registers(u, id, c) <==> Registers(s, id, c))
  }

  /** They agree on its commands, and so on what these have looked up and reserved. */
  ghost predicate SameCommands(s: State, u: State, c: ConfigurationName) {
    forall k :: (In(s, k, c) <==> In(u, k, c)) && (In(s, k, c) ==> u.commands[k] == s.commands[k])
  }

  ghost predicate SameFor(s: State, u: State, c: ConfigurationName) {
    SameStore(s, u, c) && SameCommands(s, u, c)
  }

  /** `u` contains what belongs to `c` in `s`, and nothing else. */
  ghost predicate Alone(s: State, u: State, c: ConfigurationName) {
    && SameFor(s, u, c) && Inv(u)
    && u.tickets.Keys == u.ByConfig(c).Keys && u.commands.Keys <= s.commands.Keys
    && u.reserved <= s.reserved && u.leaked <= s.leaked
    && (forall k, d :: In(u, k, d) ==> d == c)
  }

  // ----- the actions of one configuration

  /** The action is taken by a command of `c`, and is not a reservation that is refused, which changes nothing. */
  predicate Acts(s: State, a: Action, c: ConfigurationName) {
    (if a.Enter? then a.c == c else In(s, a.k, c)) && !(a.Reserve? && (a.id in s.tickets || a.id in s.reserved))
  }

  ghost function ActionsOf(states: seq<State>, actions: seq<Action>, c: ConfigurationName, n: nat): seq<Action>
    requires n <= |actions| && n <= |states|
  {
    if n == 0 then []
    else
      var before := ActionsOf(states, actions, c, n - 1);
      if Acts(states[n - 1], actions[n - 1], c) then before + [actions[n - 1]] else before
  }

  // ----- the shape of a step

  /** The maps and the index after a step. */
  ghost function Base(s: State, a: Action): State
    requires Next(s, a).Some?
  {
    if a.Commit? then s.Store(s.commands[a.k].ticket, true)
    else if a.Save? && !((a.t.id in s.tickets && s.tickets[a.t.id] != a.t) || (a.t.id in s.reserved && a.t.id !in s.tickets))
    then s.Store(a.t, a.isActive)
    else if a.EvictOne? && Removes(s, a.k, a.id) then s.Drop(s.commands[a.k].config, a.id)
    else s
  }

  lemma StepStore(s: State, a: Action, t: State)
    requires Next(s, a) == Some(t)
    ensures var b := Base(s, a);
            t.tickets == b.tickets && t.byConfig == b.byConfig && t.active == b.active && t.live == b.live
    ensures t.expired == if a.Expire? then s.expired + {s.ByConfig(s.commands[a.k].config)[a.id]} else s.expired
    ensures !a.Reserve? ==> t.serials == s.serials
    ensures a.Reserve? ==>
              if a.id in s.tickets || a.id in s.reserved then t == s
              else var c := s.commands[a.k].config; t.serials == s.serials[c := s.Serial(c) + 1]
  {
    hide State.Store, State.Drop, State.Serial;
    if a.EvictOne? && Removes(s, a.k, a.id) { DropShape(s, a.k, a.id, t); }
    if a.Commit? { CommitShape(s, a.k, t); }
    if a.Save? { StoreRest(s, a.t, a.isActive); }
  }

  lemma StoreRest(s: State, r: TicketRef, isActive: bool)
    ensures s.Store(r, isActive).expired == s.expired && s.Store(r, isActive).serials == s.serials
  {
  }

  lemma CommitShape(s: State, k: CommandID, t: State)
    requires Next(s, Commit(k)) == Some(t)
    ensures var b := s.Store(s.commands[k].ticket, true);
            t.tickets == b.tickets && t.byConfig == b.byConfig && t.active == b.active && t.live == b.live
    ensures t.expired == s.expired && t.serials == s.serials
  {
  }

  lemma DropShape(s: State, k: CommandID, id: TicketID, t: State)
    requires Next(s, EvictOne(k, id)) == Some(t) && Removes(s, k, id)
    ensures var b := s.Drop(s.commands[k].config, id);
            t.tickets == b.tickets && t.byConfig == b.byConfig && t.active == b.active && t.live == b.live
    ensures t.expired == s.expired && t.serials == s.serials
  {
  }

  /** A step changes the phase of one command, and never its configuration. */
  lemma StepCommand(s: State, a: Action, t: State)
    requires Next(s, a) == Some(t)
    ensures a.k in t.commands && t.commands == s.commands[a.k := t.commands[a.k]]
    ensures if a.Enter? then a.k !in s.commands && t.commands[a.k] == Inside(a.c, {})
            else a.k in s.commands && !s.commands[a.k].Finished?
                 && (t.commands[a.k].Finished? || t.commands[a.k].config == s.commands[a.k].config)
  {
  }

  // ----- a step of another configuration

  /** The command that takes the step is of another configuration, or its reservation is refused. */
  lemma Elsewhere(s: State, a: Action, t: State, c: ConfigurationName)
    requires Next(s, a) == Some(t) && !Acts(s, a, c)
    ensures t == s || (if a.Enter? then a.c != c else a.k in s.commands && !In(s, a.k, c))
  {
  }

  lemma OthersCommands(s: State, a: Action, t: State, c: ConfigurationName)
    requires Next(s, a) == Some(t) && !Acts(s, a, c)
    ensures SameCommands(s, t, c)
  {
    hide Next, Acts;
    Elsewhere(s, a, t, c);
    StepCommand(s, a, t);
  }

  lemma StoreElsewhere(s: State, r: TicketRef, isActive: bool, c: ConfigurationName)
    requires r.config != c && !Registers(s, r.id, c)
    ensures SameStore(s, s.Store(r, isActive), c)
  {
  }

  lemma DropElsewhere(s: State, d: ConfigurationName, id: TicketID, c: ConfigurationName)
    requires d != c && !Registers(s, id, c)
    ensures SameStore(s, s.Drop(d, id), c)
  {
  }

  /** `t` has the maps and the index of `b`, and agrees with it on the ticket objects of `c`. */
  predicate LikeBase(b: State, t: State, c: ConfigurationName) {
    && t.tickets == b.tickets && t.byConfig == b.byConfig && t.active == b.active && t.live == b.live
    && t.Serial(c) == b.Serial(c) && Of(t.expired, c) == Of(b.expired, c)
  }

  lemma SameFields(s: State, b: State, t: State, c: ConfigurationName)
    requires SameStore(s, b, c) && LikeBase(b, t, c)
    ensures SameStore(s, t, c)
  {
  }

  /** The maps of another configuration change; those of `c` do not. */
  lemma BaseElsewhere(s: State, a: Action, c: ConfigurationName)
    requires Inv(s) && Next(s, a).Some? && !a.Enter? && !In(s, a.k, c)
    ensures SameStore(s, Base(s, a), c)
  {
    hide MapsOk, ReservationsOk, LocksOk, SeenOk, ActiveOk, SameStore, Registered, State.Store, State.Drop;
    SameStoreSelf(s, c);
    if a.Commit? {
      ReservedApart(s, a.k);
      StoreElsewhere(s, s.commands[a.k].ticket, true, c);
    } else if a.Save? {
      SeenHere(s, a.k, a.t);
      StoreElsewhere(s, a.t, a.isActive, c);
    } else if a.EvictOne? && Removes(s, a.k, a.id) {
      EvictedIsRegistered(s, s.commands[a.k].config, a.id);
      DropElsewhere(s, s.commands[a.k].config, a.id, c);
    }
  }

  lemma SameStoreSelf(s: State, c: ConfigurationName)
    ensures SameStore(s, s, c)
  {
  }

  lemma OthersStore(s: State, a: Action, t: State, c: ConfigurationName)
    requires Inv(s) && Next(s, a) == Some(t) && !Acts(s, a, c)
    ensures SameStore(s, t, c)
  {
    hide Next, Inv, Acts, SameStore, Base;
    SameStoreSelf(s, c);
    Elsewhere(s, a, t, c);
    if t != s && !a.Enter? {
      BaseElsewhere(s, a, c);
      OthersLike(s, a, t, c);
      SameFields(s, Base(s, a), t, c);
    } else if t != s {
      EnterStore(s, a, t, c);
    }
  }

  lemma EnterStore(s: State, a: Action, t: State, c: ConfigurationName)
    requires Next(s, a) == Some(t) && a.Enter?
    ensures SameStore(s, t, c)
  {
  }

  lemma OthersLike(s: State, a: Action, t: State, c: ConfigurationName)
    requires Inv(s) && Next(s, a) == Some(t) && !a.Enter? && !In(s, a.k, c) && t != s
    ensures LikeBase(Base(s, a), t, c)
  {
    hide MapsOk, ReservationsOk, LocksOk, SeenOk, ActiveOk, Registered, Next;
    StepStore(s, a, t);
    StepCommand(s, a, t);
    BaseRest(s, a);
    hide Base;
    if a.Expire? {
      ExpireOwn(s, a, t);
      NotOf(s.expired, s.ByConfig(s.commands[a.k].config)[a.id], c);
    }
  }

  lemma BaseRest(s: State, a: Action)
    requires Next(s, a).Some?
    ensures Base(s, a).expired == s.expired && Base(s, a).serials == s.serials
  {
    hide Next;
  }

  lemma ExpireOwn(s: State, a: Action, t: State)
    requires MapsOk(s) && Next(s, a) == Some(t) && a.Expire?
    ensures var c := s.commands[a.k].config; a.id in s.ByConfig(c) && s.ByConfig(c)[a.id].config == c
  {
    EvictedIsRegistered(s, s.commands[a.k].config, a.id);
    hide MapsOk;
  }

  lemma NotOf(tickets: set<TicketRef>, t: TicketRef, c: ConfigurationName)
    requires t.config != c
    ensures Of(tickets + {t}, c) == Of(tickets, c)
  {
  }

  lemma ReservedApart(s: State, k: CommandID)
    requires ReservationsOk(s) && k in s.commands && s.commands[k].Reserving?
    ensures var r := s.commands[k].ticket;
            r.config == s.commands[k].config && r.id !in s.tickets && r.id in s.reserved && r.id !in s.leaked
  {
    assert Reserves(s, k, s.commands[k].ticket.id);
  }

  lemma SeenHere(s: State, k: CommandID, t: TicketRef)
    requires SeenOk(s) && Sees(s, k, t)
    ensures Registered(s, t) && t.config == s.commands[k].config && t.id in s.tickets && s.tickets[t.id] == t
  {
  }

  /** What a step takes from the reservations is the id its own command had reserved. */
  lemma StepReserved(s: State, a: Action, t: State)
    requires Next(s, a) == Some(t)
    ensures if a.Commit? || a.CancelReservation? then
              s.commands[a.k].Reserving? && t.reserved == s.reserved - {s.commands[a.k].ticket.id}
            else if a.Reserve? && a.id !in s.tickets && a.id !in s.reserved then t.reserved == s.reserved + {a.id}
            else t.reserved == s.reserved
    ensures if a.LeaveReserved? then s.commands[a.k].Reserving? && t.leaked == s.leaked + {s.commands[a.k].ticket.id}
            else t.leaked == s.leaked
  {
  }

  /** An id reserved by a command of `c`, or left reserved by one, is not given up by another command. */
  lemma OthersReserved(s: State, a: Action, t: State, u: State, c: ConfigurationName)
    requires Inv(s) && Next(s, a) == Some(t) && Alone(s, u, c) && !Acts(s, a, c)
    ensures u.reserved <= t.reserved && u.leaked <= t.leaked
  {
    hide MapsOk, LocksOk, SeenOk, ActiveOk, SameStore, Next, Acts;
    Elsewhere(s, a, t, c);
    StepReserved(s, a, t);
    if t != s && (a.Commit? || a.CancelReservation?) {
      ReservedApart(s, a.k);
      NotReservedAlone(s, u, c, a.k);
    }
  }

  lemma NotReservedAlone(s: State, u: State, c: ConfigurationName, k: CommandID)
    requires ReservationsOk(s) && Alone(s, u, c) && k in s.commands && s.commands[k].Reserving? && !In(s, k, c)
    ensures s.commands[k].ticket.id !in u.reserved
  {
    hide Alone, ReservationsOk, In;
    var id := s.commands[k].ticket.id;
    if id in u.reserved {
      ReservedApart(s, k);
      var j := ReservedAlone(s, u, c, id);
      OneReserver(s, j, k, id);
      assert false;
    }
  }

  lemma OneReserver(s: State, j: CommandID, k: CommandID, id: TicketID)
    requires ReservationsOk(s) && Reserves(s, j, id) && Reserves(s, k, id)
    ensures j == k
  {
  }

  lemma ReservedAlone(s: State, u: State, c: ConfigurationName, id: TicketID) returns (j: CommandID)
    requires Alone(s, u, c) && id in u.reserved && id !in s.leaked
    ensures In(s, j, c) && Reserves(s, j, id)
  {
    hide MapsOk, LocksOk, SeenOk, ActiveOk, SameStore;
    j :| Reserves(u, j, id);
    assert In(u, j, u.commands[j].config);
  }

  lemma SameForTwice(s: State, t: State, u: State, c: ConfigurationName)
    requires SameFor(s, t, c) && SameFor(s, u, c)
    ensures SameFor(t, u, c)
  {
  }

  lemma OthersStep(s: State, a: Action, t: State, u: State, c: ConfigurationName)
    requires Inv(s) && Next(s, a) == Some(t) && Alone(s, u, c) && !Acts(s, a, c)
    ensures Alone(t, u, c)
  {
    hide Inv, SameStore, SameCommands, Acts, Next;
    OthersReserved(s, a, t, u, c);
    OthersStore(s, a, t, c);
    OthersCommands(s, a, t, c);
    StepCommand(s, a, t);
    SameForTwice(s, t, u, c);
  }

  // ----- a step of its own

  /** What a command's own step needs is there when the command runs alone. */
  lemma OwnEnabled(s: State, a: Action, t: State, u: State, c: ConfigurationName)
    requires Next(s, a) == Some(t) && Alone(s, u, c) && LocksOk(s) && Acts(s, a, c)
    ensures Next(u, a).Some?
  {
    hide MapsOk, ReservationsOk, SeenOk, ActiveOk, SameStore, LocksOk;
    if a.Enter? {
      NotInside(s, c);
      LockHeld(u, c);
    } else {
      hide State.Store, State.Drop;
      assert u.ByConfig(c) == s.ByConfig(c) by { SameByConfig(s, u, c); }
    }
  }

  lemma SameByConfig(s: State, u: State, c: ConfigurationName)
    requires SameStore(s, u, c)
    ensures u.ByConfig(c) == s.ByConfig(c)
  {
  }

  lemma NotInside(s: State, c: ConfigurationName)
    requires LocksOk(s) && c !in s.locks
    ensures forall k :: !In(s, k, c)
  {
    forall k ensures !In(s, k, c) { assert !Holds(s, k, c); }
  }

  lemma LockHeld(u: State, c: ConfigurationName)
    requires LocksOk(u)
    ensures c in u.locks ==> exists k :: In(u, k, c)
  {
    if c in u.locks { assert Holds(u, u.locks[c], c); }
  }

  // ----- where the command goes on

  /** The lookup of a ticket of `c`. */
  lemma SameLookup(s: State, u: State, c: ConfigurationName, id: TicketID)
    requires MapsOk(s) && MapsOk(u) && SameStore(s, u, c)
    ensures Registers(u, id, c) <==> Registers(s, id, c)
    ensures Registers(s, id, c) ==> u.tickets[id] == s.tickets[id]
  {
  }

  lemma SameExpired(s: State, u: State, c: ConfigurationName)
    requires MapsOk(s) && SameStore(s, u, c)
    ensures var mine := s.ByConfig(c);
            (set id <- mine | mine[id] in u.expired) == (set id <- mine | mine[id] in s.expired)
  {
    var mine := s.ByConfig(c);
    forall id <- mine ensures mine[id] in u.expired <==> mine[id] in s.expired {
      assert mine[id] in Of(u.expired, c) <==> mine[id] in Of(s.expired, c);
    }
  }

  lemma NotTaken(s: State, u: State, c: ConfigurationName, id: TicketID)
    requires MapsOk(s) && Alone(s, u, c) && id !in s.tickets && id !in s.reserved
    ensures id !in u.tickets && id !in u.reserved
  {
  }

  /** The other steps depend on the phase of the command alone. */
  function PhaseAfter(ph: Phase, a: Action): Phase {
    match a
    case Enter(_, c) => Inside(c, {})
    case EndSweep(_) => if ph.Sweeping? then Inside(ph.config, {}) else ph
    case CancelReservation(_) | Commit(_) | LeaveReserved(_) => if ph.Reserving? then Inside(ph.config, ph.seen) else ph
    case EvictOne(_, id) => if ph.Sweeping? then Sweeping(ph.config, ph.todo - {id}) else ph
    case Exit(_) => Finished
    case _ => ph
  }

  lemma PhaseIs(s: State, a: Action, t: State)
    requires Next(s, a) == Some(t) && !a.Lookup? && !a.Reserve? && !a.Scan? && (a.Enter? || a.k in s.commands)
    ensures a.k in t.commands && t.commands[a.k] == PhaseAfter(if a.Enter? then Finished else s.commands[a.k], a)
  {
  }

  /** The command goes on alone as it does among the others. */
  lemma OwnPhase(s: State, a: Action, t: State, u: State, v: State, c: ConfigurationName)
    requires MapsOk(s) && Next(s, a) == Some(t) && Alone(s, u, c) && Acts(s, a, c) && Next(u, a) == Some(v)
    ensures a.k in t.commands && a.k in v.commands && v.commands[a.k] == t.commands[a.k]
  {
    hide MapsOk, ReservationsOk, LocksOk, SeenOk, ActiveOk, SameStore, State.Store, State.Drop;
    if a.Lookup? {
      SameLookup(s, u, c, a.id);
    } else if a.Reserve? {
      NotTaken(s, u, c, a.id);
      SameSerial(s, u, c);
    } else if a.Scan? {
      SameExpired(s, u, c);
      SameByConfig(s, u, c);
    } else {
      hide Next;
      PhaseIs(s, a, t);
      PhaseIs(u, a, v);
    }
  }

  lemma SameSerial(s: State, u: State, c: ConfigurationName)
    requires SameStore(s, u, c)
    ensures u.Serial(c) == s.Serial(c)
  {
  }

  // ----- what the step stores

  lemma OfOne(tickets: set<TicketRef>, t: TicketRef, c: ConfigurationName)
    requires t.config == c
    ensures Of(tickets + {t}, c) == Of(tickets, c) + {t} && Of(tickets - {t}, c) == Of(tickets, c) - {t}
  {
  }

  lemma StoreBoth(s: State, u: State, r: TicketRef, isActive: bool, c: ConfigurationName)
    requires SameStore(s, u, c) && r.config == c && u.tickets.Keys == u.ByConfig(c).Keys
    ensures var b := u.Store(r, isActive); SameStore(s.Store(r, isActive), b, c) && b.tickets.Keys == b.ByConfig(c).Keys
  {
    OfOne(s.live, r, c);
    OfOne(u.live, r, c);
    hide Of;
    var t, v := s.Store(r, isActive), u.Store(r, isActive);
    forall id ensures Registers(v, id, c) <==> Registers(t, id, c) {
      assert Registers(u, id, c) <==> Registers(s, id, c);
    }
  }

  lemma DropBoth(s: State, u: State, id: TicketID, c: ConfigurationName)
    requires SameStore(s, u, c) && u.tickets.Keys == u.ByConfig(c).Keys
    ensures var b := u.Drop(c, id); SameStore(s.Drop(c, id), b, c) && b.tickets.Keys == b.ByConfig(c).Keys
  {
    hide Of;
    var t, v := s.Drop(c, id), u.Drop(c, id);
    forall i ensures Registers(v, i, c) <==> Registers(t, i, c) {
      assert Registers(u, i, c) <==> Registers(s, i, c);
    }
  }

  lemma OwnBase(s: State, a: Action, u: State, c: ConfigurationName)
    requires Inv(s) && Next(s, a).Some? && Alone(s, u, c) && Acts(s, a, c) && Next(u, a).Some?
    ensures SameStore(Base(s, a), Base(u, a), c) && Base(u, a).tickets.Keys == Base(u, a).ByConfig(c).Keys
  {
    hide MapsOk, ReservationsOk, LocksOk, SeenOk, ActiveOk, SameStore, Registered, State.Store, State.Drop;
    if a.Commit? {
      ReservedApart(s, a.k);
      StoreBoth(s, u, s.commands[a.k].ticket, true, c);
    } else if a.Save? {
      SeenHere(s, a.k, a.t);
      SeenHere(u, a.k, a.t);
      StoreBoth(s, u, a.t, a.isActive, c);
    } else if a.EvictOne? {
      SameByConfig(s, u, c);
      SameRemoval(s, u, c, a.k, a.id);
      DropBoth(s, u, a.id, c);
    }
  }

  lemma SameRemoval(s: State, u: State, c: ConfigurationName, k: CommandID, id: TicketID)
    requires MapsOk(s) && SameStore(s, u, c) && In(s, k, c) && k in u.commands && u.commands[k] == s.commands[k]
    ensures Removes(u, k, id) <==> Removes(s, k, id)
  {
    var mine := s.ByConfig(c);
    if id in mine {
      assert mine[id] in Of(u.expired, c) <==> mine[id] in Of(s.expired, c);
    }
  }

  lemma OwnStore(s: State, a: Action, t: State, u: State, v: State, c: ConfigurationName)
    requires Inv(s) && Next(s, a) == Some(t) && Alone(s, u, c) && Acts(s, a, c) && Next(u, a) == Some(v)
    ensures SameStore(t, v, c) && v.tickets.Keys == v.ByConfig(c).Keys
  {
    hide MapsOk, ReservationsOk, LocksOk, SeenOk, ActiveOk, Next, Base, SameStore;
    OwnBase(s, a, u, c);
    StepStore(s, a, t);
    StepStore(u, a, v);
    BaseRest(s, a);
    BaseRest(u, a);
    SameSerial(s, u, c);
    if a.Reserve? { NotTaken(s, u, c, a.id); }
    if a.Expire? {
      ExpireOwn(s, a, t);
      SameByConfig(s, u, c);
      var r := s.ByConfig(c)[a.id];
      OfOne(s.expired, r, c);
      OfOne(u.expired, r, c);
    }
    SameOf(s, u, c);
    hide Alone;
    SameBoth(Base(s, a), Base(u, a), t, v, c);
  }

  lemma SameOf(s: State, u: State, c: ConfigurationName)
    requires SameStore(s, u, c)
    ensures Of(u.live, c) == Of(s.live, c) && Of(u.expired, c) == Of(s.expired, c)
  {
  }

  lemma SameBoth(b: State, d: State, t: State, v: State, c: ConfigurationName)
    requires SameStore(b, d, c)
    requires t.tickets == b.tickets && t.byConfig == b.byConfig && t.active == b.active && t.live == b.live
    requires v.tickets == d.tickets && v.byConfig == d.byConfig && v.active == d.active && v.live == d.live
    requires v.Serial(c) == t.Serial(c) && Of(v.expired, c) == Of(t.expired, c)
    ensures SameStore(t, v, c) && v.ByConfig(c) == d.ByConfig(c)
  {
    hide Of;
    forall id ensures Registers(v, id, c) <==> Registers(t, id, c) {
      assert Registers(d, id, c) <==> Registers(b, id, c);
    }
  }

  lemma OwnReserved(s: State, a: Action, t: State, u: State, v: State, c: ConfigurationName)
    requires MapsOk(s) && Next(s, a) == Some(t) && Alone(s, u, c) && Acts(s, a, c) && Next(u, a) == Some(v)
    ensures v.reserved <= t.reserved && v.leaked <= t.leaked
  {
    hide MapsOk, ReservationsOk, LocksOk, SeenOk, ActiveOk, SameStore, Next;
    StepReserved(s, a, t);
    StepReserved(u, a, v);
    if a.Reserve? { NotTaken(s, u, c, a.id); }
  }

  lemma OwnCommands(s: State, a: Action, t: State, u: State, v: State, c: ConfigurationName)
    requires MapsOk(s) && Next(s, a) == Some(t) && Alone(s, u, c) && Acts(s, a, c) && Next(u, a) == Some(v)
    ensures SameCommands(t, v, c) && v.commands.Keys <= t.commands.Keys && forall k, d :: In(v, k, d) ==> d == c
  {
    hide Inv, MapsOk, SameStore, SameCommands, Next, Acts;
    OwnPhase(s, a, t, u, v, c);
    StepCommand(s, a, t);
    StepCommand(u, a, v);
    SameAfter(s, t, u, v, c, a.k);
    ActsFor(s, a, c);
    forall k, d | In(v, k, d) ensures d == c {
      if k != a.k || !a.Enter? { assert In(u, k, u.commands[k].config); }
    }
  }

  lemma ActsFor(s: State, a: Action, c: ConfigurationName)
    requires Acts(s, a, c)
    ensures if a.Enter? then a.c == c else In(s, a.k, c)
  {
  }

  lemma SameAfter(s: State, t: State, u: State, v: State, c: ConfigurationName, k: CommandID)
    requires SameCommands(s, u, c) && k in t.commands && k in v.commands && v.commands[k] == t.commands[k]
    requires t.commands == s.commands[k := t.commands[k]] && v.commands == u.commands[k := v.commands[k]]
    ensures SameCommands(t, v, c)
  {
  }

  lemma OwnStep(s: State, a: Action, t: State, u: State, c: ConfigurationName) returns (v: State)
    requires Inv(s) && Next(s, a) == Some(t) && Alone(s, u, c) && Acts(s, a, c)
    ensures Next(u, a) == Some(v) && Alone(t, v, c) && forall j :: In(u, j, c) ==> a.k == j
  {
    hide MapsOk, ReservationsOk, LocksOk, SeenOk, ActiveOk, SameStore, SameCommands, Next;
    OwnEnabled(s, a, t, u, c);
    v := Next(u, a).value;
    OwnStore(s, a, t, u, v, c);
    OwnReserved(s, a, t, u, v, c);
    OwnCommands(s, a, t, u, v, c);
    StepInv(u, a, v);
    OnlyOne(u, a, v, c);
  }

  /** Whoever is inside takes the next step: a command that runs alone is not interrupted. */
  lemma OnlyOne(u: State, a: Action, v: State, c: ConfigurationName)
    requires LocksOk(u) && Next(u, a) == Some(v) && (a.Enter? ==> a.c == c) && (forall k, d :: In(u, k, d) ==> d == c)
    ensures forall j :: In(u, j, c) ==> a.k == j
  {
    forall j | In(u, j, c) ensures a.k == j {
      assert Holds(u, j, c);
      if !a.Enter? { assert In(u, a.k, u.commands[a.k].config) && Holds(u, a.k, c); }
    }
  }

  // ----- every interleaving

  /** A run of the commands of `c` one after the other: whoever is inside takes the next step. */
  ghost predicate OneAfterTheOther(alone: seq<State>, own: seq<Action>, c: ConfigurationName) {
    IsRun(alone, own) && forall i, j | 0 <= i < |own| && In(alone[i], j, c) :: own[i].k == j
  }

  lemma OneMore(alone: seq<State>, own: seq<Action>, c: ConfigurationName, a: Action, v: State)
    requires OneAfterTheOther(alone, own, c) && Next(alone[|own|], a) == Some(v)
    requires forall j :: In(alone[|own|], j, c) ==> a.k == j
    ensures OneAfterTheOther(alone + [v], own + [a], c)
  {
    hide Next, In;
    var more, all := alone + [v], own + [a];
    forall i | 0 <= i < |all| ensures Leads(more, all, i) {
      if i < |own| { assert Leads(alone, own, i); }
    }
  }

  lemma AloneAtFirst(c: ConfigurationName)
    ensures OneAfterTheOther([Initial], [], c) && Alone(Initial, Initial, c)
  {
  }

  lemma NextAlone(s: State, a: Action, t: State, c: ConfigurationName, alone: seq<State>, own: seq<Action>)
    returns (more: seq<State>)
    requires Inv(s) && Next(s, a) == Some(t) && OneAfterTheOther(alone, own, c) && Alone(s, alone[|own|], c)
    ensures var all := if Acts(s, a, c) then own + [a] else own;
            OneAfterTheOther(more, all, c) && SameFor(t, more[|all|], c) && Alone(t, more[|all|], c)
  {
    hide Next, Acts, Inv, SameFor;
    if Acts(s, a, c) {
      var v := OwnStep(s, a, t, alone[|own|], c);
      hide Alone, In;
      OneMore(alone, own, c, a, v);
      more := alone + [v];
      AloneIs(t, v, c);
    } else {
      OthersStep(s, a, t, alone[|own|], c);
      hide Alone, In;
      more := alone;
      AloneIs(t, alone[|own|], c);
    }
  }

  lemma AloneIs(s: State, u: State, c: ConfigurationName)
    requires Alone(s, u, c)
    ensures SameFor(s, u, c)
  {
  }

  /**
   In any interleaving, configuration `c` is at every point where its own actions alone would have brought it: its
   commands run one after the other without interruption, have looked up and reserved the same, and the maps, the index
   and the ticket objects of `c` are the same. Only a reservation that is refused is left out.
   */
  lemma {:induction false} RunsAlone(states: seq<State>, actions: seq<Action>, c: ConfigurationName, n: nat)
    returns (alone: seq<State>)
    requires IsRun(states, actions) && n <= |actions|
    ensures var own := ActionsOf(states, actions, c, n);
            && OneAfterTheOther(alone, own, c) && SameFor(states[n], alone[|own|], c) && Alone(states[n], alone[|own|], c)
  {
    hide Next, Acts, Inv, Alone, OneAfterTheOther, SameFor;
    if n == 0 {
      alone := [Initial];
      AloneAtFirst(c);
      AloneIs(Initial, Initial, c);
    } else {
      alone := RunsAlone(states, actions, c, n - 1);
      assert Leads(states, actions, n - 1);
      Interleaving.RunInv(states, actions, n - 1);
      alone := NextAlone(states[n - 1], actions[n - 1], states[n], c, alone, ActionsOf(states, actions, c, n - 1));
    }
  }
}
