/**
 Commands of different configurations interleave between the critical sections of the service's state lock. Each such
 section is one atomic step here: reserving, committing and cancelling a ticket id, looking a ticket up and saving it,
 and the two halves of an eviction sweep, which lists the expired tickets in one section and removes them in later ones.
 Any number of commands of any configurations take steps in any order; only commands of one configuration exclude each
 other.
 */
module Interleaving {
  import opened Wrappers
  import opened Domain

  type CommandID = nat

  /** A ticket object: two objects of a configuration with the same id differ in their serial number. */
  datatype TicketRef = TicketRef(serial: nat, id: TicketID, config: ConfigurationName)

  /** `seen` are the ticket objects the command has looked up and may change and save. */
  datatype Phase =
    | Inside(config: ConfigurationName, seen: set<TicketRef>) // holds the configuration's command lock
    | Reserving(config: ConfigurationName, seen: set<TicketRef>, ticket: TicketRef) // the id of `ticket` is reserved
    | Sweeping(config: ConfigurationName, todo: set<TicketID>) // between the sections of an eviction sweep
    | Finished

  /**
   `live` are the tickets whose status was active when they were last saved, `expired` those whose retention has run out;
   `leaked` are the ids a failed rollback left reserved; `serials` counts the ticket objects of each configuration.
   */
  datatype State = State(
    tickets: map<TicketID, TicketRef>,
    byConfig: map<ConfigurationName, map<TicketID, TicketRef>>,
    active: map<ConfigurationName, set<TicketID>>,
    live: set<TicketRef>,
    reserved: set<TicketID>,
    leaked: set<TicketID>,
    expired: set<TicketRef>,
    serials: map<ConfigurationName, nat>,
    locks: map<ConfigurationName, CommandID>,
    commands: map<CommandID, Phase>)
  {
    function ByConfig(c: ConfigurationName): map<TicketID, TicketRef> {
      if c in byConfig then byConfig[c] else map[]
    }

    function Active(c: ConfigurationName): set<TicketID> {
      if c in active then active[c] else {}
    }

    function Serial(c: ConfigurationName): nat {
      if c in serials then serials[c] else 0
    }

    /** The maps and the index after `t` is stored with an active status, or with another one. */
    function Store(t: TicketRef, isActive: bool): State {
      this.(tickets := tickets[t.id := t], byConfig := byConfig[t.config := ByConfig(t.config)[t.id := t]],
            active := active[t.config := if isActive then Active(t.config) + {t.id} else Active(t.config) - {t.id}],
            live := if isActive then live + {t} else live - {t})
    }

    function Drop(c: ConfigurationName, id: TicketID): State {
      this.(tickets := tickets - {id}, byConfig := byConfig[c := ByConfig(c) - {id}], active := active[c := Active(c) - {id}])
    }

    function At(k: CommandID, ph: Phase): State {
      this.(commands := commands[k := ph])
    }
  }

  const Initial := State(map[], map[], map[], {}, {}, {}, {}, map[], map[], map[])

  datatype Action =
    | Enter(k: CommandID, c: ConfigurationName)
    | Lookup(k: CommandID, id: TicketID)
    | Save(k: CommandID, t: TicketRef, isActive: bool)
    | Reserve(k: CommandID, id: TicketID)
    | CancelReservation(k: CommandID)
    | Commit(k: CommandID)
    | LeaveReserved(k: CommandID)
    | Expire(k: CommandID, id: TicketID)
    | Scan(k: CommandID)
    | EvictOne(k: CommandID, id: TicketID)
    | EndSweep(k: CommandID)
    | Exit(k: CommandID)

  /** `None` where the command is not at that step or its lock is taken. */
  function Next(s: State, a: Action): Option<State> {
    if a.Enter? then
      if a.k in s.commands || a.c in s.locks then None
      else Some(s.(locks := s.locks[a.c := a.k]).At(a.k, Inside(a.c, {})))
    else if a.k !in s.commands then None
    else
      var k, ph := a.k, s.commands[a.k];
      match a
      case Lookup(_, id) =>
        if !ph.Inside? && !ph.Reserving? then None
        else if id in s.tickets && s.tickets[id].config == ph.config
        then Some(s.At(k, ph.(seen := ph.seen + {s.tickets[id]})))
        else Some(s)
      case Save(_, t, isActive) =>
        if (!ph.Inside? && !ph.Reserving?) || t !in ph.seen then None
        else if t.id in s.tickets && s.tickets[t.id] != t then Some(s)
        else if t.id in s.reserved && t.id !in s.tickets then Some(s)
        else Some(s.Store(t, isActive))
      case Reserve(_, id) =>
        if !ph.Inside? then None
        else if id in s.tickets || id in s.reserved then Some(s)
        else Some(s.(reserved := s.reserved + {id}, serials := s.serials[ph.config := s.Serial(ph.config) + 1])
                   .At(k, Reserving(ph.config, ph.seen, TicketRef(s.Serial(ph.config), id, ph.config))))
      case CancelReservation(_) =>
        if !ph.Reserving? then None
        else Some(s.(reserved := s.reserved - {ph.ticket.id}).At(k, Inside(ph.config, ph.seen)))
      case Commit(_) =>
        if !ph.Reserving? then None
        else
          var t := ph.ticket;
          Some(s.Store(t, true).(reserved := s.reserved - {t.id}).At(k, Inside(ph.config, ph.seen)))
      case LeaveReserved(_) =>
        if !ph.Reserving? then None else Some(s.(leaked := s.leaked + {ph.ticket.id}).At(k, Inside(ph.config, ph.seen)))
      case Expire(_, id) =>
        if !ph.Inside? || id !in s.ByConfig(ph.config) then None
        else Some(s.(expired := s.expired + {s.ByConfig(ph.config)[id]}))
      case Scan(_) =>
        if !ph.Inside? then None
        else
          var mine := s.ByConfig(ph.config);
          Some(s.At(k, Sweeping(ph.config, set id <- mine | mine[id] in s.expired)))
      case EvictOne(_, id) =>
        if !ph.Sweeping? || id !in ph.todo then None
        else
          var rest := s.At(k, Sweeping(ph.config, ph.todo - {id}));
          var mine := s.ByConfig(ph.config);
          if id in mine && mine[id] in s.expired
          then Some(rest.Drop(ph.config, id))
          else Some(rest)
      case EndSweep(_) => if ph.Sweeping? && ph.todo == {} then Some(s.At(k, Inside(ph.config, {}))) else None
      case Exit(_) => if ph.Inside? then Some(s.(locks := s.locks - {ph.config}).At(k, Finished)) else None
  }

  /** An interleaving: the states it goes through, and the step that leads from each to the next. */
  ghost predicate IsRun(states: seq<State>, actions: seq<Action>) {
    && |states| == |actions| + 1 && states[0] == Initial
    && forall i | 0 <= i < |actions| :: Leads(states, actions, i)
  }

  ghost predicate Leads(states: seq<State>, actions: seq<Action>, i: int) {
    0 <= i < |actions| && i + 1 < |states| && Next(states[i], actions[i]) == Some(states[i + 1])
  }

  ghost predicate Reachable(s: State) {
    exists states: seq<State>, actions: seq<Action> :: IsRun(states, actions) && states[|actions|] == s
  }

  // ----- the invariant

  predicate In(s: State, k: CommandID, c: ConfigurationName) {
    k in s.commands && !s.commands[k].Finished? && s.commands[k].config == c
  }

  predicate Holds(s: State, k: CommandID, c: ConfigurationName) {
    c in s.locks && s.locks[c] == k
  }

  predicate Reserves(s: State, k: CommandID, id: TicketID) {
    k in s.commands && s.commands[k].Reserving? && s.commands[k].ticket.id == id
  }

  /** A registered ticket is found under its id in the global map and in the map of its own configuration. */
  predicate Registered(s: State, t: TicketRef) {
    t.id in s.tickets && s.tickets[t.id] == t && t.id in s.ByConfig(t.config) && s.ByConfig(t.config)[t.id] == t
  }

  ghost predicate MapsOk(s: State) {
    && (forall id <- s.tickets :: s.tickets[id].id == id && Registered(s, s.tickets[id]))
    && (forall c, id | id in s.ByConfig(c) ::
          s.ByConfig(c)[id].id == id && s.ByConfig(c)[id].config == c && Registered(s, s.ByConfig(c)[id]))
  }

  ghost predicate ReservationsOk(s: State) {
    && s.reserved !! s.tickets.Keys && s.leaked <= s.reserved
    && (forall k, id | Reserves(s, k, id) ::
          id in s.reserved && id !in s.leaked && s.commands[k].ticket.config == s.commands[k].config)
    && (forall k, j, id | Reserves(s, k, id) && Reserves(s, j, id) :: k == j)
    && (forall id <- s.reserved :: id in s.leaked || exists k :: Reserves(s, k, id))
  }

  ghost predicate LocksOk(s: State) {
    forall k, c :: In(s, k, c) <==> Holds(s, k, c)
  }

  predicate Sees(s: State, k: CommandID, t: TicketRef) {
    k in s.commands && (s.commands[k].Inside? || s.commands[k].Reserving?) && t in s.commands[k].seen
  }

  /** What a command has looked up is registered still, and of its own configuration. */
  ghost predicate SeenOk(s: State) {
    forall k, t | Sees(s, k, t) :: Registered(s, t) && t.config == s.commands[k].config
  }

  /** The active index of a configuration lists its tickets that were last saved with an active status. */
  predicate IndexedAt(s: State, c: ConfigurationName, id: TicketID) {
    id in s.Active(c) <==> id in s.ByConfig(c) && s.ByConfig(c)[id] in s.live
  }

  ghost predicate ActiveOk(s: State) {
    forall c, id :: IndexedAt(s, c, id)
  }

  ghost predicate Inv(s: State) {
    MapsOk(s) && ReservationsOk(s) && LocksOk(s) && SeenOk(s) && ActiveOk(s)
  }

  /** The section of the sweep that finds `id` still registered and expired. */
  predicate Removes(s: State, k: CommandID, id: TicketID) {
    && k in s.commands && s.commands[k].Sweeping? && id in s.ByConfig(s.commands[k].config)
    && s.ByConfig(s.commands[k].config)[id] in s.expired
  }

  /** The maps, as far as they can be read: nothing of the index, the reservations or the commands. */
  ghost predicate SameMaps(s: State, t: State) {
    t.tickets == s.tickets && forall c :: t.ByConfig(c) == s.ByConfig(c)
  }

  /** The three kinds of steps, by what they do to the maps. */
  lemma StepKinds(s: State, a: Action, t: State)
    requires SeenOk(s) && Next(s, a) == Some(t) && !a.Commit? && !(a.EvictOne? && Removes(s, a.k, a.id))
    ensures SameMaps(s, t)
    ensures !a.Save? ==> t.active == s.active && t.live == s.live
  {
    if a.Save? {
      assert Sees(s, a.k, a.t) && Registered(s, a.t);
      assert t == s.Store(a.t, a.isActive);
      StoreAgain(s, a.t, a.isActive);
    } else {
      assert t.tickets == s.tickets && t.byConfig == s.byConfig;
    }
  }

  /** Storing a registered ticket changes neither map. */
  lemma StoreAgain(s: State, t: TicketRef, isActive: bool)
    requires Registered(s, t)
    ensures SameMaps(s, s.Store(t, isActive))
  {
  }

  lemma MapsStep(s: State, a: Action, t: State)
    requires MapsOk(s) && ReservationsOk(s) && SeenOk(s) && Next(s, a) == Some(t)
    ensures MapsOk(t)
  {
    hide MapsOk, ReservationsOk, SeenOk;
    if a.Commit? {
      CommitMaps(s, a.k, t);
    } else if a.EvictOne? && Removes(s, a.k, a.id) {
      EvictMaps(s, a.k, a.id, t);
    } else {
      hide Next;
      StepKinds(s, a, t);
      MapsStay(s, t);
    }
  }

  lemma EvictedIsRegistered(s: State, c: ConfigurationName, id: TicketID)
    requires MapsOk(s) && id in s.ByConfig(c)
    ensures Registered(s, s.ByConfig(c)[id]) && id in s.tickets && s.tickets[id] == s.ByConfig(c)[id] && s.tickets[id].config == c
  {
  }

  lemma MapsStay(s: State, t: State)
    requires MapsOk(s) && SameMaps(s, t)
    ensures MapsOk(t)
  {
    assert forall r :: Registered(t, r) <==> Registered(s, r);
  }

  lemma CommitMaps(s: State, k: CommandID, t: State)
    requires MapsOk(s) && ReservationsOk(s) && k in s.commands && s.commands[k].Reserving? && Next(s, Commit(k)) == Some(t)
    ensures MapsOk(t) && s.commands[k].ticket.id !in s.tickets
  {
    hide Next, MapsOk, Registered, State.ByConfig;
    var r := s.commands[k].ticket;
    assert Reserves(s, k, r.id) && r.id !in s.tickets;
    Committed(s, k, t);
    StoredMaps(s, t, r);
  }

  lemma Committed(s: State, k: CommandID, t: State)
    requires Next(s, Commit(k)) == Some(t)
    ensures var r := s.commands[k].ticket; t.tickets == s.tickets[r.id := r] && StoresIn(s, t, r)
  {
  }

  ghost predicate StoresIn(s: State, t: State, r: TicketRef) {
    forall c :: t.ByConfig(c) == if c == r.config then s.ByConfig(c)[r.id := r] else s.ByConfig(c)
  }

  lemma StoredMaps(s: State, t: State, r: TicketRef)
    requires MapsOk(s) && r.id !in s.tickets && t.tickets == s.tickets[r.id := r] && StoresIn(s, t, r)
    ensures MapsOk(t)
  {
    hide State.ByConfig;
    forall c, id | id in t.ByConfig(c)
      ensures t.ByConfig(c)[id].id == id && t.ByConfig(c)[id].config == c && Registered(t, t.ByConfig(c)[id]) {
      if id != r.id || c != r.config {
        assert id in s.ByConfig(c) && Registered(s, s.ByConfig(c)[id]);
      }
    }
    forall id <- t.tickets ensures t.tickets[id].id == id && Registered(t, t.tickets[id]) {
      if id != r.id { assert Registered(s, s.tickets[id]); }
    }
  }

  lemma Dropped(s: State, k: CommandID, id: TicketID, t: State)
    requires Next(s, EvictOne(k, id)) == Some(t) && Removes(s, k, id)
    ensures t.tickets == s.tickets - {id}
    ensures forall c :: t.ByConfig(c) == if c == s.commands[k].config then s.ByConfig(c) - {id} else s.ByConfig(c)
  {
  }

  lemma EvictMaps(s: State, k: CommandID, id: TicketID, t: State)
    requires MapsOk(s) && Next(s, EvictOne(k, id)) == Some(t) && Removes(s, k, id)
    ensures MapsOk(t)
  {
    hide Next;
    EvictedIsRegistered(s, s.commands[k].config, id);
    Dropped(s, k, id, t);
    hide State.ByConfig;
    forall c, i | i in t.ByConfig(c)
      ensures t.ByConfig(c)[i].id == i && t.ByConfig(c)[i].config == c && Registered(t, t.ByConfig(c)[i]) {
      assert i in s.ByConfig(c) && Registered(s, s.ByConfig(c)[i]);
    }
    forall i <- t.tickets ensures t.tickets[i].id == i && Registered(t, t.tickets[i]) {
      assert Registered(s, s.tickets[i]);
    }
  }

  /** Looking up, saving, sweeping and so on: the reservations are as before, and no id comes to be registered. */
  lemma SameReservations(s: State, t: State)
    requires ReservationsOk(s) && t.reserved == s.reserved && t.leaked == s.leaked
    requires forall id <- t.tickets :: id in s.tickets || id !in s.reserved
    requires forall k, id :: Reserves(t, k, id) <==> Reserves(s, k, id)
    requires forall k, id :: Reserves(s, k, id) && Reserves(t, k, id) ==>
               t.commands[k].ticket == s.commands[k].ticket && t.commands[k].config == s.commands[k].config
    ensures ReservationsOk(t)
  {
  }

  lemma ReservationsStep(s: State, a: Action, t: State)
    requires ReservationsOk(s) && Next(s, a) == Some(t)
    ensures ReservationsOk(t)
  {
    hide ReservationsOk;
    if a.Reserve? || a.CancelReservation? || a.Commit? || a.LeaveReserved? {
      ReservationChanges(s, a, t);
    } else {
      KeepsReserving(s, a, t);
      NotReservedNow(s, a, t);
      hide Next;
      SameReservations(s, t);
    }
  }

  /** The other steps leave every command with the reservation it had. */
  lemma KeepsReserving(s: State, a: Action, t: State)
    requires Next(s, a) == Some(t) && !(a.Reserve? || a.CancelReservation? || a.Commit? || a.LeaveReserved?)
    ensures forall k, id :: Reserves(t, k, id) <==> Reserves(s, k, id)
    ensures forall k, id :: Reserves(s, k, id) && Reserves(t, k, id) ==>
              t.commands[k].ticket == s.commands[k].ticket && t.commands[k].config == s.commands[k].config
  {
    hide State.Store, State.Drop;
    if a.Save? { StoreCommands(s, a.t, a.isActive); }
    if a.EvictOne? { DropCommands(s, a.k, a.id, t); }
  }

  lemma StoreCommands(s: State, r: TicketRef, isActive: bool)
    ensures var t := s.Store(r, isActive); t.commands == s.commands && t.reserved == s.reserved && t.leaked == s.leaked
  {
  }

  lemma DropCommands(s: State, k: CommandID, id: TicketID, t: State)
    requires Next(s, EvictOne(k, id)) == Some(t)
    ensures k in s.commands && s.commands[k].Sweeping?
    ensures t.commands == s.commands[k := Sweeping(s.commands[k].config, s.commands[k].todo - {id})]
    ensures t.reserved == s.reserved && t.leaked == s.leaked && t.tickets.Keys <= s.tickets.Keys
  {
  }

  lemma NotReservedNow(s: State, a: Action, t: State)
    requires Next(s, a) == Some(t) && !(a.Reserve? || a.CancelReservation? || a.Commit? || a.LeaveReserved?)
    ensures t.reserved == s.reserved && t.leaked == s.leaked && forall id <- t.tickets :: id in s.tickets || id !in s.reserved
  {
    hide State.Drop;
    if a.EvictOne? { DropCommands(s, a.k, a.id, t); }
  }

  lemma ReservationChanges(s: State, a: Action, t: State)
    requires ReservationsOk(s) && Next(s, a) == Some(t)
    requires a.Reserve? || a.CancelReservation? || a.Commit? || a.LeaveReserved?
    ensures ReservationsOk(t)
  {
    forall k, id ensures k != a.k ==> (Reserves(t, k, id) <==> Reserves(s, k, id)) {
    }
    if s.commands[a.k].Reserving? {
      assert Reserves(s, a.k, s.commands[a.k].ticket.id);
    }
    if t.commands[a.k].Reserving? {
      assert Reserves(t, a.k, t.commands[a.k].ticket.id);
    }
    forall id <- t.reserved ensures id in t.leaked || exists k :: Reserves(t, k, id) {
      if id in s.reserved && id !in s.leaked {
        var k :| Reserves(s, k, id);
        assert k != a.k ==> Reserves(t, k, id);
      }
    }
  }

  // ----- looked-up tickets

  lemma SeenStep(s: State, a: Action, t: State)
    requires MapsOk(s) && ReservationsOk(s) && LocksOk(s) && SeenOk(s) && Next(s, a) == Some(t)
    ensures SeenOk(t)
  {
    hide MapsOk, ReservationsOk, LocksOk, Next, Registered;
    forall k, r | Sees(t, k, r) ensures Registered(t, r) && r.config == t.commands[k].config {
      SeenBefore(s, a, t, k, r);
      StaysRegistered(s, a, t, k, r);
    }
  }

  lemma SeenBefore(s: State, a: Action, t: State, k: CommandID, r: TicketRef)
    requires MapsOk(s) && SeenOk(s) && Next(s, a) == Some(t) && Sees(t, k, r)
    ensures Registered(s, r) && r.config == t.commands[k].config
    ensures In(s, k, r.config)
    ensures a.EvictOne? ==> Sees(s, k, r)
  {
    hide MapsOk, Registered;
    if Sees(s, k, r) {
      SameCommandConfig(s, a, t, k);
    } else {
      NewlySeen(s, a, t, k, r);
    }
  }

  lemma SameCommandConfig(s: State, a: Action, t: State, k: CommandID)
    requires Next(s, a) == Some(t) && k in s.commands && !s.commands[k].Finished? && k in t.commands && !t.commands[k].Finished?
    ensures t.commands[k].config == s.commands[k].config
  {
  }

  /** Only a lookup lets a command see more. */
  lemma NewlySeen(s: State, a: Action, t: State, k: CommandID, r: TicketRef)
    requires MapsOk(s) && Next(s, a) == Some(t) && Sees(t, k, r) && !Sees(s, k, r)
    ensures a.Lookup? && Registered(s, r) && r.config == t.commands[k].config && In(s, k, r.config)
  {
    hide Registered;
    assert k == a.k;
  }

  lemma StaysRegistered(s: State, a: Action, t: State, k: CommandID, r: TicketRef)
    requires MapsOk(s) && ReservationsOk(s) && LocksOk(s) && SeenOk(s) && Next(s, a) == Some(t)
    requires Registered(s, r) && In(s, k, r.config) && (a.EvictOne? ==> Sees(s, k, r))
    ensures Registered(t, r)
  {
    hide ReservationsOk, SeenOk;
    if a.Commit? {
      StaysCommitted(s, a.k, t, r);
    } else if a.EvictOne? && Removes(s, a.k, a.id) {
      assert In(s, a.k, s.commands[a.k].config);
      EvictedIsRegistered(s, s.commands[a.k].config, a.id);
      assert Holds(s, k, r.config);
      assert k != a.k;
    } else {
      hide Next;
      StepKinds(s, a, t);
    }
  }

  lemma StaysCommitted(s: State, k: CommandID, t: State, r: TicketRef)
    requires MapsOk(s) && ReservationsOk(s) && Next(s, Commit(k)) == Some(t) && Registered(s, r)
    ensures Registered(t, r)
  {
    CommitMaps(s, k, t);
    hide ReservationsOk, MapsOk;
  }

  // ----- the active index

  lemma ActiveStep(s: State, a: Action, t: State)
    requires MapsOk(s) && ReservationsOk(s) && SeenOk(s) && ActiveOk(s) && Next(s, a) == Some(t)
    ensures ActiveOk(t)
  {
    hide MapsOk, ReservationsOk, SeenOk, ActiveOk;
    if a.Commit? {
      StoreIndexed(s, s.commands[a.k].ticket, true);
      SameIndex(s.Store(s.commands[a.k].ticket, true), t);
    } else if a.EvictOne? && Removes(s, a.k, a.id) {
      DropIndexed(s, s.commands[a.k].config, a.id);
      SameIndex(s.Drop(s.commands[a.k].config, a.id), t);
    } else if a.Save? && t != s {
      StoreIndexed(s, a.t, a.isActive);
    } else {
      StepKinds(s, a, t);
      SameIndex(s, t);
    }
  }

  lemma SameIndex(s: State, t: State)
    requires ActiveOk(s) && SameMaps(s, t) && t.active == s.active && t.live == s.live
    ensures ActiveOk(t)
  {
    forall c, id ensures IndexedAt(t, c, id) {
      assert IndexedAt(s, c, id);
    }
  }

  lemma StoreIndexed(s: State, r: TicketRef, isActive: bool)
    requires MapsOk(s) && ActiveOk(s)
    ensures ActiveOk(s.Store(r, isActive))
  {
    var t := s.Store(r, isActive);
    forall c, id ensures IndexedAt(t, c, id) {
      assert IndexedAt(s, c, id);
    }
  }

  lemma DropIndexed(s: State, c: ConfigurationName, id: TicketID)
    requires ActiveOk(s)
    ensures ActiveOk(s.Drop(c, id))
  {
    var t := s.Drop(c, id);
    forall d, i ensures IndexedAt(t, d, i) {
      assert IndexedAt(s, d, i);
    }
  }

  lemma LocksStep(s: State, a: Action, t: State)
    requires LocksOk(s) && Next(s, a) == Some(t)
    ensures LocksOk(t)
  {
    forall k, c ensures In(t, k, c) <==> Holds(t, k, c) {
      assert In(s, k, c) <==> Holds(s, k, c);
      if a.k in s.commands && !s.commands[a.k].Finished? {
        assert In(s, a.k, s.commands[a.k].config);
      }
    }
  }

  lemma StepInv(s: State, a: Action, t: State)
    requires Inv(s) && Next(s, a) == Some(t)
    ensures Inv(t)
  {
    hide MapsOk, ReservationsOk, LocksOk, SeenOk, ActiveOk, Next;
    MapsStep(s, a, t);
    SeenStep(s, a, t);
    ActiveStep(s, a, t);
    ReservationsStep(s, a, t);
    LocksStep(s, a, t);
  }

  lemma {:induction false} RunInv(states: seq<State>, actions: seq<Action>, n: nat)
    requires IsRun(states, actions) && n < |states|
    ensures Inv(states[n])
  {
    if n > 0 {
      RunInv(states, actions, n - 1);
      assert Leads(states, actions, n - 1);
      hide MapsOk, ReservationsOk, LocksOk, SeenOk, ActiveOk, Next;
      StepInv(states[n - 1], actions[n - 1], states[n]);
    }
  }

  lemma ReachableInv(s: State)
    requires Reachable(s)
    ensures Inv(s)
  {
    var states: seq<State>, actions: seq<Action> :| IsRun(states, actions) && states[|actions|] == s;
    RunInv(states, actions, |actions|);
  }

  // ----- the main results, for every interleaving

  /** A ticket id belongs to at most one configuration, and is never both reserved and registered. */
  lemma IDsUnique(s: State, id: TicketID, c: ConfigurationName, d: ConfigurationName)
    requires Reachable(s) && id in s.ByConfig(c)
    ensures id in s.ByConfig(d) ==> c == d
    ensures id in s.tickets && s.tickets[id] == s.ByConfig(c)[id] && id !in s.reserved
  {
    ReachableInv(s);
    hide Reachable, LocksOk;
    EvictedIsRegistered(s, c, id);
    if id in s.ByConfig(d) { EvictedIsRegistered(s, d, id); }
  }

  /** A reserved id was left behind by a failed rollback, or is reserved by exactly one command in flight. */
  lemma ReservedByOne(s: State, id: TicketID)
    requires Reachable(s) && id in s.reserved
    ensures (id in s.leaked) != (exists k :: Reserves(s, k, id))
    ensures forall k, j :: Reserves(s, k, id) && Reserves(s, j, id) ==> k == j
  {
    ReachableInv(s);
    hide Reachable, LocksOk, MapsOk;
  }

  /**
   A command reserves an id exactly if no configuration has a ticket of that id, no command in flight has reserved it and
   no failed rollback has left it reserved; otherwise nothing changes.
   */
  lemma ReservesFreeOnly(s: State, k: CommandID, id: TicketID, t: State)
    requires Reachable(s) && Next(s, Reserve(k, id)) == Some(t)
    ensures var free := (forall c :: id !in s.ByConfig(c)) && id !in s.leaked && (forall j :: !Reserves(s, j, id));
            && (Reserves(t, k, id) <==> free) && (!free ==> t == s)
            && (free ==> t.reserved == s.reserved + {id} && t.leaked == s.leaked
                         && t.commands[k].ticket.config == s.commands[k].config)
    ensures SameMaps(s, t) && t.active == s.active
  {
    ReachableInv(s);
    hide Reachable, LocksOk, SeenOk, ActiveOk;
    if id in s.tickets { assert Registered(s, s.tickets[id]); }
    forall c ensures id !in s.tickets ==> id !in s.ByConfig(c) {
      assert id in s.ByConfig(c) ==> Registered(s, s.ByConfig(c)[id]);
    }
    hide MapsOk;
  }

  /** A cancelled reservation is free again; one that a failed rollback leaves behind stays taken. */
  lemma ReservationEnds(s: State, k: CommandID)
    requires Reachable(s) && Next(s, CancelReservation(k)).Some?
    ensures var id, t, u := s.commands[k].ticket.id, Next(s, CancelReservation(k)).value, Next(s, LeaveReserved(k)).value;
            && id !in t.reserved && id !in t.leaked && (forall j :: !Reserves(t, j, id))
            && id in u.reserved && id in u.leaked && (forall j :: !Reserves(u, j, id))
            && SameMaps(s, t) && SameMaps(s, u)
  {
    ReachableInv(s);
    hide Reachable, LocksOk, SeenOk, ActiveOk, MapsOk;
    var id, t, u := s.commands[k].ticket.id, Next(s, CancelReservation(k)).value, Next(s, LeaveReserved(k)).value;
    assert Reserves(s, k, id);
    forall j ensures !Reserves(t, j, id) && !Reserves(u, j, id) {
      assert Reserves(t, j, id) || Reserves(u, j, id) ==> Reserves(s, j, id);
    }
  }

  /**
   Committing registers the reserved ticket in the global map, in the map of its own configuration and in that
   configuration's active index, and gives the reservation back; it never replaces another ticket.
   */
  lemma CommitReplacesNothing(s: State, k: CommandID)
    requires Reachable(s) && Next(s, Commit(k)).Some?
    ensures var r, t := s.commands[k].ticket, Next(s, Commit(k)).value;
            && r.id !in s.tickets && (forall c :: r.id !in s.ByConfig(c)) && r.config == s.commands[k].config
            && t.tickets == s.tickets[r.id := r] && t.reserved == s.reserved - {r.id}
            && (forall c :: t.ByConfig(c) == if c == r.config then s.ByConfig(c)[r.id := r] else s.ByConfig(c))
            && (forall c :: t.Active(c) == if c == r.config then s.Active(c) + {r.id} else s.Active(c))
  {
    ReachableInv(s);
    hide Reachable, LocksOk;
    var id := s.commands[k].ticket.id;
    assert Reserves(s, k, id);
    forall c ensures id !in s.ByConfig(c) {
      assert id in s.ByConfig(c) ==> Registered(s, s.ByConfig(c)[id]);
    }
  }

  /** A lookup shows a command the registered ticket of that id if it is one of its own configuration, and nothing else. */
  lemma LookupSeesOwn(s: State, k: CommandID, id: TicketID, t: State, r: TicketRef)
    requires Reachable(s) && Next(s, Lookup(k, id)) == Some(t)
    ensures Sees(t, k, r) <==> Sees(s, k, r) || (r.id == id && r.config == s.commands[k].config && Registered(s, r))
    ensures t == s.(commands := t.commands)
    ensures forall j <- s.commands :: j != k ==> j in t.commands && t.commands[j] == s.commands[j]
  {
    ReachableInv(s);
    hide Reachable, LocksOk, ReservationsOk, SeenOk, ActiveOk;
    if id in s.tickets { assert Registered(s, s.tickets[id]); }
  }

  /**
   What a sweep removes in a later section is, although the section of the scan is over, still a ticket of its own
   configuration whose retention has run out; and it is removed from both maps. No other ticket is touched.
   */
  lemma EvictRemovesOwn(s: State, k: CommandID, id: TicketID, t: State)
    requires Reachable(s) && Next(s, EvictOne(k, id)) == Some(t) && t.tickets != s.tickets
    ensures id in s.tickets && s.tickets[id].config == s.commands[k].config && s.tickets[id] in s.expired
    ensures t.tickets == s.tickets - {id} && (forall c :: id !in t.ByConfig(c))
    ensures forall c :: t.ByConfig(c) == s.ByConfig(c) - {id}
  {
    hide Reachable, LocksOk, ReservationsOk, SeenOk, ActiveOk, MapsOk, Registered, Inv;
    assert MapsOk(s) by { ReachableInv(s); InvMaps(s); }
    var c0 := s.commands[k].config;
    assert Removes(s, k, id);
    EvictedIsRegistered(s, c0, id);
    Dropped(s, k, id, t);
    hide Next;
    forall c ensures t.ByConfig(c) == s.ByConfig(c) - {id} {
      if c != c0 && id in s.ByConfig(c) { EvictedIsRegistered(s, c, id); }
    }
  }

  lemma InvMaps(s: State)
    requires Inv(s)
    ensures MapsOk(s)
  {
    hide MapsOk, ReservationsOk, LocksOk, SeenOk, ActiveOk;
  }

  /** What a sweep has still to remove is on its list. */
  ghost predicate SweepOk(s: State) {
    forall k, id :: Removes(s, k, id) ==> id in s.commands[k].todo
  }

  lemma SweepStep(s: State, a: Action, t: State)
    requires MapsOk(s) && ReservationsOk(s) && LocksOk(s) && SeenOk(s) && SweepOk(s) && Next(s, a) == Some(t)
    ensures SweepOk(t)
  {
    hide MapsOk, ReservationsOk, LocksOk, SeenOk, Next, State.ByConfig;
    forall k, id | Removes(t, k, id) ensures id in t.commands[k].todo {
      if a.k == k { OwnSweepStep(s, a, t, id); } else { OthersSweepStep(s, a, t, k, id); }
    }
  }

  lemma OwnSweepStep(s: State, a: Action, t: State, id: TicketID)
    requires SweepOk(s) && Next(s, a) == Some(t) && Removes(t, a.k, id)
    ensures id in t.commands[a.k].todo
  {
    if a.EvictOne? {
      DropCommands(s, a.k, a.id, t);
      assert Removes(s, a.k, id) ==> id in s.commands[a.k].todo;
    }
  }

  /** While a command sweeps, its configuration is its own. */
  lemma OthersSweepStep(s: State, a: Action, t: State, k: CommandID, id: TicketID)
    requires MapsOk(s) && ReservationsOk(s) && LocksOk(s) && SeenOk(s) && SweepOk(s) && Next(s, a) == Some(t)
    requires Removes(t, k, id) && a.k != k
    ensures id in t.commands[k].todo
  {
    OthersPhase(s, a, t, k);
    var c := t.commands[k].config;
    LocksMean(s, a.k, k, c);
    SweepUndisturbed(s, a, t, k, id);
  }

  lemma OthersPhase(s: State, a: Action, t: State, k: CommandID)
    requires Next(s, a) == Some(t) && a.k != k && k in t.commands
    ensures k in s.commands && s.commands[k] == t.commands[k]
  {
    if a.EvictOne? { hide State.Drop; }
  }

  lemma LocksMean(s: State, j: CommandID, k: CommandID, c: ConfigurationName)
    requires LocksOk(s) && k in s.commands && s.commands[k].Sweeping? && s.commands[k].config == c
    ensures In(s, k, c) && Holds(s, k, c) && (In(s, j, c) ==> Holds(s, j, c))
  {
    assert In(s, k, c) <==> Holds(s, k, c);
    assert In(s, j, c) <==> Holds(s, j, c);
  }

  lemma SweepUndisturbed(s: State, a: Action, t: State, k: CommandID, id: TicketID)
    requires MapsOk(s) && ReservationsOk(s) && SeenOk(s) && SweepOk(s) && Next(s, a) == Some(t) && Removes(t, k, id) && a.k != k
    requires k in s.commands && s.commands[k] == t.commands[k] && !In(s, a.k, s.commands[k].config)
    ensures id in t.commands[k].todo
  {
    hide MapsOk, SeenOk, ReservationsOk, SweepOk;
    var c := s.commands[k].config;
    ConfigKept(s, a, t, c);
    hide Next, State.ByConfig;
    assert Removes(s, k, id);
    SweepMeans(s, k, id);
  }

  lemma SweepMeans(s: State, k: CommandID, id: TicketID)
    requires SweepOk(s) && Removes(s, k, id)
    ensures id in s.commands[k].todo
  {
  }

  /** A step of a command outside a configuration neither changes its map nor lets one of its tickets expire. */
  lemma ConfigKept(s: State, a: Action, t: State, c: ConfigurationName)
    requires MapsOk(s) && ReservationsOk(s) && SeenOk(s) && Next(s, a) == Some(t) && !In(s, a.k, c)
    ensures t.ByConfig(c) == s.ByConfig(c)
    ensures forall id <- s.ByConfig(c) :: s.ByConfig(c)[id] in t.expired ==> s.ByConfig(c)[id] in s.expired
  {
    hide ReservationsOk, MapsOk, SeenOk;
    ExpiresOwn(s, a, t, c);
    if a.Commit? {
      assert s.commands[a.k].ticket.config == s.commands[a.k].config by { ReservedHere(s, a.k); }
      Committed(s, a.k, t);
      hide Next, State.ByConfig;
    } else if a.EvictOne? && Removes(s, a.k, a.id) {
      Dropped(s, a.k, a.id, t);
      hide Next, State.ByConfig;
    } else {
      StepKinds(s, a, t);
      hide Next, State.ByConfig, Removes;
    }
  }

  lemma ExpiresOwn(s: State, a: Action, t: State, c: ConfigurationName)
    requires MapsOk(s) && Next(s, a) == Some(t) && !In(s, a.k, c)
    ensures forall id <- s.ByConfig(c) :: s.ByConfig(c)[id] in t.expired ==> s.ByConfig(c)[id] in s.expired
  {
    hide Registered, State.Store, State.Drop;
    if a.Expire? {
    } else {
      hide MapsOk;
      SameExpiry(s, a, t);
    }
  }

  lemma SameExpiry(s: State, a: Action, t: State)
    requires Next(s, a) == Some(t) && !a.Expire?
    ensures t.expired == s.expired
  {
    hide State.ByConfig;
  }

  lemma ReservedHere(s: State, k: CommandID)
    requires ReservationsOk(s) && k in s.commands && s.commands[k].Reserving?
    ensures s.commands[k].ticket.config == s.commands[k].config
  {
    assert Reserves(s, k, s.commands[k].ticket.id);
  }

  lemma {:induction false} SweepInv(states: seq<State>, actions: seq<Action>, n: nat)
    requires IsRun(states, actions) && n < |states|
    ensures SweepOk(states[n])
  {
    if n > 0 {
      RunInv(states, actions, n - 1);
      SweepInv(states, actions, n - 1);
      assert Leads(states, actions, n - 1);
      hide MapsOk, ReservationsOk, LocksOk, SeenOk, ActiveOk, SweepOk, Next;
      SweepStep(states[n - 1], actions[n - 1], states[n]);
    }
  }

  /**
   However other commands interleave with it, a sweep that ends has left no ticket of its configuration registered whose
   retention has run out.
   */
  lemma SweepComplete(s: State, k: CommandID, id: TicketID)
    requires Reachable(s) && Next(s, EndSweep(k)).Some? && id in s.tickets && s.tickets[id].config == s.commands[k].config
    ensures s.tickets[id] !in s.expired
  {
    ReachableInv(s);
    var states: seq<State>, actions: seq<Action> :| IsRun(states, actions) && states[|actions|] == s;
    SweepInv(states, actions, |actions|);
    hide Reachable, LocksOk, ReservationsOk, SeenOk, ActiveOk, IsRun;
    assert Registered(s, s.tickets[id]);
    hide MapsOk;
    assert s.tickets[id] in s.expired ==> Removes(s, k, id);
  }

  /**
   A command that has looked its ticket up can save it in any later section: the save is never refused, changes neither
   map, and in the active indices it sets or clears the mark of that ticket alone.
   */
  lemma SaveOnlyIndexes(s: State, k: CommandID, t: TicketRef, isActive: bool, u: State)
    requires Reachable(s) && Next(s, Save(k, t, isActive)) == Some(u)
    ensures u.tickets == s.tickets && forall c :: u.ByConfig(c) == s.ByConfig(c)
    ensures t.id in u.Active(t.config) <==> isActive
    ensures forall c, id | c != t.config || id != t.id :: id in u.Active(c) <==> id in s.Active(c)
  {
    ReachableInv(s);
    hide Reachable, LocksOk, MapsOk, ReservationsOk, ActiveOk;
    assert Sees(s, k, t) && Registered(s, t);
    StoreAgain(s, t, isActive);
  }

  /** The active index of a configuration lists exactly its tickets that were last saved with an active status. */
  lemma ActiveIndexAgrees(s: State, c: ConfigurationName, id: TicketID)
    requires Reachable(s)
    ensures id in s.Active(c) <==> id in s.ByConfig(c) && s.ByConfig(c)[id] in s.live
  {
    ReachableInv(s);
    hide Reachable, LocksOk, MapsOk, ReservationsOk, SeenOk;
    assert IndexedAt(s, c, id);
  }

  /** Commands of one configuration exclude each other. */
  lemma OneCommandPerConfiguration(s: State, k: CommandID, j: CommandID, c: ConfigurationName)
    requires Reachable(s) && In(s, k, c) && In(s, j, c)
    ensures k == j
  {
    ReachableInv(s);
    hide Reachable, MapsOk, ReservationsOk;
    assert Holds(s, k, c) && Holds(s, j, c);
  }
}
