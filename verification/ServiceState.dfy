/**
 The ticket store of the service as a value: the global map, the per-configuration index, the index of active
 tickets, the reserved ids, the clean-up times and the proposal trackers, with the operations of service.go on them.
 */
module ServiceState {
  import opened Wrappers
  import opened Domain
  import opened ProposalTracking

  const Minute: Time := 60_000_000_000
  const DefaultTicketRetention: Time := 180 * Minute

  datatype Service = Service(
    ticketRetention: Time,
    tickets: map<TicketID, TicketState>,
    byConfig: map<ConfigurationName, set<TicketID>>,
    active: map<ConfigurationName, set<TicketID>>,
    reserved: set<TicketID>,
    nextCleanup: map<ConfigurationName, Time>,
    trackers: map<ConfigurationName, Tracker>)
  {
    /** The configured retention, or the default when it is not positive. */
    function Retention(): Time {
      if ticketRetention > 0 then ticketRetention else DefaultTicketRetention
    }

    function CleanupInterval(): Time {
      if Minute < Retention() then Minute else Retention()
    }

    // A missing entry of a Go map reads as the zero value.

    function ByConfig(c: ConfigurationName): set<TicketID> {
      if c in byConfig then byConfig[c] else {}
    }

    function Active(c: ConfigurationName): set<TicketID> {
      if c in active then active[c] else {}
    }

    function NextCleanup(c: ConfigurationName): Time {
      if c in nextCleanup then nextCleanup[c] else 0
    }

    function TrackerOf(c: ConfigurationName): Tracker {
      if c in trackers then trackers[c] else EmptyTracker
    }

    /** `tracker(name)` creates the configuration's tracker on first use. */
    function WithTracker(c: ConfigurationName): Service {
      SetTracker(c, TrackerOf(c))
    }

    function SetTracker(c: ConfigurationName, t: Tracker): Service {
      this.(trackers := trackers[c := t])
    }

    /** A registered ticket was mutated in place. */
    function Put(t: TicketState): Service {
      this.(tickets := tickets[t.id := t])
    }

    function SyncIndex(t: TicketState): Service {
      this.(active := active[t.config := if t.status.IsActive() then Active(t.config) + {t.id}
                                         else Active(t.config) - {t.id}])
    }

    /** SaveTicket on the ticket object that is registered under this id, or on one whose id is free. */
    function Save(t: TicketState): Service {
      Put(t).(byConfig := byConfig[t.config := ByConfig(t.config) + {t.id}]).SyncIndex(t)
    }

    predicate Taken(id: TicketID) {
      id in tickets || id in reserved
    }

    function Reserve(id: TicketID): Service {
      this.(reserved := reserved + {id})
    }

    function CancelReservation(id: TicketID): Service {
      this.(reserved := reserved - {id})
    }

    function Commit(t: TicketState): Service {
      Save(t).CancelReservation(t.id)
    }

    /** The tickets of `c` whose retention has run out at `now`. */
    function Expired(c: ConfigurationName, now: Time): set<TicketID> {
      set id <- ByConfig(c) | id in tickets && tickets[id].Terminal() && tickets[id].endTime != 0
                              && now - tickets[id].endTime >= Retention()
    }

    function Remove(c: ConfigurationName, ids: set<TicketID>): Service {
      this.(tickets := tickets - ids,
            byConfig := if c in byConfig then byConfig[c := byConfig[c] - ids] else byConfig,
            active := if c in active then active[c := active[c] - ids] else active)
    }

    /** evictExpiredTickets: at most one sweep per interval and configuration. */
    function Evict(c: ConfigurationName, now: Time): Service {
      if now < NextCleanup(c) then this
      else Remove(c, Expired(c, now)).(nextCleanup := nextCleanup[c := now + CleanupInterval()])
    }

    // ----- invariants

    /**
     The indices say what the tickets say: the configurations' indices partition the registered tickets by
     their configuration, and the active index of a configuration lists exactly its tickets of active status.
     */
    ghost predicate IndexOk() {
      && (forall id <- tickets :: tickets[id].id == id)
      && (forall c, id :: Indexed(c, id))
    }

    predicate Indexed(c: ConfigurationName, id: TicketID) {
      && (id in ByConfig(c) <==> id in tickets && tickets[id].config == c)
      && (id in Active(c) <==> id in tickets && tickets[id].config == c && !tickets[id].Terminal())
    }

    /** No ticket is left with events that were recorded but not handed to a batch. */
    ghost predicate Quiet() {
      forall id <- tickets :: tickets[id].events == []
    }
  }

  function NewService(ticketRetention: Time): Service {
    Service(ticketRetention, map[], map[], map[], {}, map[], map[])
  }

  lemma SaveIndexOk(s: Service, t: TicketState)
    requires s.IndexOk()
    requires t.id in s.tickets ==> s.tickets[t.id].config == t.config
    ensures s.Save(t).IndexOk()
  {
    forall c, id ensures s.Save(t).Indexed(c, id) {
      assert s.Indexed(c, id);
    }
  }

  /** Mutating a registered ticket without saving it is harmless as long as it stays on the same side of "active". */
  lemma PutIndexOk(s: Service, t: TicketState)
    requires s.IndexOk()
    requires t.id in s.tickets && s.tickets[t.id].config == t.config && s.tickets[t.id].Terminal() == t.Terminal()
    ensures s.Put(t).IndexOk()
  {
    forall c, id ensures s.Put(t).Indexed(c, id) {
      assert s.Indexed(c, id);
    }
  }

  lemma EvictIndexOk(s: Service, c: ConfigurationName, now: Time)
    requires s.IndexOk()
    ensures s.Evict(c, now).IndexOk()
  {
    forall d, id ensures s.Evict(c, now).Indexed(d, id) {
      assert s.Indexed(d, id);
      assert s.Indexed(c, id);
    }
  }
}
