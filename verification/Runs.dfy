/**
 Runs of the service: any sequence of commands and ticks, of any configurations, with any answers from the engine,
 the id generator and the clock, as long as the clock does not go back.
 */
module Runs {
  import opened Wrappers
  import opened Domain
  import opened ProposalTracking
  import opened ServiceState
  import opened Tick
  import opened Commands

  datatype Command =
    | Start(start: StartInput)
    | Backfill(backfill: BackfillInput)
    | Accept(accept: AcceptInput)
    | Stop(stop: StopInput)
    | DoTick(tick: TickInput)

  /**
   `log` is every event handed to a delivery lane, in generation order; `born` is the length of the log when the
   ticket now registered under an id was registered; `clock` is the latest time a command has read.
   */
  datatype World = World(svc: Service, log: seq<Event>, born: map<TicketID, nat>, clock: Time) {
    /** The events generated since ticket `id` was registered. */
    function Since(id: TicketID): seq<Event> {
      if id in born && born[id] <= |log| then log[born[id]..] else []
    }

    function After(s: Service, batch: seq<Event>, now: Time): World {
      World(s, log + batch, map id | id in s.tickets :: if id in svc.tickets && id in born then born[id] else |log|, now)
    }
  }

  function NewWorld(ticketRetention: Time): World {
    World(NewService(ticketRetention), [], map[], 1)
  }

  /** The time a command reads; AcceptMatch and StopMatchmaking change nothing that depends on it. */
  function TimeOf(w: World, cmd: Command): Time {
    match cmd
    case Start(x) => x.now
    case Backfill(x) => x.start.now
    case DoTick(x) => x.now
    case _ => w.clock
  }

  /** What the service and its batch are after a command; the result of the command itself is not needed. */
  ghost function Effect(s: Service, cmd: Command): (Service, seq<Event>) {
    match cmd
    case Start(x) => var r := StartMatchmaking(x, s); (r.svc, r.batch)
    case Backfill(x) => var r := StartMatchBackfill(x, s); (r.svc, r.batch)
    case Accept(x) => var r := AcceptMatch(x, s); (r.svc, r.batch)
    case Stop(x) => var r := StopMatchmaking(x, s); (r.svc, r.batch)
    case DoTick(x) => var r := RunTick(x, s); (r.svc, r.batch)
  }

  ghost function Exec(w: World, cmd: Command): World {
    var (s, batch) := Effect(w.svc, cmd);
    w.After(s, batch, TimeOf(w, cmd))
  }

  /** The clock does not go back, and Go iterates over a map by visiting each entry once. */
  ghost predicate Legal(w: World, cmd: Command) {
    && w.clock <= TimeOf(w, cmd)
    && (cmd.DoTick? ==> ValidOrder(cmd.tick, w.svc))
  }

  /** A run: the worlds it goes through, and the command that leads from each to the next. */
  ghost predicate IsRun(worlds: seq<World>, cmds: seq<Command>) {
    |worlds| == |cmds| + 1 && forall i | 0 <= i < |cmds| :: Leads(worlds, cmds, i)
  }

  ghost predicate Leads(worlds: seq<World>, cmds: seq<Command>, i: int) {
    0 <= i < |cmds| && i + 1 < |worlds| && Legal(worlds[i], cmds[i]) && worlds[i + 1] == Exec(worlds[i], cmds[i])
  }
}
