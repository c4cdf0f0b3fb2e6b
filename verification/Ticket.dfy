/**
 The ticket aggregate as the object the source has: one mutable record shared by every reader of the service.
 `State()` is its abstract value; each method is proved to change it as the function of the same name in
 `TicketState` does, and to change nothing when it reports an error.
 */
module TicketAggregate {
  import opened Wrappers
  import opened Domain

  /** One more player adds at most that player's own team. */
  lemma OnePlayerMore(players: seq<Player>, p: Player, teams: map<PlayerID, string>)
    ensures TeamsOf(players + [p], teams)
         == if p.id in teams then TeamsOf(players, teams)[p.id := teams[p.id]] else TeamsOf(players, teams)
  {
    assert PlayerIDs(players + [p]) == PlayerIDs(players) + {p.id};
  }

  class Ticket {
    const id: TicketID
    const configurationName: ConfigurationName
    const players: seq<Player>
    const isBackfill: bool
    const gameSessionARN: string
    const startTime: Time
    var status: TicketStatus
    var statusReason: string
    var statusMessage: string
    var endTime: Time
    var matchID: MatchID
    var cancelByAPI: bool
    var playerTeams: map<PlayerID, string>
    var playerAcceptances: map<PlayerID, bool>
    var ruleMetrics: seq<RuleMetric>
    var events: seq<Event>

    function State(): (s: TicketState)
      reads this
      ensures s.id == id && s.config == configurationName
    {
      TicketState(id, configurationName, players, isBackfill, gameSessionARN, startTime, status, statusReason,
                  statusMessage, endTime, matchID, cancelByAPI, playerTeams, playerAcceptances, ruleMetrics, events)
    }

    constructor (id: TicketID, config: ConfigurationName, players: seq<Player>, now: Time)
      requires id != "" && players != []
      ensures NewTicketState(id, config, players, now) == Some(State())
    {
      this.id, configurationName, this.players, startTime := id, config, players, now;
      isBackfill, gameSessionARN := false, "";
      status, statusReason, statusMessage, endTime, matchID := Queued, "", "", 0, "";
      cancelByAPI, playerTeams, playerAcceptances, ruleMetrics := false, map[], map[], [];
      events := [SearchingStarted(id)];
    }

    constructor Backfill(id: TicketID, config: ConfigurationName, players: seq<Player>, gameSessionARN: string,
                         now: Time)
      requires id != "" && players != []
      ensures NewBackfillTicketState(id, config, players, gameSessionARN, now) == Some(State())
    {
      this.id, configurationName, this.players, startTime := id, config, players, now;
      isBackfill, this.gameSessionARN := true, gameSessionARN;
      status, statusReason, statusMessage, endTime, matchID := Queued, "", "", 0, "";
      cancelByAPI, playerTeams, playerAcceptances, ruleMetrics := false, map[], map[], [];
      events := [SearchingStarted(id)];
      new;
      SeatPlayers();
    }

    /** Replaces the recorded teams by the ones the players were listed with. */
    method SeatPlayers()
      modifies this`playerTeams
      ensures playerTeams == SeatedTeams(players)
    {
      playerTeams := map[];
      for i := 0 to |players|
        invariant playerTeams == SeatedTeams(players[..i])
      {
        assert players[..i + 1][..i] == players[..i];
        playerTeams := playerTeams[players[i].id := players[i].team];
      }
      assert players[..|players|] == players;
    }

    method Transition(next: TicketStatus) returns (ok: bool)
      modifies this`status
      ensures ok == old(status).CanTransitionTo(next)
      ensures status == if ok then next else old(status)
    {
      ok := status.CanTransitionTo(next);
      if ok {
        status := next;
      }
    }

    method AssignToProposal(m: MatchID) returns (ok: bool)
      modifies this
      ensures var r := old(State()).AssignToProposal(m);
              ok == r.Some? && State() == if ok then r.value else old(State())
    {
      ok := Transition(RequiresAcceptance);
      if ok {
        matchID := m;
        statusReason := "";
      }
    }

    method MoveToPlacing(m: MatchID) returns (ok: bool)
      modifies this
      ensures var r := old(State()).MoveToPlacing(m);
              ok == r.Some? && State() == if ok then r.value else old(State())
    {
      ok := Transition(Placing);
      if ok && m != "" {
        matchID := m;
      }
    }

    method Complete(now: Time) returns (ok: bool)
      modifies this
      ensures var r := old(State()).Complete(now);
              ok == r.Some? && State() == if ok then r.value else old(State())
    {
      ok := Transition(Completed);
      if ok {
        endTime := now;
      }
    }

    method MarkTimedOut(reason: string, message: string, now: Time) returns (ok: bool)
      modifies this
      ensures var r := old(State()).MarkTimedOut(reason, message, now);
              ok == r.Some? && State() == if ok then r.value else old(State())
    {
      ok := Transition(TimedOut);
      if ok {
        endTime, statusReason, statusMessage := now, reason, message;
        events := events + [MatchmakingTimedOut(id, matchID, reason, message, ruleMetrics)];
      }
    }

    method MarkCancelled(message: string, now: Time) returns (ok: bool)
      modifies this
      ensures var r := old(State()).MarkCancelled(message, now);
              ok == r.Some? && State() == if ok then r.value else old(State())
    {
      ok := Transition(Cancelled);
      if ok {
        endTime, statusReason, statusMessage := now, "Cancelled", message;
        events := events + [MatchmakingCancelled(id, matchID, statusReason, statusMessage, ruleMetrics)];
      }
    }

    method ReturnToSearching(reason: string) returns (ok: bool)
      modifies this
      ensures var r := old(State()).ReturnToSearching(reason);
              ok == r.Some? && State() == if ok then r.value else old(State())
    {
      ok := Transition(Searching);
      if ok {
        matchID, playerAcceptances, playerTeams := "", map[], map[];
        if isBackfill {
          SeatPlayers();
        }
        statusReason, statusMessage := reason, "";
        events := events + [SearchingStarted(id)];
      }
    }

    method RequestCancel()
      modifies this
      ensures State() == old(State()).RequestCancel()
    {
      cancelByAPI := true;
    }

    method ObserveSearching()
      modifies this
      ensures State() == old(State()).ObserveSearching()
    {
      status := Searching;
    }

    method SetPlayerTeams(teams: map<PlayerID, string>)
      modifies this`playerTeams
      ensures State() == old(State()).SetPlayerTeams(teams)
    {
      if |teams| != 0 {
        for i := 0 to |players|
          invariant playerTeams == old(playerTeams) + TeamsOf(players[..i], teams)
        {
          OnePlayerMore(players[..i], players[i], teams);
          assert players[..i] + [players[i]] == players[..i + 1];
          if players[i].id in teams {
            playerTeams := playerTeams[players[i].id := teams[players[i].id]];
          }
        }
        assert players[..|players|] == players;
      } else {
        assert playerTeams == playerTeams + TeamsOf(players, teams);
      }
    }

    method SetRuleMetrics(metrics: seq<RuleMetric>)
      modifies this
      ensures State() == old(State()).SetRuleMetrics(metrics)
    {
      ruleMetrics := metrics;
    }

    method ValidatePlayerAcceptances(ids: seq<PlayerID>) returns (err: Outcome<Error>)
      ensures err == State().ValidatePlayerAcceptances(ids)
    {
      if status != RequiresAcceptance {
        return Fail(InvalidTransition);
      }
      if ids == [] {
        return Fail(InvalidRequest);
      }
      for i := 0 to |ids|
        invariant forall k | 0 <= k < i :: ids[k] in PlayerIDs(players)
      {
        var found := false;
        for j := 0 to |players|
          invariant found == (ids[i] in PlayerIDs(players[..j]))
        {
          assert PlayerIDs(players[..j + 1]) == PlayerIDs(players[..j]) + {players[j].id};
          found := found || players[j].id == ids[i];
        }
        assert players[..|players|] == players;
        if !found {
          return Fail(PlayerNotInTicket);
        }
      }
      return Pass;
    }

    method RecordPlayerAcceptances(ids: seq<PlayerID>, accepted: bool)
      modifies this`playerAcceptances
      ensures State() == old(State()).RecordPlayerAcceptances(ids, accepted)
    {
      for i := 0 to |ids|
        invariant playerAcceptances == old(playerAcceptances) + Decision(ids[..i], accepted)
      {
        playerAcceptances := playerAcceptances[ids[i] := accepted];
      }
      assert ids[..|ids|] == ids;
    }

    method PullEvents() returns (out: seq<Event>)
      modifies this
      ensures out == old(State()).events && State() == old(State()).Drained()
    {
      out := events;
      events := [];
    }
  }
}
