/**
 What a consumer of the events may rely on: a monitor for the events that name one ticket and a monitor for the
 events about one match. Both are defined on the events alone, without reference to the service.
 */
module Traces {
  import opened Domain

  // ----- the events that concern one ticket, one match

  function Named(events: seq<Event>, id: TicketID): seq<Event> {
    if events == [] then []
    else
      var rest := Named(events[..|events| - 1], id);
      if events[|events| - 1].Names(id) then rest + [events[|events| - 1]] else rest
  }

  function AboutMatch(events: seq<Event>, m: MatchID): seq<Event> {
    if events == [] then []
    else
      var rest := AboutMatch(events[..|events| - 1], m);
      if events[|events| - 1].About(m) then rest + [events[|events| - 1]] else rest
  }

  lemma NamedOne(events: seq<Event>, e: Event, id: TicketID)
    ensures Named(events + [e], id) == if e.Names(id) then Named(events, id) + [e] else Named(events, id)
  {
    assert (events + [e])[..|events|] == events;
  }

  lemma AboutOne(events: seq<Event>, e: Event, m: MatchID)
    ensures AboutMatch(events + [e], m) == if e.About(m) then AboutMatch(events, m) + [e] else AboutMatch(events, m)
  {
    assert (events + [e])[..|events|] == events;
  }

  lemma {:induction false} NamedAppend(a: seq<Event>, b: seq<Event>, id: TicketID)
    ensures Named(a + b, id) == Named(a, id) + Named(b, id)
  {
    if b == [] {
      assert a + b == a;
    } else {
      var front, last := b[..|b| - 1], b[|b| - 1];
      assert b == front + [last];
      NamedAppend(a, front, id);
      NamedAppendOne(a, front, last, id);
    }
  }

  lemma NamedAppendOne(a: seq<Event>, b: seq<Event>, e: Event, id: TicketID)
    requires Named(a + b, id) == Named(a, id) + Named(b, id)
    ensures Named(a + (b + [e]), id) == Named(a, id) + Named(b + [e], id)
  {
    hide Named;
    NamedOne(a + b, e, id);
    NamedOne(b, e, id);
    assert a + (b + [e]) == (a + b) + [e];
  }

  lemma {:induction false} AboutAppend(a: seq<Event>, b: seq<Event>, m: MatchID)
    ensures AboutMatch(a + b, m) == AboutMatch(a, m) + AboutMatch(b, m)
  {
    if b == [] {
      assert a + b == a;
    } else {
      var front, last := b[..|b| - 1], b[|b| - 1];
      assert b == front + [last];
      AboutAppend(a, front, m);
      AboutAppendOne(a, front, last, m);
    }
  }

  lemma AboutAppendOne(a: seq<Event>, b: seq<Event>, e: Event, m: MatchID)
    requires AboutMatch(a + b, m) == AboutMatch(a, m) + AboutMatch(b, m)
    ensures AboutMatch(a + (b + [e]), m) == AboutMatch(a, m) + AboutMatch(b + [e], m)
  {
    hide AboutMatch;
    AboutOne(a + b, e, m);
    AboutOne(b, e, m);
    assert a + (b + [e]) == (a + b) + [e];
  }

  /** The two sequences have the same events about every match. */
  ghost predicate SameAbout(a: seq<Event>, b: seq<Event>) {
    forall m :: AboutMatch(b, m) == AboutMatch(a, m)
  }

  // ----- the life of one ticket

  /**
   Where a ticket stands after some events. The events that name a ticket are a Searching, then any number of matches
   that fail and lead to another Searching, then at most one ending: Cancelled or TimedOut, from the pool or from a
   match, or Succeeded, from a match that was not decided against. `Wrong` is every other order of events.
   */
  datatype Phase = Unborn | Waiting | InMatch(m: MatchID) | Decided(m: MatchID, accepted: bool) | Over | Wrong

  function TicketStep(p: Phase, e: Event): Phase {
    match e
    case SearchingStarted(_) =>
      if p.Unborn? || p.InMatch? || (p.Decided? && !p.accepted) then Waiting else Wrong
    case PotentialMatchCreated(m, _, _) =>
      if p.Waiting? then InMatch(m) else Wrong
    case AcceptanceRecorded(m, _, _) =>
      if p == InMatch(m) then p else Wrong
    case AcceptMatchCompleted(m, _, outcome) =>
      if p == InMatch(m) then Decided(m, outcome.Accepted?) else Wrong
    case MatchmakingSucceeded(m, _) =>
      if p == InMatch(m) || p == Decided(m, true) then Over else Wrong
    case MatchmakingTimedOut(_, m, _, _, _) => Ending(p, m)
    case MatchmakingCancelled(_, m, _, _, _) => Ending(p, m)
  }

  /** A single ticket's end carries the match it was in, or no match. */
  function Ending(p: Phase, m: MatchID): Phase {
    if (p.Waiting? && m == "") || p == InMatch(m) || p == Decided(m, false) then Over else Wrong
  }

  function Walk(p: Phase, events: seq<Event>): Phase {
    if events == [] then p else TicketStep(Walk(p, events[..|events| - 1]), events[|events| - 1])
  }

  lemma WalkOne(p: Phase, events: seq<Event>, e: Event)
    ensures Walk(p, events + [e]) == TicketStep(Walk(p, events), e)
  {
    assert (events + [e])[..|events|] == events;
  }

  // ----- the life of one match

  /**
   Where a match stands: it starts with one PotentialMatchCreated, whose roster all its events repeat up to order; each
   AcceptMatch reports a decision of every player reported before and maybe of more; it ends with at most one
   AcceptMatchCompleted, Rejected if the decisions last reported include a refusal, or with Accepted followed by
   Succeeded; or, where nobody was asked, with Succeeded alone. `Broken` is everything else.
   */
  datatype MatchPhase =
    | Unused
    | Open(roster: seq<TicketID>, decisions: map<PlayerID, bool>)
    | AllAccepted(roster: seq<TicketID>)
    | Closed
    | Broken

  predicate SomeRefusal(decisions: map<PlayerID, bool>) {
    exists p <- decisions :: !decisions[p]
  }

  function MatchStep(p: MatchPhase, e: Event): MatchPhase {
    match e
    case PotentialMatchCreated(_, ids, _) =>
      if p.Unused? then Open(ids, map[]) else Broken
    case AcceptanceRecorded(_, ids, decisions) =>
      if p.Open? && ids == p.roster && p.decisions.Keys <= decisions.Keys then Open(ids, decisions) else Broken
    case AcceptMatchCompleted(_, ids, outcome) =>
      if !p.Open? || multiset(ids) != multiset(p.roster) then Broken
      else if outcome.Accepted? then AllAccepted(p.roster)
      else if SomeRefusal(p.decisions) ==> outcome.Rejected? then Closed else Broken
    case MatchmakingSucceeded(_, ids) =>
      if (p.AllAccepted? || (p.Open? && p.decisions == map[])) && multiset(ids) == multiset(p.roster) then Closed else Broken
    case _ => Broken
  }

  function MatchWalk(p: MatchPhase, events: seq<Event>): MatchPhase {
    if events == [] then p else MatchStep(MatchWalk(p, events[..|events| - 1]), events[|events| - 1])
  }

  lemma MatchWalkOne(p: MatchPhase, events: seq<Event>, e: Event)
    ensures MatchWalk(p, events + [e]) == MatchStep(MatchWalk(p, events), e)
  {
    assert (events + [e])[..|events|] == events;
  }

  // ----- what the monitors mean

  predicate IsEnding(e: Event) {
    e.MatchmakingTimedOut? || e.MatchmakingCancelled? || e.MatchmakingSucceeded?
  }

  /** No later event repairs a wrong order. */
  lemma {:induction false} WrongStays(events: seq<Event>, k: nat)
    requires k <= |events| && Walk(Unborn, events) != Wrong
    ensures Walk(Unborn, events[..k]) != Wrong
  {
    if k < |events| {
      WrongStays(events[..|events| - 1], k);
      assert events[..|events| - 1][..k] == events[..k];
    } else {
      assert events[..k] == events;
    }
  }

  lemma NothingFollowsEnding(events: seq<Event>, i: nat)
    requires i + 1 < |events| && IsEnding(events[i])
    ensures Walk(Unborn, events[..i + 2]) == Wrong
  {
    assert events[..i + 1] == events[..i] + [events[i]] && events[..i + 2] == events[..i + 1] + [events[i + 1]];
    WalkOne(Unborn, events[..i], events[i]);
    WalkOne(Unborn, events[..i + 1], events[i + 1]);
    hide Walk;
    assert TicketStep(Walk(Unborn, events[..i]), events[i]) in {Over, Wrong};
  }

  /** An ending is the last event that names a ticket, so there is at most one. */
  lemma EndingIsLast(events: seq<Event>, i: nat)
    requires i < |events| && Walk(Unborn, events) != Wrong && IsEnding(events[i])
    ensures i == |events| - 1
  {
    if i + 1 < |events| {
      WrongStays(events, i + 2);
      NothingFollowsEnding(events, i);
    }
  }

  /** A ticket is announced as searching again only after it was part of a potential match in between. */
  lemma SearchingNeedsMatch(events: seq<Event>, i: nat, j: nat)
    requires i < j < |events| && Walk(Unborn, events) != Wrong
    requires events[i].SearchingStarted? && events[j].SearchingStarted?
    ensures exists k | i < k < j :: events[k].PotentialMatchCreated?
  {
    hide Walk;
    WrongStays(events, j + 1);
    WrongStays(events, i + 1);
    assert events[..i + 1] == events[..i] + [events[i]] && events[..j + 1] == events[..j] + [events[j]];
    WalkOne(Unborn, events[..i], events[i]);
    WalkOne(Unborn, events[..j], events[j]);
    if forall k | i < k < j :: !events[k].PotentialMatchCreated? {
      StaysWaiting(events, i + 1, j);
    }
  }

  lemma {:induction false} StaysWaiting(events: seq<Event>, i: nat, j: nat)
    requires i <= j <= |events| && Walk(Unborn, events[..i]).Waiting?
    requires forall k | i <= k < j :: !events[k].PotentialMatchCreated?
    ensures Walk(Unborn, events[..j]) in {Waiting, Over, Wrong}
  {
    if i < j {
      StaysWaiting(events, i, j - 1);
      assert events[..j] == events[..j - 1] + [events[j - 1]];
      WalkOne(Unborn, events[..j - 1], events[j - 1]);
    }
  }

  function CountCompleted(events: seq<Event>): nat {
    if events == [] then 0
    else CountCompleted(events[..|events| - 1]) + if events[|events| - 1].AcceptMatchCompleted? then 1 else 0
  }

  /** An event about a match as a whole, with the given roster up to order. */
  predicate OfRoster(e: Event, ids: seq<TicketID>) {
    && (e.PotentialMatchCreated? || e.AcceptanceRecorded? || e.AcceptMatchCompleted? || e.MatchmakingSucceeded?)
    && multiset(e.ticketIDs) == multiset(ids)
  }

  /** All events of one match, if the monitor accepts them, have the roster of the first one. */
  lemma {:induction false} OneRoster(events: seq<Event>)
    requires MatchWalk(Unused, events) != Broken && events != []
    ensures events[0].PotentialMatchCreated? && forall e <- events :: OfRoster(e, events[0].ticketIDs)
    ensures match MatchWalk(Unused, events)
            case Open(ids, _) => multiset(ids) == multiset(events[0].ticketIDs)
            case AllAccepted(ids) => multiset(ids) == multiset(events[0].ticketIDs)
            case _ => true
  {
    var front := events[..|events| - 1];
    if front != [] {
      OneRoster(front);
    }
  }

  /**
   The events of one match, if the monitor accepts them: all have the roster of the first, which is the only
   PotentialMatchCreated; at most one is AcceptMatchCompleted, and a MatchmakingSucceeded is the last.
   */
  lemma {:induction false} MatchMeaning(events: seq<Event>)
    requires MatchWalk(Unused, events) != Broken
    ensures forall i | 0 <= i < |events| :: events[i].PotentialMatchCreated? <==> i == 0
    ensures forall i | 0 <= i < |events| :: OfRoster(events[i], events[0].ticketIDs)
    ensures CountCompleted(events) <= 1
    ensures forall i | 0 <= i < |events| - 1 :: !events[i].MatchmakingSucceeded?
    ensures match MatchWalk(Unused, events)
            case Unused => events == []
            case Open(_, _) => CountCompleted(events) == 0
            case _ => true
  {
    if events != [] {
      var front, last := events[..|events| - 1], events[|events| - 1];
      OneRoster(events);
      MatchMeaning(front);
      if front != [] && front[|front| - 1].MatchmakingSucceeded? {
        WalkOneAfterSuccess(front, last);
      }
    }
  }

  lemma WalkOneAfterSuccess(front: seq<Event>, e: Event)
    requires front != [] && front[|front| - 1].MatchmakingSucceeded?
    ensures MatchStep(MatchWalk(Unused, front), e) == Broken
  {
  }

  /** No match stops between the acceptance of all and its success: the next event about it is the success. */
  lemma {:induction false} AcceptedThenSucceeded(events: seq<Event>)
    requires MatchWalk(Unused, events) != Broken
    ensures forall i | 0 <= i < |events| - 1 :: AcceptsAll(events[i]) ==> events[i + 1].MatchmakingSucceeded?
    ensures events != [] && AcceptsAll(events[|events| - 1]) ==> MatchWalk(Unused, events).AllAccepted?
  {
    if events != [] {
      AcceptedThenSucceeded(events[..|events| - 1]);
    }
  }

  predicate AcceptsAll(e: Event) {
    e.AcceptMatchCompleted? && e.outcome.Accepted?
  }
}
