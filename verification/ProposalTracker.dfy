/**
 The tracker of pending proposals: roster key -> match id, match id -> roster, match id -> creation time.
 `Tracker` is its value, `ProposalTracker` the object whose maps are assigned and deleted in place.
 */
module ProposalTracking {
  import opened Wrappers
  import opened Domain
  import opened RosterKey

  datatype Tracker = Tracker(
    matchIDs: map<string, MatchID>,
    byMatch: map<MatchID, seq<TicketID>>,
    createdAt: map<MatchID, Time>)
  {
    function Known(ids: seq<TicketID>): Option<MatchID> {
      if Key(ids) in matchIDs then Some(matchIDs[Key(ids)]) else None
    }

    /** A missing entry reads as the zero time. */
    function CreatedAt(m: MatchID): Time {
      if m in createdAt then createdAt[m] else 0
    }

    function TicketsFor(m: MatchID): Option<seq<TicketID>> {
      if m in byMatch then Some(byMatch[m]) else None
    }

    function AssignAt(ids: seq<TicketID>, m: MatchID, at: Time): Tracker {
      Tracker(matchIDs[Key(ids) := m], byMatch[m := ids], createdAt[m := at])
    }

    function Forget(m: MatchID): Tracker {
      if m !in byMatch then this
      else Tracker(matchIDs - {Key(byMatch[m])}, byMatch - {m}, createdAt - {m})
    }

    /** The matches `proposals()` lists: those that were assigned a creation time. */
    function Proposals(): set<MatchID> {
      set m <- byMatch | CreatedAt(m) != 0
    }

    /** The two indices are inverse to each other, and the creation times have the same domain. */
    ghost predicate Coherent() {
      && (forall m <- byMatch :: Key(byMatch[m]) in matchIDs && matchIDs[Key(byMatch[m])] == m)
      && (forall k <- matchIDs :: matchIDs[k] in byMatch && Key(byMatch[matchIDs[k]]) == k)
      && createdAt.Keys == byMatch.Keys
    }

    /** Assigning a new id to a roster that is not tracked overwrites nothing and keeps the indices inverse. */
    lemma AssignKeepsCoherent(ids: seq<TicketID>, m: MatchID, at: Time)
      requires Coherent() && Known(ids).None? && m !in byMatch
      ensures AssignAt(ids, m, at).Coherent()
      ensures forall r :: AssignAt(ids, m, at).Known(r) == if Key(r) == Key(ids) then Some(m) else Known(r)
      ensures forall k :: AssignAt(ids, m, at).TicketsFor(k) == if k == m then Some(ids) else TicketsFor(k)
      ensures forall k :: AssignAt(ids, m, at).CreatedAt(k) == if k == m then at else CreatedAt(k)
      ensures AssignAt(ids, m, at).Proposals() == if at == 0 then Proposals() else Proposals() + {m}
      ensures forall k <- byMatch :: Key(byMatch[k]) != Key(ids)
    {
      hide Key;
      forall k <- byMatch ensures Key(byMatch[k]) != Key(ids) {
        assert Key(byMatch[k]) in matchIDs;
      }
    }

    /** Forgetting removes one match from all three indices, so its roster may be proposed under a new id. */
    lemma ForgetKeepsCoherent(m: MatchID)
      requires Coherent()
      ensures Forget(m).Coherent()
      ensures Forget(m).byMatch == byMatch - {m} && Forget(m).createdAt == createdAt - {m}
      ensures Forget(m).Proposals() == Proposals() - {m}
      ensures m in byMatch ==> Forget(m).Known(byMatch[m]).None?
      ensures forall ids :: Forget(m).Known(ids) == if Known(ids) == Some(m) then None else Known(ids)
    {
      hide Key;
      var f := Forget(m);
      if m in byMatch {
        forall k <- f.byMatch ensures Key(f.byMatch[k]) in f.matchIDs && f.matchIDs[Key(f.byMatch[k])] == k {
          assert matchIDs[Key(byMatch[k])] == k && matchIDs[Key(byMatch[m])] == m;
        }
        forall k <- f.matchIDs ensures f.matchIDs[k] in f.byMatch && Key(f.byMatch[f.matchIDs[k]]) == k {
          assert matchIDs[k] in byMatch;
        }
      } else {
        forall ids ensures Known(ids) != Some(m) {
          if Key(ids) in matchIDs { assert matchIDs[Key(ids)] in byMatch; }
        }
      }
    }

    /** An id assigned and then forgotten leaves the tracker as it was. */
    lemma AssignThenForget(ids: seq<TicketID>, m: MatchID, at: Time)
      requires Coherent() && Known(ids).None? && m !in byMatch
      ensures AssignAt(ids, m, at).Forget(m) == this
    {
      hide Key;
      var a := AssignAt(ids, m, at);
      assert a.matchIDs - {Key(ids)} == matchIDs;
      assert a.byMatch - {m} == byMatch;
      assert a.createdAt - {m} == createdAt;
    }
  }

  const EmptyTracker := Tracker(map[], map[], map[])

  class ProposalTracker {
    var matchIDs: map<string, MatchID>
    var byMatch: map<MatchID, seq<TicketID>>
    var createdAt: map<MatchID, Time>

    function State(): Tracker
      reads this
    {
      Tracker(matchIDs, byMatch, createdAt)
    }

    constructor ()
      ensures State() == EmptyTracker
    {
      matchIDs, byMatch, createdAt := map[], map[], map[];
    }

    method Known(ids: seq<TicketID>) returns (m: Option<MatchID>)
      ensures m == State().Known(ids)
    {
      var key := ProposalKey(ids);
      m := if key in matchIDs then Some(matchIDs[key]) else None;
    }

    method AssignAt(ids: seq<TicketID>, m: MatchID, at: Time)
      modifies this
      ensures State() == old(State()).AssignAt(ids, m, at)
    {
      var key := ProposalKey(ids);
      matchIDs := matchIDs[key := m];
      byMatch := byMatch[m := ids];
      createdAt := createdAt[m := at];
    }

    method Forget(m: MatchID)
      modifies this
      ensures State() == old(State()).Forget(m)
    {
      if m !in byMatch {
        return;
      }
      var key := ProposalKey(byMatch[m]);
      matchIDs := matchIDs - {key};
      byMatch := byMatch - {m};
      createdAt := createdAt - {m};
    }
  }
}
