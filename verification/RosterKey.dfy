/**
 The key a roster of ticket ids is tracked under: the sorted ids joined with "|".
 For rosters of ids that contain no "|" the key stands for the roster up to reordering.
 */
module RosterKey {
  import opened Domain

  const Separator := '|'

  /** Go's string order, and the total order `slices.Sort` sorts by. */
  predicate AtMost(a: string, b: string) {
    a == [] || (b != [] && (a[0] < b[0] || (a[0] == b[0] && AtMost(a[1..], b[1..]))))
  }

  predicate SortedIDs(s: seq<string>) {
    forall i, j | 0 <= i < j < |s| :: AtMost(s[i], s[j])
  }

  function Insert(x: string, s: seq<string>): seq<string> {
    if s == [] || AtMost(x, s[0]) then [x] + s else [s[0]] + Insert(x, s[1..])
  }

  function Sort(s: seq<string>): seq<string> {
    if s == [] then [] else Insert(s[0], Sort(s[1..]))
  }

  function Join(s: seq<string>): string {
    if s == [] then "" else if |s| == 1 then s[0] else s[0] + [Separator] + Join(s[1..])
  }

  /** proposalKey: the sorted roster, joined. */
  function Key(ids: seq<TicketID>): string {
    Join(Sort(ids))
  }

  predicate PlainID(id: TicketID) {
    Separator !in id
  }

  predicate PlainIDs(ids: seq<TicketID>) {
    forall id <- ids :: PlainID(id)
  }

  method ProposalKey(ids: seq<TicketID>) returns (key: string)
    ensures key == Key(ids)
  {
    var sorted: seq<string> := [];
    for i := |ids| downto 0
      invariant sorted == Sort(ids[i..])
    {
      assert ids[i..][1..] == ids[i + 1..];
      sorted := Insert(ids[i], sorted);
    }
    assert ids[0..] == ids;
    if sorted == [] {
      return "";
    }
    key := sorted[|sorted| - 1];
    for i := |sorted| - 1 downto 0
      invariant key == Join(sorted[i..])
    {
      assert sorted[i..][1..] == sorted[i + 1..];
      key := sorted[i] + [Separator] + key;
    }
    assert sorted[0..] == sorted;
  }

  // ----- the order

  lemma {:induction false} AtMostTotal(a: string, b: string)
    ensures AtMost(a, b) || AtMost(b, a)
    ensures AtMost(a, b) && AtMost(b, a) ==> a == b
  {
    if a != [] && b != [] && a[0] == b[0] {
      AtMostTotal(a[1..], b[1..]);
      if AtMost(a, b) && AtMost(b, a) {
        assert a == [a[0]] + a[1..] && b == [b[0]] + b[1..];
      }
    }
  }

  lemma {:induction false} AtMostTransitive(a: string, b: string, c: string)
    requires AtMost(a, b) && AtMost(b, c)
    ensures AtMost(a, c)
  {
    if a != [] && a[0] == b[0] == c[0] {
      AtMostTransitive(a[1..], b[1..], c[1..]);
    }
  }

  lemma {:induction false} InsertElements(x: string, s: seq<string>)
    ensures multiset(Insert(x, s)) == multiset(s) + multiset{x}
  {
    if s != [] && !AtMost(x, s[0]) {
      InsertElements(x, s[1..]);
      assert s == [s[0]] + s[1..];
    }
  }

  lemma {:induction false} SortElements(s: seq<string>)
    ensures multiset(Sort(s)) == multiset(s)
  {
    if s != [] {
      SortElements(s[1..]);
      InsertElements(s[0], Sort(s[1..]));
      assert s == [s[0]] + s[1..];
    }
  }

  lemma {:induction false} InsertSorted(x: string, s: seq<string>)
    requires SortedIDs(s)
    ensures SortedIDs(Insert(x, s))
  {
    if s == [] {
    } else if AtMost(x, s[0]) {
      forall j | 0 <= j < |s| ensures AtMost(x, s[j]) {
        if j > 0 { AtMostTransitive(x, s[0], s[j]); }
      }
    } else {
      var r := Insert(x, s[1..]);
      InsertSorted(x, s[1..]);
      InsertElements(x, s[1..]);
      AtMostTotal(x, s[0]);
      forall j | 0 <= j < |r| ensures AtMost(s[0], r[j]) {
        assert r[j] in multiset(r);
        assert r[j] == x || r[j] in s[1..];
      }
    }
  }

  lemma {:induction false} SortSorted(s: seq<string>)
    ensures SortedIDs(Sort(s)) && multiset(Sort(s)) == multiset(s)
  {
    SortElements(s);
    if s != [] {
      SortSorted(s[1..]);
      InsertSorted(s[0], Sort(s[1..]));
    }
  }

  lemma LeastAgree(a: seq<string>, b: seq<string>)
    requires a != [] && b != [] && SortedIDs(a) && SortedIDs(b) && multiset(a) == multiset(b)
    ensures a[0] == b[0]
  {
    hide AtMost;
    LeastAtMost(a, b[0]);
    LeastAtMost(b, a[0]);
    AtMostTotal(a[0], b[0]);
  }

  lemma LeastAtMost(a: seq<string>, x: string)
    requires a != [] && SortedIDs(a) && x in multiset(a)
    ensures AtMost(a[0], x)
  {
    AtMostTotal(x, x);
    hide AtMost;
    assert x in a;
  }

  lemma TailsAgree(a: seq<string>, b: seq<string>)
    requires a != [] && b != [] && a[0] == b[0] && multiset(a) == multiset(b)
    ensures multiset(a[1..]) == multiset(b[1..])
  {
    WithoutFirst(a);
    WithoutFirst(b);
  }

  lemma WithoutFirst(a: seq<string>)
    requires a != []
    ensures multiset(a[1..]) == multiset(a) - multiset{a[0]}
  {
    assert a == [a[0]] + a[1..];
  }

  /** Two sorted sequences with the same elements are the same sequence. */
  lemma {:induction false} SortedUnique(a: seq<string>, b: seq<string>)
    requires SortedIDs(a) && SortedIDs(b) && multiset(a) == multiset(b)
    ensures a == b
  {
    assert |multiset(a)| == |a| && |multiset(b)| == |b|;
    if a != [] {
      LeastAgree(a, b);
      TailsAgree(a, b);
      hide AtMost;
      SortedUnique(a[1..], b[1..]);
      assert a == [a[0]] + a[1..] && b == [b[0]] + b[1..];
    }
  }

  // ----- splitting undoes joining

  /** strings.Split on the separator. */
  function Split(s: string): (r: seq<string>)
    ensures r != []
  {
    if s == [] then [""]
    else
      var rest := Split(s[1..]);
      if s[0] == Separator then [""] + rest else [[s[0]] + rest[0]] + rest[1..]
  }

  lemma {:induction false} SplitPlain(a: string, rest: string)
    requires PlainID(a)
    ensures Split(a) == [a]
    ensures Split(a + [Separator] + rest) == [a] + Split(rest)
  {
    var s := a + [Separator] + rest;
    if a == [] {
      assert s == [Separator] + rest && s[1..] == rest;
    } else {
      assert s[1..] == a[1..] + [Separator] + rest;
      SplitPlain(a[1..], rest);
      assert [a[0]] + a[1..] == a;
    }
  }

  lemma {:induction false} SplitUndoesJoin(ids: seq<TicketID>)
    requires ids != [] && PlainIDs(ids)
    ensures Split(Join(ids)) == ids
  {
    if |ids| == 1 {
      SplitPlain(ids[0], "");
    } else {
      SplitPlain(ids[0], Join(ids[1..]));
      SplitUndoesJoin(ids[1..]);
      assert [ids[0]] + ids[1..] == ids;
    }
  }

  // ----- the key is faithful

  /** Non-empty rosters of plain ids have the same key exactly when they are permutations of each other. */
  lemma KeyFaithful(a: seq<TicketID>, b: seq<TicketID>)
    requires a != [] && b != [] && PlainIDs(a) && PlainIDs(b)
    ensures Key(a) == Key(b) <==> multiset(a) == multiset(b)
  {
    SortSorted(a);
    SortSorted(b);
    if multiset(a) == multiset(b) {
      SortedUnique(Sort(a), Sort(b));
    }
    SortedElements(a);
    SortedElements(b);
    SplitUndoesJoin(Sort(a));
    SplitUndoesJoin(Sort(b));
  }

  lemma SortedElements(a: seq<TicketID>)
    ensures forall id :: id in Sort(a) <==> id in a
    ensures |Sort(a)| == |a|
  {
    SortElements(a);
    assert |multiset(Sort(a))| == |Sort(a)| && |multiset(a)| == |a|;
    forall id ensures id in Sort(a) <==> id in a {
      assert id in Sort(a) <==> id in multiset(Sort(a));
    }
  }

  /** Reordering a roster never changes its key, whatever the ids contain. */
  lemma KeyIgnoresOrder(a: seq<TicketID>, b: seq<TicketID>)
    requires multiset(a) == multiset(b)
    ensures Key(a) == Key(b)
  {
    SortSorted(a);
    SortSorted(b);
    SortedUnique(Sort(a), Sort(b));
  }

  /** Both conditions are needed: an id with the separator, and the empty roster, each collide with another roster. */
  lemma KeyCollisions()
    ensures Key(["a|b"]) == Key(["a", "b"]) && multiset(["a|b"]) != multiset(["a", "b"])
    ensures Key([]) == Key([""]) && multiset{} != multiset([""])
  {
    calc {
      Sort(["a", "b"]);
      Insert("a", Sort(["b"]));
      { assert ["a", "b"][1..] == ["b"] && Sort(["b"]) == ["b"]; }
      ["a"] + ["b"];
    }
    calc {
      Join(["a", "b"]);
      "a" + [Separator] + Join(["b"]);
      "a|b";
    }
    assert "a" in multiset(["a", "b"]) && "a" !in multiset(["a|b"]);
    assert "" in multiset([""]);
  }

  // ----- the sorted listing of a set of ids

  /** Some listing of a set; used only under `Sort`, which removes the choice. */
  ghost function Listing(s: set<string>): (r: seq<string>)
    ensures multiset(r) == multiset(s)
  {
    if s == {} then []
    else
      var x :| x in s;
      assert multiset(s) == multiset(s - {x}) + multiset{x};
      [x] + Listing(s - {x})
  }

  ghost function SortedListing(s: set<string>): (r: seq<string>)
    ensures multiset(r) == multiset(s)
  {
    SortElements(Listing(s));
    Sort(Listing(s))
  }

  predicate NoDuplicates(s: seq<string>) {
    forall i, j | 0 <= i < j < |s| :: s[i] != s[j]
  }

  lemma CountedTwice(r: seq<string>, i: nat, j: nat)
    requires i < j < |r|
    ensures r[i] == r[j] ==> multiset(r)[r[i]] >= 2
  {
    assert r == r[..i] + [r[i]] + r[i + 1..j] + [r[j]] + r[j + 1..];
  }

  lemma ListingDistinct(r: seq<string>, s: set<string>)
    requires multiset(r) == multiset(s)
    ensures NoDuplicates(r)
    ensures forall x :: x in r <==> x in s
  {
    forall i, j | 0 <= i < j < |r| ensures r[i] != r[j] {
      CountedTwice(r, i, j);
    }
    forall x ensures x in r <==> x in s {
      assert x in r <==> x in multiset(r);
    }
  }

  /** The listing has each id of the set once, in Go's string order. */
  lemma ListingSorted(s: set<string>)
    ensures var r := SortedListing(s);
            && (forall i, j | 0 <= i < j < |r| :: r[i] != r[j] && AtMost(r[i], r[j])) && forall x :: x in r <==> x in s
  {
    SortSorted(Listing(s));
    ListingDistinct(SortedListing(s), s);
  }
}
