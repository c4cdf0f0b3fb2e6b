/**
 The two wire formats of a response: encoding/json renders the Go value directly, the CBOR bridge converts it to CBOR
 values that a client converts back. Both results are JSON trees, and this file says exactly when they are the same.
 Values only: the bytes of either format are not part of this model.
 */
module WireFormats {
  import opened Doubles

  // ----- Go values, CBOR values, JSON trees

  /** A struct field with its `json` tag. */
  datatype Field = Field(goName: string, tag: string, value: GoValue)

  /**
   The kinds of Go values a response is made of. A float32 is given by its exact value and by the number encoding/json
   prints for it, the shortest decimal that reads back as the same float32. A float64 stands for its exact value in both
   formats: how many digits of it are printed is not part of this model. A pointer and a non-nil interface are alike.
   */
  datatype GoValue =
    | Str(s: string)
    | Boolean(b: bool)
    | Signed(i: int)
    | Unsigned(u: nat)
    | Float32(x: real, printed: real)
    | Float64(x: real)
    | NilPointer
    | Pointer(target: GoValue)
    | NilSlice
    | Slice(elements: seq<GoValue>)
    | NilMap
    | Map(entries: map<string, GoValue>)
    | Struct(fields: seq<Field>)
    | OtherKind // a channel, a function

  datatype Cbor =
    | CString(s: string)
    | CBool(b: bool)
    | CUint(u: nat)
    | CNegInt(u: nat)
    | CFloat32(x: real)
    | CFloat64(x: real)
    | CList(elements: seq<Cbor>)
    | CMap(entries: map<string, Cbor>)
    | CTag(id: nat, value: Cbor)
    | CNil
    | COther // byte strings, undefined

  datatype Json =
    | Null
    | JBool(b: bool)
    | JString(s: string)
    | JNumber(x: real)
    | JArray(elements: seq<Json>)
    | JObject(entries: map<string, Json>)

  // ----- the CBOR bridge

  const TimestampFields := {"StartTime", "EndTime", "CreationTime"}

  /** strings.Cut on the first comma. */
  function TagName(tag: string): string {
    if tag == [] || tag[0] == ',' then [] else [tag[0]] + TagName(tag[1..])
  }

  function TagOptions(tag: string): string {
    if tag == [] then [] else if tag[0] == ',' then tag[1..] else TagOptions(tag[1..])
  }

  predicate Contains(s: string, sub: string) {
    exists i | 0 <= i <= |s| :: sub <= s[i..]
  }

  function FieldName(f: Field): string {
    if TagName(f.tag) == "" then f.goName else TagName(f.tag)
  }

  /** isZeroValue */
  predicate IsZero(v: GoValue) {
    match v
    case Str(s) => s == ""
    case Boolean(b) => !b
    case Signed(i) => i == 0
    case Unsigned(u) => u == 0
    case Float32(x, _) => x == 0.0
    case Float64(x) => x == 0.0
    case NilSlice | NilMap | NilPointer => true
    case Slice(e) => e == []
    case Map(m) => m == map[]
    case _ => false
  }

  /** The field is written to the CBOR map. */
  predicate Written(f: Field) {
    FieldName(f) != "-" && !(Contains(TagOptions(f.tag), "omitempty") && IsZero(f.value))
  }

  function WrittenNames(fields: seq<Field>): set<string> {
    set i | 0 <= i < |fields| && Written(fields[i]) :: FieldName(fields[i])
  }

  /** A later field with the same name overwrites an earlier one. */
  function LastWritten(fields: seq<Field>, name: string): (i: nat)
    requires name in WrittenNames(fields)
    ensures i < |fields| && Written(fields[i]) && FieldName(fields[i]) == name
  {
    var last := |fields| - 1;
    if Written(fields[last]) && FieldName(fields[last]) == name then last
    else
      assert forall i | 0 <= i < last :: fields[..last][i] == fields[i];
      assert name in WrittenNames(fields[..last]);
      LastWritten(fields[..last], name)
  }

  /** goToCBOR. The name of the enclosing field decides about the epoch tag. */
  function ToCbor(v: GoValue, name: string): Cbor
    decreases v
  {
    match v
    case Str(s) => CString(s)
    case Boolean(b) => CBool(b)
    case Signed(i) => if i >= 0 then CUint(i) else CNegInt(-i - 1)
    case Unsigned(u) => CUint(u)
    case Float32(x, _) => CFloat32(x)
    case Float64(x) => if name in TimestampFields then CTag(1, CFloat64(x)) else CFloat64(x)
    case NilPointer | NilSlice | OtherKind => CNil
    case Pointer(t) => ToCbor(t, name)
    case Slice(e) => CList(seq(|e|, i requires 0 <= i < |e| => ToCbor(e[i], "")))
    case NilMap => CMap(map[])
    case Map(m) => CMap(map k | k in m :: ToCbor(m[k], ""))
    case Struct(fields) => CMap(map n | n in WrittenNames(fields) :: ToCbor(fields[LastWritten(fields, n)].value, n))
  }

  /** cborToGoValue: what json.Marshal is then given. */
  function FromCbor(c: Cbor): Json {
    match c
    case CString(s) => JString(s)
    case CBool(b) => JBool(b)
    case CUint(u) => JNumber(Rounded(u) as real)
    case CNegInt(u) => JNumber(-(Rounded(Rounded(u) + 1) as real))
    case CFloat32(x) => JNumber(x)
    case CFloat64(x) => JNumber(x)
    case CMap(m) => JObject(map k | k in m :: FromCbor(m[k]))
    case CList(e) => JArray(seq(|e|, i requires 0 <= i < |e| => FromCbor(e[i])))
    case CTag(id, t) => if id == 1 then FromCbor(t) else Null
    case CNil | COther => Null
  }

  // ----- encoding/json

  /** encoding/json leaves a field out if its tag is "-", or if it asks for omitempty and the value is empty. */
  predicate Rendered(f: Field) {
    f.tag != "-" && !(TagOptions(f.tag) == "omitempty" && IsEmpty(f.value))
  }

  /** The values encoding/json counts as empty. */
  predicate IsEmpty(v: GoValue) {
    || v == Boolean(false) || v == Signed(0) || v == Unsigned(0) || (v.Float32? && v.x == 0.0) || v == Float64(0.0)
    || v == NilPointer || v == NilSlice || v == Slice([]) || v == NilMap || v == Map(map[]) || v == Str("")
  }

  /** Tags of the form both packages read alike: a name or none, with no option or with omitempty alone. */
  predicate PlainTag(f: Field) {
    f.goName != "-" && (TagName(f.tag) == "-" ==> f.tag == "-") && TagOptions(f.tag) in {"", "omitempty"}
  }

  /** Every struct has plain tags, and no two of its fields that are not skipped have the same name. */
  predicate WellTagged(v: GoValue)
    decreases v
  {
    match v
    case Pointer(t) => WellTagged(t)
    case Slice(e) => forall i | 0 <= i < |e| :: WellTagged(e[i])
    case Map(m) => forall k <- m :: WellTagged(m[k])
    case Struct(fields) =>
      && (forall i | 0 <= i < |fields| :: PlainTag(fields[i]) && WellTagged(fields[i].value))
      && (forall i, j | 0 <= i < j < |fields| ::
            FieldName(fields[i]) == FieldName(fields[j]) ==> FieldName(fields[i]) == "-")
    case OtherKind => false
    case _ => true
  }

  function RenderedNames(fields: seq<Field>): set<string> {
    set i | 0 <= i < |fields| && Rendered(fields[i]) :: FieldName(fields[i])
  }

  function RenderedAt(fields: seq<Field>, name: string): (i: nat)
    requires name in RenderedNames(fields)
    ensures i < |fields| && Rendered(fields[i]) && FieldName(fields[i]) == name
  {
    if Rendered(fields[0]) && FieldName(fields[0]) == name then 0
    else
      assert name in RenderedNames(fields[1..]) by {
        var i :| 0 <= i < |fields| && Rendered(fields[i]) && FieldName(fields[i]) == name;
        assert fields[1..][i - 1] == fields[i];
      }
      RenderedAt(fields[1..], name) + 1
  }

  /** The tree encoding/json renders. */
  function ToJson(v: GoValue): Json
    requires WellTagged(v)
    decreases v
  {
    match v
    case Str(s) => JString(s)
    case Boolean(b) => JBool(b)
    case Signed(i) => JNumber(i as real)
    case Unsigned(u) => JNumber(u as real)
    case Float32(_, printed) => JNumber(printed)
    case Float64(x) => JNumber(x)
    case NilPointer | NilSlice | NilMap => Null
    case Pointer(t) => ToJson(t)
    case Slice(e) => JArray(seq(|e|, i requires 0 <= i < |e| => ToJson(e[i])))
    case Map(m) => JObject(map k | k in m :: ToJson(m[k]))
    case Struct(fields) => JObject(map n | n in RenderedNames(fields) :: ToJson(fields[RenderedAt(fields, n)].value))
  }

  // ----- when the two agree

  /**
   The integers that survive the round trip: those float64 can hold, but for the ones below -2^53 and above -2^54. The
   decoder computes `-float64(t) - 1`, and there that loses every other even integer, though float64 can hold it.
   */
  predicate Survives(i: int) {
    if -2 * TwoTo53 < i < -TwoTo53 then i % 4 == 0
    else
      var n := if i < 0 then -i else i;
      n % Ulp(n) == 0
  }

  /** Integers survive, float32 values are printed exactly, and no nil map is written. */
  predicate Faithful(v: GoValue)
    decreases v
  {
    match v
    case Signed(i) => Survives(i)
    case Unsigned(u) => Survives(u)
    case Float32(x, printed) => x == printed
    case NilMap => false
    case Pointer(t) => Faithful(t)
    case Slice(e) => forall i | 0 <= i < |e| :: Faithful(e[i])
    case Map(m) => forall k <- m :: Faithful(m[k])
    case Struct(fields) => forall i | 0 <= i < |fields| :: Written(fields[i]) ==> Faithful(fields[i].value)
    case _ => true
  }

  /** Both packages agree on which values omitempty drops. */
  lemma SameOmission(f: Field)
    requires PlainTag(f)
    ensures Written(f) <==> Rendered(f)
  {
    assert IsZero(f.value) <==> IsEmpty(f.value);
    var options := TagOptions(f.tag);
    if options == "omitempty" {
      assert options[0..] == options && "omitempty" <= options[0..];
    }
    assert f.tag == "-" ==> TagName(f.tag) == "-" by {
      if f.tag == "-" { assert TagName(f.tag[1..]) == [] && TagName(f.tag) == ['-'] + []; }
    }
  }

  lemma SameNames(fields: seq<Field>)
    requires WellTagged(Struct(fields))
    ensures WrittenNames(fields) == RenderedNames(fields)
    ensures forall n <- WrittenNames(fields) :: LastWritten(fields, n) == RenderedAt(fields, n)
    ensures forall i | 0 <= i < |fields| && Written(fields[i]) ::
              FieldName(fields[i]) in WrittenNames(fields) && LastWritten(fields, FieldName(fields[i])) == i
  {
    forall i | 0 <= i < |fields| ensures Written(fields[i]) <==> Rendered(fields[i]) { SameOmission(fields[i]); }
  }

  /**
   The two trees are the same exactly if the value is faithful: same keys, same fields dropped, nulls kept, timestamps
   without their tag.
   */
  lemma {:induction false} FormatsAgree(v: GoValue, name: string)
    requires WellTagged(v)
    ensures FromCbor(ToCbor(v, name)) == ToJson(v) <==> Faithful(v)
    decreases v
  {
    hide *;
    match v
    case Pointer(t) => PointersAgree(t, name);
    case Slice(e) => SlicesAgree(e, name);
    case Map(m) => MapsAgree(m, name);
    case Struct(fields) => StructsAgree(fields, name);
    case _ => ScalarsAgree(v, name);
  }

  lemma ScalarsAgree(v: GoValue, name: string)
    requires WellTagged(v) && !v.Pointer? && !v.Slice? && !v.Map? && !v.Struct?
    ensures FromCbor(ToCbor(v, name)) == ToJson(v) <==> Faithful(v)
  {
    match v
    case Signed(i) => SurvivesWhen(i, name);
    case Unsigned(u) => SurvivesWhen(u, name);
    case Float64(x) => TimestampUntagged(x, name);
    case _ =>
  }

  lemma PointersAgree(target: GoValue, name: string)
    requires WellTagged(Pointer(target))
    ensures FromCbor(ToCbor(Pointer(target), name)) == ToJson(Pointer(target)) <==> Faithful(Pointer(target))
    decreases Pointer(target), 0
  {
    FormatsAgree(target, name);
  }

  lemma SlicesAgree(e: seq<GoValue>, name: string)
    requires WellTagged(Slice(e))
    ensures FromCbor(ToCbor(Slice(e), name)) == ToJson(Slice(e)) <==> Faithful(Slice(e))
    decreases Slice(e), 0
  {
    var a, b := FromCbor(ToCbor(Slice(e), name)).elements, ToJson(Slice(e)).elements;
    forall i | 0 <= i < |e| ensures a[i] == b[i] <==> Faithful(e[i]) {
      FormatsAgree(e[i], "");
    }
  }

  lemma MapsAgree(m: map<string, GoValue>, name: string)
    requires WellTagged(Map(m))
    ensures FromCbor(ToCbor(Map(m), name)) == ToJson(Map(m)) <==> Faithful(Map(m))
    decreases Map(m), 0
  {
    var a, b := FromCbor(ToCbor(Map(m), name)).entries, ToJson(Map(m)).entries;
    forall k <- m ensures a[k] == b[k] <==> Faithful(m[k]) {
      FormatsAgree(m[k], "");
    }
    if Faithful(Map(m)) { assert a == b; }
    if a == b { assert forall k <- m :: a[k] == b[k]; }
  }

  /** The entries of a struct in either format. */
  lemma StructEntries(fields: seq<Field>, name: string) returns (a: map<string, Json>, b: map<string, Json>)
    requires WellTagged(Struct(fields))
    ensures FromCbor(ToCbor(Struct(fields), name)) == JObject(a) && ToJson(Struct(fields)) == JObject(b)
    ensures a.Keys == WrittenNames(fields) && b.Keys == RenderedNames(fields)
    ensures forall n <- a :: a[n] == FromCbor(ToCbor(fields[LastWritten(fields, n)].value, n))
    ensures forall n <- b ::
              WellTagged(fields[RenderedAt(fields, n)].value) && b[n] == ToJson(fields[RenderedAt(fields, n)].value)
  {
    hide WrittenNames, RenderedNames, PlainTag, FieldName;
    a, b := FromCbor(ToCbor(Struct(fields), name)).entries, ToJson(Struct(fields)).entries;
  }

  lemma StructsAgree(fields: seq<Field>, name: string)
    requires WellTagged(Struct(fields))
    ensures FromCbor(ToCbor(Struct(fields), name)) == ToJson(Struct(fields)) <==> Faithful(Struct(fields))
    decreases Struct(fields), 0
  {
    SameNames(fields);
    var a, b := StructEntries(fields, name);
    hide ToCbor, FromCbor, ToJson, WellTagged, WrittenNames, RenderedNames, Written, Rendered, Faithful, FieldName;
    forall n <- a ensures a[n] == b[n] <==> Faithful(fields[LastWritten(fields, n)].value) {
      FormatsAgree(fields[LastWritten(fields, n)].value, n);
    }
    EntriesAgree(fields, a, b);
  }

  lemma EntriesAgree(fields: seq<Field>, a: map<string, Json>, b: map<string, Json>)
    requires a.Keys == b.Keys == WrittenNames(fields)
    requires forall n <- a :: a[n] == b[n] <==> Faithful(fields[LastWritten(fields, n)].value)
    requires forall i | 0 <= i < |fields| && Written(fields[i]) ::
               FieldName(fields[i]) in WrittenNames(fields) && LastWritten(fields, FieldName(fields[i])) == i
    ensures a == b <==> Faithful(Struct(fields))
  {
    hide WrittenNames, Written, FieldName, LastWritten;
    if Faithful(Struct(fields)) {
      assert a == b;
    }
    if a == b {
      forall i | 0 <= i < |fields| && Written(fields[i]) ensures Faithful(fields[i].value) {
        assert FieldName(fields[i]) in a;
      }
    }
  }

  // ----- which integers survive

  /** An integer is read back as the number encoding/json writes exactly if it is one of those that survive. */
  lemma SurvivesWhen(i: int, name: string)
    ensures FromCbor(ToCbor(Signed(i), name)) == ToJson(Signed(i)) <==> Survives(i)
    ensures i >= 0 ==> (FromCbor(ToCbor(Unsigned(i), name)) == ToJson(Unsigned(i)) <==> Survives(i))
  {
    hide Rounded, Ulp;
    if i >= 0 { RoundedExact(i); } else { NegativeGivenBack(-i); }
  }

  /** Integers of at most 53 bits survive. */
  lemma SmallIntegersSurvive(i: int)
    requires -TwoTo53 <= i <= TwoTo53
    ensures Survives(i)
  {
  }

  // ----- responses

  /** What responses are made of: integers of at most 53 bits, float64 values, no float32, no nil map that is written. */
  predicate Ordinary(v: GoValue)
    decreases v
  {
    match v
    case Signed(i) => -TwoTo53 <= i <= TwoTo53
    case Unsigned(u) => u <= TwoTo53
    case Float32(_, _) => false
    case NilMap => false
    case Pointer(t) => Ordinary(t)
    case Slice(e) => forall i | 0 <= i < |e| :: Ordinary(e[i])
    case Map(m) => forall k <- m :: Ordinary(m[k])
    case Struct(fields) => forall i | 0 <= i < |fields| :: Written(fields[i]) ==> Ordinary(fields[i].value)
    case _ => true
  }

  lemma {:induction false} OrdinaryFaithful(v: GoValue)
    requires Ordinary(v)
    ensures Faithful(v)
    decreases v
  {
    hide Written, Survives;
    match v
    case Signed(i) => SmallIntegersSurvive(i);
    case Unsigned(u) => SmallIntegersSurvive(u);
    case Pointer(t) => OrdinaryFaithful(t);
    case Slice(e) => forall i | 0 <= i < |e| ensures Faithful(e[i]) { OrdinaryFaithful(e[i]); }
    case Map(m) => forall k <- m ensures Faithful(m[k]) { OrdinaryFaithful(m[k]); }
    case Struct(fields) =>
      forall i | 0 <= i < |fields| && Written(fields[i]) ensures Faithful(fields[i].value) {
        OrdinaryFaithful(fields[i].value);
      }
    case _ =>
  }

  /** Ordinary responses are the same tree in both formats, whichever of their fields are timestamps. */
  lemma ResponsesAgree(v: GoValue, name: string)
    requires WellTagged(v) && Ordinary(v)
    ensures FromCbor(ToCbor(v, name)) == ToJson(v)
  {
    FormatsAgree(v, name);
    OrdinaryFaithful(v);
  }

  /** An integer that float64 holds exactly, and that the two formats nevertheless render differently. */
  lemma ExactIntegerLost()
    ensures var n := TwoTo53 + 2;
            && Rounded(n) == n
            && ToJson(Signed(-n)) == JNumber(-(n as real))
            && FromCbor(ToCbor(Signed(-n), "")) == JNumber(-(TwoTo53 as real))
  {
  }

  /** A nil map that is not omitted is an empty object in one format and null in the other. */
  lemma NilMapDiffers(name: string)
    ensures FromCbor(ToCbor(NilMap, name)) == JObject(map[]) && ToJson(NilMap) == Null
  {
  }

  /** The value behind the pointers and interfaces. */
  function Target(v: GoValue): GoValue {
    if v.Pointer? then Target(v.target) else v
  }

  /**
   A float64 carries epoch tag 1 under the three timestamp names and no tag under any other; it is read back as the plain
   number the JSON format has. Under any other tag the number is lost.
   */
  lemma TimestampUntagged(x: real, name: string)
    ensures ToCbor(Float64(x), name)
         == if name == "StartTime" || name == "EndTime" || name == "CreationTime" then CTag(1, CFloat64(x)) else CFloat64(x)
    ensures FromCbor(ToCbor(Float64(x), name)) == ToJson(Float64(x)) == JNumber(x)
    ensures forall id: nat :: FromCbor(CTag(id, CFloat64(x))) == if id == 1 then JNumber(x) else Null
  {
  }

  /** A value is tagged exactly if it is a float64 under one of the three names, whatever pointers lead to it. */
  lemma {:induction false} TagsTimestampsOnly(v: GoValue, name: string)
    ensures ToCbor(v, name).CTag? <==>
              Target(v).Float64? && (name == "StartTime" || name == "EndTime" || name == "CreationTime")
    decreases v
  {
    match v
    case Pointer(t) => TagsTimestampsOnly(t, name);
    case Float64(x) => TimestampUntagged(x, name);
    case _ =>
  }

  /**
   Inside a value: nothing in a list or map is tagged, even if the field holding it has a timestamp's name, and of the
   fields of a struct the float64 ones with a timestamp's name are.
   */
  lemma TagsInside(v: GoValue, name: string)
    ensures v.Slice? ==> forall c <- ToCbor(v, name).elements :: !c.CTag?
    ensures v.Map? ==> forall k <- ToCbor(v, name).entries :: !ToCbor(v, name).entries[k].CTag?
    ensures v.Struct? ==> ToCbor(v, name).entries.Keys == WrittenNames(v.fields)
    ensures v.Struct? ==> forall n <- WrittenNames(v.fields) ::
              (ToCbor(v, name).entries[n].CTag? <==>
                 Target(v.fields[LastWritten(v.fields, n)].value).Float64?
                 && (n == "StartTime" || n == "EndTime" || n == "CreationTime"))
  {
    hide WrittenNames, LastWritten, Target;
    match v
    case Slice(e) =>
      forall i | 0 <= i < |e| ensures !ToCbor(v, name).elements[i].CTag? { TagsTimestampsOnly(e[i], ""); }
    case Map(m) =>
      forall k <- m ensures !ToCbor(v, name).entries[k].CTag? { TagsTimestampsOnly(m[k], ""); }
    case Struct(fields) =>
      forall n <- WrittenNames(fields)
        ensures ToCbor(v, name).entries[n] == ToCbor(fields[LastWritten(fields, n)].value, n) {
      }
      forall n <- WrittenNames(fields) { TagsTimestampsOnly(fields[LastWritten(fields, n)].value, n); }
    case _ =>
  }

  /**
   For the bridge, `omitempty` anywhere in the tag's options drops an empty value; and of several fields written under
   one name the last is the one that stays.
   */
  lemma OmittedAndOverwritten(fields: seq<Field>, i: nat, before: string, after: string)
    requires i < |fields|
    ensures TagOptions(fields[i].tag) == before + "omitempty" + after && IsZero(fields[i].value) ==> !Written(fields[i])
    ensures Written(fields[i]) ==>
              FieldName(fields[i]) in WrittenNames(fields) && i <= LastWritten(fields, FieldName(fields[i]))
  {
    var options := TagOptions(fields[i].tag);
    if options == before + "omitempty" + after {
      assert options[|before|..] == "omitempty" + after;
      assert "omitempty" <= options[|before|..];
    }
    hide Written, FieldName, IsZero, TagOptions;
    if Written(fields[i]) { LastIsLast(fields, i); }
  }

  lemma {:induction false} LastIsLast(fields: seq<Field>, i: nat)
    requires i < |fields| && Written(fields[i])
    ensures FieldName(fields[i]) in WrittenNames(fields) && i <= LastWritten(fields, FieldName(fields[i]))
    decreases |fields|
  {
    hide Written, FieldName;
    var m := |fields| - 1;
    assert FieldName(fields[i]) in WrittenNames(fields);
    if i < m {
      assert fields[..m][i] == fields[i];
      LastIsLast(fields[..m], i);
    }
  }

  // ----- the loops of the bridge

  lemma PointerWritten(t: GoValue, name: string)
    ensures ToCbor(Pointer(t), name) == ToCbor(t, name)
  {
  }

  lemma ListWritten(e: seq<GoValue>, name: string, list: seq<Cbor>)
    requires |list| == |e| && forall k | 0 <= k < |e| :: list[k] == ToCbor(e[k], "")
    ensures ToCbor(Slice(e), name) == CList(list)
  {
  }

  lemma MapWritten(m: map<string, GoValue>, name: string, entries: map<string, Cbor>)
    requires entries.Keys == m.Keys && forall k <- entries :: entries[k] == ToCbor(m[k], "")
    ensures ToCbor(Map(m), name) == CMap(entries)
  {
    assert entries == map k | k in m :: ToCbor(m[k], "");
  }

  method GoToCBOR(v: GoValue, name: string) returns (c: Cbor)
    ensures c == ToCbor(v, name)
    decreases v, 1
  {
    hide ToCbor;
    match v
    case Pointer(t) =>
      c := GoToCBOR(t, name);
      PointerWritten(t, name);
    case Slice(e) =>
      var list: seq<Cbor> := [];
      for i := 0 to |e|
        invariant |list| == i && forall k | 0 <= k < i :: list[k] == ToCbor(e[k], "")
      {
        var one := GoToCBOR(e[i], "");
        list := list + [one];
      }
      c := CList(list);
      ListWritten(e, name, list);
    case Map(m) =>
      var entries: map<string, Cbor> := map[];
      var rest := m.Keys;
      while rest != {}
        invariant rest <= m.Keys && entries.Keys == m.Keys - rest
        invariant forall k <- entries :: entries[k] == ToCbor(m[k], "")
        decreases |rest|
      {
        var k :| k in rest;
        var one := GoToCBOR(m[k], "");
        entries := entries[k := one];
        rest := rest - {k};
      }
      c := CMap(entries);
      MapWritten(m, name, entries);
    case Struct(fields) =>
      c := StructToCBOR(fields, v, name);
    case _ =>
      c := ToCbor(v, name);
  }

  lemma WrittenOneMore(fields: seq<Field>, i: nat)
    requires i < |fields|
    ensures WrittenNames(fields[..i + 1])
         == if Written(fields[i]) then WrittenNames(fields[..i]) + {FieldName(fields[i])} else WrittenNames(fields[..i])
    ensures forall n <- WrittenNames(fields[..i + 1]) :: LastWritten(fields[..i + 1], n)
              == if Written(fields[i]) && FieldName(fields[i]) == n then i else LastWritten(fields[..i], n)
  {
    hide WrittenNames, Written, FieldName;
    NamesOneMore(fields, i);
    var a, b := fields[..i], fields[..i + 1];
    assert b[..|b| - 1] == a && b[|b| - 1] == fields[i];
    forall n <- WrittenNames(b)
      ensures LastWritten(b, n) == if Written(fields[i]) && FieldName(fields[i]) == n then i else LastWritten(a, n) {
    }
  }

  lemma NamesOneMore(fields: seq<Field>, i: nat)
    requires i < |fields|
    ensures WrittenNames(fields[..i + 1])
         == if Written(fields[i]) then WrittenNames(fields[..i]) + {FieldName(fields[i])} else WrittenNames(fields[..i])
  {
    hide Written, FieldName, WrittenNames;
    forall n
      ensures n in WrittenNames(fields[..i + 1])
         <==> n in WrittenNames(fields[..i]) || (Written(fields[i]) && FieldName(fields[i]) == n) {
      NameOneMore(fields, i, n);
    }
  }

  lemma NameOneMore(fields: seq<Field>, i: nat, n: string)
    requires i < |fields|
    ensures n in WrittenNames(fields[..i + 1])
       <==> n in WrittenNames(fields[..i]) || (Written(fields[i]) && FieldName(fields[i]) == n)
  {
    var a, b := fields[..i], fields[..i + 1];
    hide Written, FieldName;
    if n in WrittenNames(b) {
      var k :| 0 <= k < |b| && Written(b[k]) && FieldName(b[k]) == n;
      if k < i { assert a[k] == b[k]; } else { assert b[k] == fields[i]; }
    }
    if n in WrittenNames(a) {
      var k :| 0 <= k < |a| && Written(a[k]) && FieldName(a[k]) == n;
      assert b[k] == a[k];
    }
    assert b[i] == fields[i];
  }

  /** structToCBOR: the fields in order, each under its JSON name unless it is skipped or dropped by omitempty. */
  method StructToCBOR(fields: seq<Field>, whole: GoValue, name: string) returns (c: Cbor)
    requires whole == Struct(fields)
    ensures c == ToCbor(whole, name)
    decreases whole, 0
  {
    hide WrittenNames, LastWritten, Written, FieldName, ToCbor;
    assert WrittenNames(fields[..0]) == {} by { NothingWritten(fields); }
    var m: map<string, Cbor> := map[];
    for i := 0 to |fields|
      invariant m.Keys == WrittenNames(fields[..i])
      invariant forall n <- m :: m[n] == ToCbor(fields[LastWritten(fields[..i], n)].value, n)
    {
      WrittenOneMore(fields, i);
      if Written(fields[i]) {
        var one := GoToCBOR(fields[i].value, FieldName(fields[i]));
        m := m[FieldName(fields[i]) := one];
      }
    }
    assert fields[..|fields|] == fields;
    StructEncoded(fields, m, name);
    c := CMap(m);
  }

  lemma NothingWritten(fields: seq<Field>)
    ensures WrittenNames(fields[..0]) == {}
  {
  }

  lemma StructEncoded(fields: seq<Field>, m: map<string, Cbor>, name: string)
    requires m.Keys == WrittenNames(fields)
    requires forall n <- m :: m[n] == ToCbor(fields[LastWritten(fields, n)].value, n)
    ensures CMap(m) == ToCbor(Struct(fields), name)
  {
    hide WrittenNames, LastWritten, Written, FieldName;
  }

  lemma ObjectRead(m: map<string, Cbor>, entries: map<string, Json>)
    requires entries.Keys == m.Keys && forall k <- entries :: entries[k] == FromCbor(m[k])
    ensures FromCbor(CMap(m)) == JObject(entries)
  {
    assert entries == map k | k in m :: FromCbor(m[k]);
  }

  lemma ArrayRead(e: seq<Cbor>, list: seq<Json>)
    requires |list| == |e| && forall k | 0 <= k < |e| :: list[k] == FromCbor(e[k])
    ensures FromCbor(CList(e)) == JArray(list)
  {
  }

  lemma TagRead(id: nat, t: Cbor)
    ensures FromCbor(CTag(id, t)) == if id == 1 then FromCbor(t) else Null
  {
  }

  method CborToGoValue(c: Cbor) returns (j: Json)
    ensures j == FromCbor(c)
    decreases c
  {
    hide FromCbor;
    match c
    case CMap(m) =>
      var entries: map<string, Json> := map[];
      var rest := m.Keys;
      while rest != {}
        invariant rest <= m.Keys && entries.Keys == m.Keys - rest
        invariant forall k <- entries :: entries[k] == FromCbor(m[k])
        decreases |rest|
      {
        var k :| k in rest;
        var one := CborToGoValue(m[k]);
        entries := entries[k := one];
        rest := rest - {k};
      }
      j := JObject(entries);
      ObjectRead(m, entries);
    case CList(e) =>
      var list: seq<Json> := [];
      for i := 0 to |e|
        invariant |list| == i && forall k | 0 <= k < i :: list[k] == FromCbor(e[k])
      {
        var one := CborToGoValue(e[i]);
        list := list + [one];
      }
      j := JArray(list);
      ArrayRead(e, list);
    case CTag(id, t) =>
      TagRead(id, t);
      if id == 1 {
        j := CborToGoValue(t);
      } else {
        j := Null;
      }
    case _ =>
      j := FromCbor(c);
  }
}
