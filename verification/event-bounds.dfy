/**
 `boundEventPayload` of `agent-base/agentd/event-bounds.mjs`: a payload over its
 cap is shrunk step by step, and what says which event it is stays.

 A payload is a JSON tree; one that cannot be serialized is returned as it is
 and is not part of this model. How many bytes a text takes, in itself and
 inside JSON, and its cut to a number of bytes, are parameters.
 */
module EventBounds {
  import opened Wrappers
  import CutLevel

  const MAX_ARRAY_ITEMS: nat := 100
  const MIN_STRING_BYTES: nat := 256
  const IDENTITY_STRING_BYTES: nat := 256

  datatype Key =
    | Type | Subtype | Uuid | SessionId | RequestId | ToolName | ToolUseId | Kind | State | ParentToolUseId | Id
    | Name | Role | Model | IsError | Message | Content | ToolUseResult | Data | Base64 | OmittedBytes | OmittedItems
    | ZwrmTruncated | ZwrmOmitted | OriginalBytes | Other(name: string)

  datatype Json =
    | Null | Bool(b: bool) | Num(digits: string) | Str(s: string) | Arr(items: seq<Json>) | Obj(fields: seq<Field>)

  /** A field; an object has each key once. */
  datatype Field = Field(key: Key, value: Json)

  const IDENTITY_KEYS :=
    [Type, Subtype, Uuid, SessionId, RequestId, ToolName, ToolUseId, Kind, State, ParentToolUseId, Id, Name]
  const MESSAGE_KEYS := [Id, Type, Role, Model]
  const BLOCK_KEYS := [Type, Id, ToolUseId, Name, IsError]

  /** What the model takes of texts: their bytes, their bytes inside JSON without
      the quotes, their cut, the JSON of a key, and numbers written out. */
  datatype Texts =
    Texts(raw: string -> nat, json: string -> nat, cut: (string, nat) -> string, key: Key -> nat, digits: nat -> string)

  /** A cut leaves what fits as it is, and JSON never shortens a text. */
  ghost predicate Sound(t: Texts) {
    (forall s, n: nat :: t.raw(s) <= n ==> t.cut(s, n) == s) && forall s :: t.raw(s) <= t.json(s)
  }

  // ---- trees --------------------------------------------------------------------------

  /** `jsonBytes` */
  function Size(t: Texts, v: Json): nat
    decreases v
  {
    match v
    case Null => 4
    case Bool(b) => if b then 4 else 5
    case Num(digits) => |digits|
    case Str(s) => t.json(s) + 2
    case Arr(items) => 2 + ItemsSize(t, items)
    case Obj(fields) => 2 + FieldsSize(t, fields)
  }

  function ItemsSize(t: Texts, items: seq<Json>): nat
    decreases items
  {
    if items == [] then 0 else Size(t, items[0]) + (if |items| > 1 then 1 else 0) + ItemsSize(t, items[1..])
  }

  function FieldSize(t: Texts, f: Field): nat
    decreases f
  {
    t.key(f.key) + 3 + Size(t, f.value)
  }

  function FieldsSize(t: Texts, fs: seq<Field>): nat
    decreases fs
  {
    if fs == [] then 0 else FieldSize(t, fs[0]) + (if |fs| > 1 then 1 else 0) + FieldsSize(t, fs[1..])
  }

  function Lookup(fs: seq<Field>, key: Key): Option<Json> {
    if fs == [] then None else if fs[0].key == key then Some(fs[0].value) else Lookup(fs[1..], key)
  }

  /** `{ ...obj, key: value }` */
  function With(fs: seq<Field>, key: Key, v: Json): seq<Field> {
    if fs == [] then [Field(key, v)]
    else if fs[0].key == key then [Field(key, v)] + fs[1..]
    else [fs[0]] + With(fs[1..], key, v)
  }

  function Count(t: Texts, n: nat): Json { Num(t.digits(n)) }

  // ---- the steps ------------------------------------------------------------------------

  predicate IsText(v: Option<Json>) { v.Some? && v.value.Str? && v.value.s != "" }

  /** `stripBase64Node` */
  function StripNode(t: Texts, fs: seq<Field>): seq<Field> {
    var data, file := Lookup(fs, Data), Lookup(fs, Base64);
    var source := Lookup(fs, Type) == Some(Str("base64")) && IsText(data);
    var omitted := (if source then t.raw(data.value.s) else 0) + (if IsText(file) then t.raw(file.value.s) else 0);
    if omitted == 0 then fs
    else
      var fs := if source then With(fs, Data, Str("")) else fs;
      var fs := if IsText(file) then With(fs, Base64, Str("")) else fs;
      With(fs, OmittedBytes, Count(t, omitted))
  }

  function StripBase64(t: Texts, v: Json): Json
    decreases v
  {
    match v
    case Arr(items) => Arr(StripItems(t, items))
    case Obj(fs) => Obj(StripNode(t, StripFields(t, fs)))
    case _ => v
  }

  function StripItems(t: Texts, items: seq<Json>): seq<Json>
    decreases items
  {
    if items == [] then [] else [StripBase64(t, items[0])] + StripItems(t, items[1..])
  }

  function StripField(t: Texts, f: Field): Field
    decreases f
  {
    Field(f.key, StripBase64(t, f.value))
  }

  function StripFields(t: Texts, fs: seq<Field>): seq<Field>
    decreases fs
  {
    if fs == [] then [] else [StripField(t, fs[0])] + StripFields(t, fs[1..])
  }

  function OmittedMarker(t: Texts, n: nat): Json {
    Obj([Field(Type, Str("zwrm_omitted")), Field(OmittedItems, Count(t, n))])
  }

  /** Long arrays keep their head and say how much went. */
  function ShortenArrays(t: Texts, v: Json): Json
    decreases v
  {
    match v
    case Arr(items) =>
      if |items| <= MAX_ARRAY_ITEMS then Arr(ShortenItems(t, items))
      else Arr(ShortenItems(t, items[..MAX_ARRAY_ITEMS]) + [OmittedMarker(t, |items| - MAX_ARRAY_ITEMS)])
    case Obj(fs) => Obj(ShortenFields(t, fs))
    case _ => v
  }

  function ShortenItems(t: Texts, items: seq<Json>): seq<Json>
    decreases items
  {
    if items == [] then [] else [ShortenArrays(t, items[0])] + ShortenItems(t, items[1..])
  }

  function ShortenField(t: Texts, f: Field): Field
    decreases f
  {
    Field(f.key, ShortenArrays(t, f.value))
  }

  function ShortenFields(t: Texts, fs: seq<Field>): seq<Field>
    decreases fs
  {
    if fs == [] then [] else [ShortenField(t, fs[0])] + ShortenFields(t, fs[1..])
  }

  function CutString(t: Texts, s: string, level: nat): string {
    if |s| * 6 <= level || t.json(s) <= level then s else t.cut(s, level * t.raw(s) / t.json(s))
  }

  function CutStrings(t: Texts, v: Json, level: nat): Json
    decreases v
  {
    match v
    case Str(s) => Str(CutString(t, s, level))
    case Arr(items) => Arr(CutItems(t, items, level))
    case Obj(fs) => Obj(CutFields(t, fs, level))
    case _ => v
  }

  function CutItems(t: Texts, items: seq<Json>, level: nat): seq<Json>
    decreases items
  {
    if items == [] then [] else [CutStrings(t, items[0], level)] + CutItems(t, items[1..], level)
  }

  function CutField(t: Texts, f: Field, level: nat): Field
    decreases f
  {
    Field(f.key, CutStrings(t, f.value, level))
  }

  function CutFields(t: Texts, fs: seq<Field>, level: nat): seq<Field>
    decreases fs
  {
    if fs == [] then [] else [CutField(t, fs[0], level)] + CutFields(t, fs[1..], level)
  }

  /** The JSON sizes of the strings over `MIN_STRING_BYTES`. */
  function StringSizes(t: Texts, v: Json): seq<nat>
    decreases v
  {
    match v
    case Str(s) => if |s| * 6 > MIN_STRING_BYTES && t.json(s) > MIN_STRING_BYTES then [t.json(s)] else []
    case Arr(items) => ItemsStringSizes(t, items)
    case Obj(fs) => FieldsStringSizes(t, fs)
    case _ => []
  }

  function ItemsStringSizes(t: Texts, items: seq<Json>): seq<nat>
    decreases items
  {
    if items == [] then [] else StringSizes(t, items[0]) + ItemsStringSizes(t, items[1..])
  }

  function FieldStringSizes(t: Texts, f: Field): seq<nat>
    decreases f
  {
    StringSizes(t, f.value)
  }

  function FieldsStringSizes(t: Texts, fs: seq<Field>): seq<nat>
    decreases fs
  {
    if fs == [] then [] else FieldStringSizes(t, fs[0]) + FieldsStringSizes(t, fs[1..])
  }

  function Insert(x: nat, s: seq<nat>): (r: seq<nat>)
    requires CutLevel.Descending(s)
    ensures CutLevel.Descending(r) && |r| == |s| + 1 && r[0] == if s == [] || x >= s[0] then x else s[0]
  {
    if s == [] || x >= s[0] then [x] + s
    else
      var rest := Insert(x, s[1..]);
      assert s[1..] == [] || s[1..][0] == s[1];
      assert forall i :: 0 <= i < |rest| ==> rest[i] <= rest[0];
      [s[0]] + rest
  }

  /** `sort((a, b) => b - a)` */
  function Sorted(s: seq<nat>): (r: seq<nat>)
    ensures CutLevel.Descending(r) && |r| == |s|
  {
    if s == [] then [] else Insert(s[0], Sorted(s[1..]))
  }

  lemma {:induction false} InsertAdds(x: nat, s: seq<nat>)
    requires CutLevel.Descending(s)
    ensures multiset(Insert(x, s)) == multiset(s) + multiset{x}
  {
    if s != [] && x < s[0] {
      InsertAdds(x, s[1..]);
      assert s == [s[0]] + s[1..];
    }
  }

  lemma {:induction false} SortedPermutes(s: seq<nat>)
    ensures multiset(Sorted(s)) == multiset(s)
  {
    hide Insert, CutLevel.Descending;
    if s == [] {
      assert Sorted(s) == [];
    } else {
      var rest := s[1..];
      assert Sorted(s) == Insert(s[0], Sorted(rest));
      SortedPermutes(rest);
      InsertAdds(s[0], Sorted(rest));
      hide Sorted;
      assert s == [s[0]] + rest;
    }
  }

  // ---- the skeleton ---------------------------------------------------------------------

  predicate IsScalar(v: Json) { v.Null? || v.Bool? || v.Num? }

  function Identity(t: Texts, fs: seq<Field>, keys: seq<Key>): seq<Field> {
    if keys == [] then []
    else
      var v := Lookup(fs, keys[0]);
      (if v.Some? && v.value.Str? then [Field(keys[0], Str(t.cut(v.value.s, IDENTITY_STRING_BYTES)))]
       else if v.Some? && IsScalar(v.value) then [Field(keys[0], v.value)] else [])
      + Identity(t, fs, keys[1..])
  }

  function Blocks(t: Texts, items: seq<Json>): seq<Json> {
    if items == [] then []
    else (if items[0].Obj? then [Obj(Identity(t, items[0].fields, BLOCK_KEYS))] else []) + Blocks(t, items[1..])
  }

  function MessageSkeleton(t: Texts, fs: seq<Field>): seq<Field> {
    var content := Lookup(fs, Content);
    Identity(t, fs, MESSAGE_KEYS) +
    if content.Some? && content.value.Arr? then
      var items := content.value.items;
      if |items| <= MAX_ARRAY_ITEMS then [Field(Content, Arr(Blocks(t, items)))]
      else [Field(Content, Arr(Blocks(t, items[..MAX_ARRAY_ITEMS]) + [OmittedMarker(t, |items| - MAX_ARRAY_ITEMS)]))]
    else []
  }

  function Skeleton(t: Texts, payload: Json): seq<Field> {
    if !payload.Obj? then []
    else
      var message := Lookup(payload.fields, Message);
      Identity(t, payload.fields, IDENTITY_KEYS) +
      if message.Some? && message.value.Obj? then [Field(Message, Obj(MessageSkeleton(t, message.value.fields)))]
      else []
  }

  // ---- the whole ------------------------------------------------------------------------

  function Bare(t: Texts, originalBytes: nat): Json {
    Obj([Field(ZwrmTruncated, Bool(true)), Field(OriginalBytes, Count(t, originalBytes))])
  }

  function Marked(t: Texts, v: Json, originalBytes: nat): Json {
    if v.Obj? then Obj(With(v.fields, ZwrmTruncated, Bool(true))) else Bare(t, originalBytes)
  }

  function OmittedOutput(t: Texts, output: Json): Json {
    Obj([Field(ZwrmOmitted, Bool(true)), Field(OriginalBytes, Count(t, Size(t, output)))])
  }

  /** The base after the steps that come before strings are cut. */
  function Base(t: Texts, payload: Json, max: nat): Json {
    var original := Size(t, payload);
    var base := StripBase64(t, payload);
    var output := if base.Obj? && payload.Obj? then Lookup(payload.fields, ToolUseResult) else None;
    var base :=
      if output.Some? && Size(t, Marked(t, base, original)) > max then
        Obj(With(base.fields, ToolUseResult, OmittedOutput(t, output.value)))
      else base;
    if Size(t, Marked(t, base, original)) > max then ShortenArrays(t, base) else base
  }

  /** The loop that cuts: from what `out` is, at most `tries` more levels. */
  function CutLoop(
    t: Texts, base: Json, original: nat, max: nat, sizes: seq<nat>, need: int, tries: nat, out: Json): Json
    decreases tries
  {
    if tries == 0 || Size(t, out) <= max || sizes == [] then out
    else
      var found := CutLevel.LevelFrom(sizes, need, 1);
      var level := if found < MIN_STRING_BYTES then MIN_STRING_BYTES else found;
      var out := Marked(t, CutStrings(t, base, level), original);
      if level == MIN_STRING_BYTES then out
      else CutLoop(t, base, original, max, sizes, need + Size(t, out) - max, tries - 1, out)
  }

  function Shrunk(t: Texts, payload: Json, max: nat): Json {
    var original := Size(t, payload);
    var base := Base(t, payload, max);
    var out := Marked(t, base, original);
    CutLoop(t, base, original, max, Sorted(StringSizes(t, base)), Size(t, out) - max, 4, out)
  }

  function SkeletonOnly(t: Texts, payload: Json): Json {
    Obj(With(With(Skeleton(t, payload), ZwrmTruncated, Bool(true)), OriginalBytes, Count(t, Size(t, payload))))
  }

  function Bound(t: Texts, payload: Json, max: nat): Json {
    if Size(t, payload) <= max then payload
    else
      var out := Shrunk(t, payload, max);
      if Size(t, out) <= max then out
      else if Size(t, SkeletonOnly(t, payload)) <= max then SkeletonOnly(t, payload)
      else Bare(t, Size(t, payload))
  }

  /** `boundEventPayload` as the original runs it. */
  method BoundEventPayload(t: Texts, payload: Json, max: nat) returns (out: Json, shrunk: bool)
    ensures out == Bound(t, payload, max) && (shrunk <==> Size(t, payload) > max)
  {
    hide CutLevel.LevelFrom, CutLevel.Savings, CutLevel.IsCutLevel;
    hide Size, Sorted, StringSizes, CutStrings, Marked, Base, SkeletonOnly;
    var original := Size(t, payload);
    if original <= max { return payload, false; }
    var base := Base(t, payload, max);
    out := Marked(t, base, original);
    var bytes := Size(t, out);
    if bytes > max {
      var sizes := Sorted(StringSizes(t, base));
      var need := bytes - max;
      var i := 0;
      while i < 4 && bytes > max && |sizes| > 0
        invariant 0 <= i <= 4 && bytes == Size(t, out) && (bytes > max ==> need > 0)
        invariant CutLoop(t, base, original, max, sizes, need, 4 - i, out) == Shrunk(t, payload, max)
      {
        var found := CutLevel.FindCutLevel(sizes, need);
        var level := if found < MIN_STRING_BYTES then MIN_STRING_BYTES else found;
        out := Marked(t, CutStrings(t, base, level), original);
        bytes := Size(t, out);
        if level == MIN_STRING_BYTES { break; }
        need := need + bytes - max;
        i := i + 1;
      }
    }
    assert out == Shrunk(t, payload, max);
    if bytes > max {
      out := SkeletonOnly(t, payload);
      bytes := Size(t, out);
    }
    if bytes > max { out := Bare(t, original); }
    return out, true;
  }

  // ---- what it keeps ----------------------------------------------------------------------

  /** Strings are cut only while the steps before have not made the payload fit. */
  lemma UncutIfItFits(t: Texts, payload: Json, max: nat)
    ensures var base := Marked(t, Base(t, payload, max), Size(t, payload));
      Size(t, payload) > max && Size(t, base) <= max ==> Bound(t, payload, max) == base
  {
    hide Size, Marked, Base, Sorted, StringSizes, SkeletonOnly, Bare;
  }

  /** And of those steps none beyond the first that does. */
  lemma CheapestFirst(t: Texts, payload: Json, max: nat)
    ensures var stripped := Marked(t, StripBase64(t, payload), Size(t, payload));
      Size(t, payload) > max && Size(t, stripped) <= max ==> Bound(t, payload, max) == stripped
  {
    UncutIfItFits(t, payload, max);
    hide Size, Marked, StripBase64, Bound;
  }

  lemma ResultIsMarked(t: Texts, payload: Json, max: nat)
    ensures Size(t, payload) > max ==> IsMarked(Bound(t, payload, max))
  {
    hide Size, Shrunk;
    ShrunkIsMarked(t, payload, max);
    var marked := With(Skeleton(t, payload), ZwrmTruncated, Bool(true));
    WithHas(Skeleton(t, payload), ZwrmTruncated, Bool(true), ZwrmTruncated);
    WithHas(marked, OriginalBytes, Count(t, Size(t, payload)), ZwrmTruncated);
  }

  lemma ResultFits(t: Texts, payload: Json, max: nat)
    ensures Size(t, payload) <= max ==> Bound(t, payload, max) == payload
    ensures
      Size(t, payload) > max && Size(t, Bare(t, Size(t, payload))) <= max ==> Size(t, Bound(t, payload, max)) <= max
  {
    hide Size, Shrunk, SkeletonOnly, Bare;
  }

  /** An unchanged payload is one that fits; any other result says it was cut, and
      fits wherever the bare mark of it does. Strings are cut only if nothing less
      was enough, and where dropping encoded file data is, nothing else is touched. */
  lemma BoundFits(t: Texts, payload: Json, max: nat)
    ensures Size(t, payload) <= max ==> Bound(t, payload, max) == payload
    ensures
      Size(t, payload) > max && Size(t, Bare(t, Size(t, payload))) <= max ==> Size(t, Bound(t, payload, max)) <= max
    ensures Size(t, payload) > max ==> IsMarked(Bound(t, payload, max))
    ensures var base := Marked(t, Base(t, payload, max), Size(t, payload));
      Size(t, payload) > max && Size(t, base) <= max ==> Bound(t, payload, max) == base
    ensures var stripped := Marked(t, StripBase64(t, payload), Size(t, payload));
      Size(t, payload) > max && Size(t, stripped) <= max ==> Bound(t, payload, max) == stripped
  {
    hide *;
    ResultFits(t, payload, max);
    ResultIsMarked(t, payload, max);
    UncutIfItFits(t, payload, max);
    CheapestFirst(t, payload, max);
  }

  predicate IsMarked(v: Json) { v.Obj? && Lookup(v.fields, ZwrmTruncated) == Some(Bool(true)) }

  lemma LookupFirst(f: Field, fs: seq<Field>, k: Key)
    ensures Lookup([f] + fs, k) == if f.key == k then Some(f.value) else Lookup(fs, k)
  {
    assert ([f] + fs)[1..] == fs;
  }

  lemma {:induction false} WithHas(fs: seq<Field>, key: Key, v: Json, k: Key)
    ensures Lookup(With(fs, key, v), k) == if k == key then Some(v) else Lookup(fs, k)
  {
    if fs == [] {
      LookupFirst(Field(key, v), [], k);
      assert [Field(key, v)] + [] == [Field(key, v)];
    } else {
      WithHas(fs[1..], key, v, k);
      LookupFirst(fs[0], fs[1..], k);
      LookupFirst(Field(key, v), fs[1..], k);
      LookupFirst(fs[0], With(fs[1..], key, v), k);
      hide Lookup;
      assert fs == [fs[0]] + fs[1..];
    }
  }

  lemma MarkedIsMarked(t: Texts, v: Json, original: nat)
    ensures IsMarked(Marked(t, v, original))
  {
    if v.Obj? { WithHas(v.fields, ZwrmTruncated, Bool(true), ZwrmTruncated); }
  }

  lemma {:induction false} CutLoopIsMarked(
    t: Texts, base: Json, original: nat, max: nat, sizes: seq<nat>, need: int, tries: nat, out: Json)
    requires IsMarked(out)
    ensures IsMarked(CutLoop(t, base, original, max, sizes, need, tries, out))
    decreases tries
  {
    hide IsMarked, Marked, CutStrings, Size, CutLevel.LevelFrom;
    if tries > 0 && Size(t, out) > max && sizes != [] {
      var found := CutLevel.LevelFrom(sizes, need, 1);
      var level := if found < MIN_STRING_BYTES then MIN_STRING_BYTES else found;
      var next := Marked(t, CutStrings(t, base, level), original);
      MarkedIsMarked(t, CutStrings(t, base, level), original);
      CutLoopIsMarked(t, base, original, max, sizes, need + Size(t, next) - max, tries - 1, next);
    }
  }

  lemma ShrunkIsMarked(t: Texts, payload: Json, max: nat)
    ensures IsMarked(Shrunk(t, payload, max))
  {
    hide IsMarked, Marked, Size, Base, CutLoop;
    var base := Base(t, payload, max);
    var out := Marked(t, base, Size(t, payload));
    MarkedIsMarked(t, base, Size(t, payload));
    CutLoopIsMarked(t, base, Size(t, payload), max, Sorted(StringSizes(t, base)), Size(t, out) - max, 4, out);
  }

  /** A scalar, or a string no longer than identity strings may be. */
  predicate Small(t: Texts, v: Json) { IsScalar(v) || (v.Str? && t.json(v.s) <= 256) }

  /** `v` is an object that has the small value `x` under `key`. */
  predicate Keeps(v: Json, key: Key, x: Json) { v.Obj? && Lookup(v.fields, key) == Some(x) }

  lemma SmallStays(t: Texts, x: Json, level: nat)
    requires Small(t, x) && level >= MIN_STRING_BYTES
    ensures StripBase64(t, x) == x && ShortenArrays(t, x) == x && CutStrings(t, x, level) == x
  {}

  lemma {:induction false} StripFieldsKeep(t: Texts, fs: seq<Field>, key: Key, x: Json)
    requires Lookup(fs, key) == Some(x) && Small(t, x)
    ensures Lookup(StripFields(t, fs), key) == Some(x)
  {
    SmallStays(t, x, MIN_STRING_BYTES);
    var head := StripField(t, fs[0]);
    assert head.key == fs[0].key && (head.key == key ==> head.value == x);
    LookupFirst(head, StripFields(t, fs[1..]), key);
    if fs[0].key != key { StripFieldsKeep(t, fs[1..], key, x); }
  }

  lemma StripKeeps(t: Texts, v: Json, key: Key, x: Json)
    requires Keeps(v, key, x) && Small(t, x) && key !in {Data, Base64, OmittedBytes}
    ensures Keeps(StripBase64(t, v), key, x)
  {
    StripFieldsKeep(t, v.fields, key, x);
    var fs := StripFields(t, v.fields);
    hide StripFields, Small;
    forall gs, k, y ensures Lookup(With(gs, k, y), key) == if k == key then Some(y) else Lookup(gs, key) {
      WithHas(gs, k, y, key);
    }
    hide Lookup, With;
  }

  lemma {:induction false} ShortenFieldsKeep(t: Texts, fs: seq<Field>, key: Key, x: Json)
    requires Lookup(fs, key) == Some(x) && Small(t, x)
    ensures Lookup(ShortenFields(t, fs), key) == Some(x)
  {
    SmallStays(t, x, MIN_STRING_BYTES);
    var head := ShortenField(t, fs[0]);
    assert head.key == fs[0].key && (head.key == key ==> head.value == x);
    LookupFirst(head, ShortenFields(t, fs[1..]), key);
    if fs[0].key != key { ShortenFieldsKeep(t, fs[1..], key, x); }
  }

  lemma {:induction false} CutFieldsKeep(t: Texts, fs: seq<Field>, level: nat, key: Key, x: Json)
    requires Lookup(fs, key) == Some(x) && Small(t, x) && level >= MIN_STRING_BYTES
    ensures Lookup(CutFields(t, fs, level), key) == Some(x)
  {
    SmallStays(t, x, level);
    var head := CutField(t, fs[0], level);
    assert head.key == fs[0].key && (head.key == key ==> head.value == x);
    LookupFirst(head, CutFields(t, fs[1..], level), key);
    if fs[0].key != key { CutFieldsKeep(t, fs[1..], level, key, x); }
  }

  lemma MarkedKeeps(t: Texts, v: Json, original: nat, key: Key, x: Json)
    requires Keeps(v, key, x) && key != ZwrmTruncated
    ensures Keeps(Marked(t, v, original), key, x)
  {
    WithHas(v.fields, ZwrmTruncated, Bool(true), key);
  }

  lemma WithKeeps(v: Json, k: Key, y: Json, key: Key, x: Json)
    requires Keeps(v, key, x) && k != key
    ensures Keeps(Obj(With(v.fields, k, y)), key, x)
  {
    WithHas(v.fields, k, y, key);
    hide Lookup, With;
  }

  lemma ShortenKeeps(t: Texts, v: Json, key: Key, x: Json)
    requires Keeps(v, key, x) && Small(t, x)
    ensures Keeps(ShortenArrays(t, v), key, x)
  {
    ShortenFieldsKeep(t, v.fields, key, x);
    hide Lookup, ShortenFields, Small;
  }

  lemma BaseKeeps(t: Texts, payload: Json, max: nat, key: Key, x: Json)
    requires Keeps(payload, key, x) && Small(t, x) && key in IDENTITY_KEYS
    ensures Keeps(Base(t, payload, max), key, x)
  {
    hide Keeps, Size, Lookup, With, StripBase64, ShortenArrays, Marked, Small;
    var original := Size(t, payload);
    var base := StripBase64(t, payload);
    StripKeeps(t, payload, key, x);
    KeepsObject(payload, key, x);
    KeepsObject(base, key, x);
    var output := Lookup(payload.fields, ToolUseResult);
    var omitted := OmittedOutput(t, output.GetOr(Null));
    WithKeeps(base, ToolUseResult, omitted, key, x);
    var base2 :=
      if output.Some? && Size(t, Marked(t, base, original)) > max then Obj(With(base.fields, ToolUseResult, omitted))
      else base;
    ShortenKeeps(t, base2, key, x);
  }

  lemma KeepsObject(v: Json, key: Key, x: Json)
    requires Keeps(v, key, x)
    ensures v.Obj?
  {}

  lemma {:induction false} CutLoopKeeps(
    t: Texts, base: Json, original: nat, max: nat, sizes: seq<nat>, need: int, tries: nat, out: Json, key: Key, x: Json)
    requires Keeps(base, key, x) && Keeps(out, key, x) && Small(t, x) && key != ZwrmTruncated
    ensures Keeps(CutLoop(t, base, original, max, sizes, need, tries, out), key, x)
    decreases tries
  {
    if tries > 0 && Size(t, out) > max && sizes != [] {
      var found := CutLevel.LevelFrom(sizes, need, 1);
      var level := if found < MIN_STRING_BYTES then MIN_STRING_BYTES else found;
      var next := Marked(t, CutStrings(t, base, level), original);
      CutFieldsKeep(t, base.fields, level, key, x);
      MarkedKeeps(t, CutStrings(t, base, level), original, key, x);
      CutLoopKeeps(t, base, original, max, sizes, need + Size(t, next) - max, tries - 1, next, key, x);
      hide Keeps, Marked, CutStrings, Size, CutLevel.LevelFrom, Small;
    }
  }

  lemma {:induction false} IdentityKeeps(
    t: Texts, fs: seq<Field>, keys: seq<Key>, rest: seq<Field>, key: Key, x: Json)
    requires Sound(t) && Lookup(fs, key) == Some(x) && Small(t, x) && key in keys
    ensures Lookup(Identity(t, fs, keys) + rest, key) == Some(x)
  {
    var tail := Identity(t, fs, keys[1..]);
    if keys[0] == key {
      var head := [Field(key, x)];
      assert t.raw(if x.Str? then x.s else "") <= t.json(if x.Str? then x.s else "");
      assert Identity(t, fs, keys) == head + tail;
      assert (head + tail + rest)[0] == head[0];
    } else {
      IdentityKeeps(t, fs, keys[1..], rest, key, x);
      var head := Identity(t, fs, keys)[..|Identity(t, fs, keys)| - |tail|];
      assert Identity(t, fs, keys) == head + tail;
      if head == [] { assert head + tail + rest == tail + rest; }
      else { assert (head + tail + rest)[1..] == tail + rest; }
    }
  }

  lemma SkeletonKeeps(t: Texts, payload: Json, key: Key, x: Json)
    requires Sound(t) && Keeps(payload, key, x) && Small(t, x) && key in IDENTITY_KEYS
    ensures Keeps(SkeletonOnly(t, payload), key, x)
  {
    hide With, Size, Small, MessageSkeleton, Lookup;
    var ids := Identity(t, payload.fields, IDENTITY_KEYS);
    var rest := Skeleton(t, payload)[|ids|..];
    assert Skeleton(t, payload) == ids + rest;
    IdentityKeeps(t, payload.fields, IDENTITY_KEYS, rest, key, x);
    var fs := Skeleton(t, payload);
    WithHas(fs, ZwrmTruncated, Bool(true), key);
    WithHas(With(fs, ZwrmTruncated, Bool(true)), OriginalBytes, Count(t, Size(t, payload)), key);
  }

  /** What says which event it is survives every step: each identity scalar, and each
      identity string of at most 256 bytes of JSON, is in the result, unless that is
      the bare mark. */
  lemma IdentitySurvives(t: Texts, payload: Json, max: nat, key: Key, x: Json)
    requires Sound(t) && Keeps(payload, key, x) && Small(t, x)
    requires key in [Type, Subtype, Uuid, SessionId, RequestId, ToolName, ToolUseId, Kind, State, ParentToolUseId, Id, Name]
    ensures var out := Bound(t, payload, max); Keeps(out, key, x) || out == Bare(t, Size(t, payload))
  {
    hide Keeps, Size, Base, Marked, CutLoop, SkeletonOnly, Small, Sound, Bare;
    var base := Base(t, payload, max);
    var out := Marked(t, base, Size(t, payload));
    BaseKeeps(t, payload, max, key, x);
    MarkedKeeps(t, base, Size(t, payload), key, x);
    CutLoopKeeps(t, base, Size(t, payload), max, Sorted(StringSizes(t, base)), Size(t, out) - max, 4, out, key, x);
    SkeletonKeeps(t, payload, key, x);
  }
}
