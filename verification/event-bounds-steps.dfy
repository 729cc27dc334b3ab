/**
 What each step of `boundEventPayload` takes from a payload and what it leaves, at
 every place in it.
 */
module EventBoundsSteps {
  import opened Wrappers
  import opened EventBounds
  import CutLevel

  datatype Step = Item(i: nat) | Under(key: Key)

  /** What is at the end of a path into a tree. */
  function At(v: Json, path: seq<Step>): Option<Json>
    decreases |path|
  {
    if path == [] then Some(v)
    else
      var next := Child(v, path[0]);
      if next.Some? then At(next.value, path[1..]) else None
  }

  function Child(v: Json, step: Step): Option<Json> {
    match step
    case Item(i) => if v.Arr? && i < |v.items| then Some(v.items[i]) else None
    case Under(key) => if v.Obj? then Lookup(v.fields, key) else None
  }

  /** Only the empty text takes no bytes, and JSON at most six for each unit. */
  ghost predicate Measures(t: Texts) {
    forall s {:trigger t.raw(s)} {:trigger t.json(s)} :: (t.raw(s) == 0 <==> s == "") && t.json(s) <= 6 * |s|
  }

  // ---- encoded file data -----------------------------------------------------------------

  predicate HoldsText(fs: seq<Field>, key: Key) {
    var v := Lookup(fs, key);
    v.Some? && v.value.Str? && v.value.s != ""
  }

  predicate IsSource(fs: seq<Field>) { Lookup(fs, Type) == Some(Str("base64")) && HoldsText(fs, Data) }

  predicate IsFile(fs: seq<Field>) { HoldsText(fs, Base64) }

  function Held(t: Texts, fs: seq<Field>, key: Key): nat
    requires HoldsText(fs, key)
  {
    t.raw(Lookup(fs, key).value.s)
  }

  /** The fields that dropping encoded data writes in an object. */
  predicate Written(v: Json, step: Step) {
    v.Obj? && ((step == Under(Data) && IsSource(v.fields)) || (step == Under(Base64) && IsFile(v.fields)) ||
               (step == Under(OmittedBytes) && (IsSource(v.fields) || IsFile(v.fields))))
  }

  /** A path that goes through none of them. */
  predicate Clear(v: Json, path: seq<Step>)
    decreases |path|
  {
    path == [] ||
    (!Written(v, path[0]) && (Child(v, path[0]).Some? ==> Clear(Child(v, path[0]).value, path[1..])))
  }

  /** Both nothing, or both the same but for what is further in. */
  predicate Alike(a: Option<Json>, b: Option<Json>) {
    if a.None? || b.None? then a == b
    else if a.value.Arr? then b.value.Arr? && |b.value.items| == |a.value.items|
    else if a.value.Obj? then b.value.Obj?
    else a == b
  }

  function StripChild(t: Texts, v: Option<Json>): Option<Json> {
    if v.Some? then Some(StripBase64(t, v.value)) else None
  }

  lemma {:induction false} StripItemAt(t: Texts, items: seq<Json>, i: nat)
    ensures |StripItems(t, items)| == |items|
    ensures i < |items| ==> StripItems(t, items)[i] == StripBase64(t, items[i])
  {
    if items != [] { StripItemAt(t, items[1..], if i > 0 then i - 1 else 0); }
  }

  lemma {:induction false} StripFieldAt(t: Texts, fs: seq<Field>, key: Key)
    ensures Lookup(StripFields(t, fs), key) == StripChild(t, Lookup(fs, key))
  {
    if fs != [] {
      StripFieldAt(t, fs[1..], key);
      LookupFirst(StripField(t, fs[0]), StripFields(t, fs[1..]), key);
    }
  }

  /** An object whose values were stripped holds the texts it held. */
  lemma StrippedHolds(t: Texts, fs: seq<Field>, key: Key)
    ensures var stripped := StripFields(t, fs);
      HoldsText(stripped, key) == HoldsText(fs, key) && (HoldsText(fs, key) ==> Lookup(stripped, key) == Lookup(fs, key))
  {
    StripFieldAt(t, fs, key);
    hide Lookup, StripFields;
  }

  lemma StripNodeAt(t: Texts, fs: seq<Field>, key: Key)
    requires Measures(t)
    ensures var w := Lookup(StripNode(t, fs), key);
      if key == Data && IsSource(fs) then w == Some(Str(""))
      else if key == Base64 && IsFile(fs) then w == Some(Str(""))
      else if key == OmittedBytes && (IsSource(fs) || IsFile(fs)) then
        w == Some(Num(t.digits((if IsSource(fs) then Held(t, fs, Data) else 0) + if IsFile(fs) then Held(t, fs, Base64) else 0)))
      else w == Lookup(fs, key)
  {
    assert IsSource(fs) ==> Held(t, fs, Data) > 0;
    assert IsFile(fs) ==> Held(t, fs, Base64) > 0;
    hide Measures;
    forall gs, k, y ensures Lookup(With(gs, k, y), key) == if k == key then Some(y) else Lookup(gs, key) {
      WithHas(gs, k, y, key);
    }
    hide Lookup, With;
  }

  /** One step into a stripped tree. */
  lemma StripChildAt(t: Texts, v: Json, step: Step)
    requires Measures(t) && !Written(v, step)
    ensures Child(StripBase64(t, v), step) == StripChild(t, Child(v, step))
  {
    if v.Arr? {
      StripItemAt(t, v.items, if step.Item? then step.i else 0);
    } else if v.Obj? && step.Under? {
      StrippedSource(t, v.fields);
      StripNodeAt(t, StripFields(t, v.fields), step.key);
      StripFieldAt(t, v.fields, step.key);
      hide Lookup, StripNode, StripFields, IsSource, IsFile;
    }
  }

  lemma StrippedSource(t: Texts, fs: seq<Field>)
    ensures var stripped := StripFields(t, fs); IsSource(stripped) == IsSource(fs) && IsFile(stripped) == IsFile(fs)
  {
    StrippedHolds(t, fs, Type);
    StrippedHolds(t, fs, Data);
    StrippedHolds(t, fs, Base64);
    hide Lookup, StripFields;
  }

  /** A field that was written is a text or a number. */
  lemma WrittenIsLeaf(t: Texts, v: Json, step: Step)
    requires Measures(t) && Written(v, step)
    ensures var w := Child(StripBase64(t, v), step); w.Some? && (w.value.Str? || w.value.Num?)
  {
    StrippedSource(t, v.fields);
    StripNodeAt(t, StripFields(t, v.fields), step.key);
    hide Lookup, StripNode, StripFields, IsSource, IsFile;
  }

  /** Wherever dropping encoded data wrote nothing, the tree is what it was. */
  lemma {:induction false} StripLeavesTheRest(t: Texts, v: Json, path: seq<Step>)
    requires Measures(t) && Clear(v, path)
    ensures Alike(At(v, path), At(StripBase64(t, v), path))
    decreases |path|
  {
    if path == [] {
      if v.Arr? { StripItemAt(t, v.items, 0); }
    } else {
      StripChildAt(t, v, path[0]);
      var next := Child(v, path[0]);
      if next.Some? { StripLeavesTheRest(t, next.value, path[1..]); }
      hide Child, StripBase64, Written, Alike;
    }
  }

  /** Nowhere in the result is there a base64 source with data, or a file with base64. */
  lemma {:induction false} NothingEncodedIsLeft(t: Texts, v: Json, path: seq<Step>)
    requires Measures(t)
    ensures var w := At(StripBase64(t, v), path);
      w.Some? && w.value.Obj? ==>
        var fs := w.value.fields;
        (forall s :: Lookup(fs, Type) == Some(Str("base64")) && Lookup(fs, Data) == Some(Str(s)) ==> s == "") &&
        (forall s :: Lookup(fs, Base64) == Some(Str(s)) ==> s == "")
    decreases |path|
  {
    if path == [] {
      if v.Obj? { NodeIsEmptied(t, v.fields); }
    } else if Written(v, path[0]) {
      WrittenIsLeaf(t, v, path[0]);
      LeafEnds(Child(StripBase64(t, v), path[0]).value, path[1..]);
    } else {
      StripChildAt(t, v, path[0]);
      var next := Child(v, path[0]);
      if next.Some? { NothingEncodedIsLeft(t, next.value, path[1..]); }
    }
  }

  lemma LeafEnds(v: Json, path: seq<Step>)
    requires v.Str? || v.Num?
    ensures At(v, path) == if path == [] then Some(v) else None
  {}

  lemma NodeIsEmptied(t: Texts, fs: seq<Field>)
    requires Measures(t)
    ensures var w := StripBase64(t, Obj(fs)).fields; !IsSource(w) && !IsFile(w)
  {
    var stripped := StripFields(t, fs);
    StripNodeAt(t, stripped, Type);
    StripNodeAt(t, stripped, Data);
    StripNodeAt(t, stripped, Base64);
    hide Lookup, StripNode, StripFields, Held;
  }

  /** The object `w` for one with the fields `fs`: its encoded texts are empty, and it
      says how many bytes went. */
  predicate Emptied(t: Texts, fs: seq<Field>, w: Option<Json>) {
    var data, file := IsSource(fs), IsFile(fs);
    var went := (if data then Held(t, fs, Data) else 0) + if file then Held(t, fs, Base64) else 0;
    w.Some? && w.value.Obj? &&
    (data ==> Lookup(w.value.fields, Data) == Some(Str(""))) &&
    (file ==> Lookup(w.value.fields, Base64) == Some(Str(""))) &&
    (data || file ==> Lookup(w.value.fields, OmittedBytes) == Some(Num(t.digits(went))))
  }

  lemma EmptiedHere(t: Texts, fs: seq<Field>)
    requires Measures(t)
    ensures Emptied(t, fs, Some(StripBase64(t, Obj(fs))))
  {
    var stripped := StripFields(t, fs);
    StrippedSource(t, fs);
    StrippedHolds(t, fs, Data);
    StrippedHolds(t, fs, Base64);
    StripNodeAt(t, stripped, Data);
    StripNodeAt(t, stripped, Base64);
    StripNodeAt(t, stripped, OmittedBytes);
    hide Lookup, StripNode, StripFields, Measures;
  }

  /** And what was written there. */
  lemma {:induction false} EncodedIsEmptied(t: Texts, v: Json, path: seq<Step>)
    requires Measures(t) && Clear(v, path)
    ensures var x := At(v, path); x.Some? && x.value.Obj? ==> Emptied(t, x.value.fields, At(StripBase64(t, v), path))
    decreases |path|
  {
    hide Emptied, StripBase64, Written, Child, Measures;
    if path == [] {
      if v.Obj? { EmptiedHere(t, v.fields); }
    } else {
      StripChildAt(t, v, path[0]);
      var next := Child(v, path[0]);
      if next.Some? { EncodedIsEmptied(t, next.value, path[1..]); }
    }
  }

  // ---- long arrays -----------------------------------------------------------------------

  /** A path through the first hundred items of every array on it. */
  predicate Early(path: seq<Step>) { forall k :: 0 <= k < |path| && path[k].Item? ==> path[k].i < 100 }

  /** `w` for the array `v`: all of it, or its first hundred and how many went. */
  predicate HeadOf(t: Texts, v: Json, w: Json)
    requires v.Arr?
  {
    var n := |v.items|;
    w.Arr? && (n <= 100 ==> |w.items| == n) &&
    (n > 100 ==>
       |w.items| == 101 &&
       w.items[100] == Obj([Field(Type, Str("zwrm_omitted")), Field(OmittedItems, Num(t.digits(n - 100)))]))
  }

  lemma {:induction false} ShortenItemAt(t: Texts, items: seq<Json>, i: nat)
    ensures |ShortenItems(t, items)| == |items|
    ensures i < |items| ==> ShortenItems(t, items)[i] == ShortenArrays(t, items[i])
  {
    if items != [] { ShortenItemAt(t, items[1..], if i > 0 then i - 1 else 0); }
  }

  function ShortenChild(t: Texts, v: Option<Json>): Option<Json> {
    if v.Some? then Some(ShortenArrays(t, v.value)) else None
  }

  lemma {:induction false} ShortenFieldAt(t: Texts, fs: seq<Field>, key: Key)
    ensures Lookup(ShortenFields(t, fs), key) == ShortenChild(t, Lookup(fs, key))
  {
    if fs != [] {
      ShortenFieldAt(t, fs[1..], key);
      LookupFirst(ShortenField(t, fs[0]), ShortenFields(t, fs[1..]), key);
    }
  }

  lemma ShortenedArray(t: Texts, v: Json, i: nat)
    requires v.Arr?
    ensures HeadOf(t, v, ShortenArrays(t, v))
    ensures i < 100 ==> Child(ShortenArrays(t, v), Item(i)) == ShortenChild(t, Child(v, Item(i)))
  {
    var head := if |v.items| <= 100 then v.items else v.items[..100];
    ShortenItemAt(t, head, i);
  }

  lemma ShortenChildAt(t: Texts, v: Json, step: Step)
    requires step.Item? ==> step.i < 100
    ensures Child(ShortenArrays(t, v), step) == ShortenChild(t, Child(v, step))
  {
    if v.Arr? {
      ShortenedArray(t, v, if step.Item? then step.i else 0);
    } else if v.Obj? && step.Under? {
      ShortenFieldAt(t, v.fields, step.key);
    }
  }

  /** Within the first hundred items of its arrays a tree stays, and a longer array
      has one more that says how many went. */
  lemma {:induction false} HundredItemsStay(t: Texts, v: Json, path: seq<Step>)
    requires Early(path)
    ensures var a, b := At(v, path), At(ShortenArrays(t, v), path);
      if a.Some? && a.value.Arr? then b.Some? && HeadOf(t, a.value, b.value) else Alike(a, b)
    decreases |path|
  {
    if path == [] {
      if v.Arr? { ShortenedArray(t, v, 0); }
    } else {
      ShortenChildAt(t, v, path[0]);
      var next := Child(v, path[0]);
      assert Early(path[1..]);
      if next.Some? { HundredItemsStay(t, next.value, path[1..]); }
      hide Child, ShortenArrays, Alike, HeadOf, Early;
    }
  }

  // ---- long strings ----------------------------------------------------------------------

  lemma {:induction false} CutItemAt(t: Texts, items: seq<Json>, level: nat, i: nat)
    ensures |CutItems(t, items, level)| == |items|
    ensures i < |items| ==> CutItems(t, items, level)[i] == CutStrings(t, items[i], level)
  {
    if items != [] { CutItemAt(t, items[1..], level, if i > 0 then i - 1 else 0); }
  }

  function CutChild(t: Texts, v: Option<Json>, level: nat): Option<Json> {
    if v.Some? then Some(CutStrings(t, v.value, level)) else None
  }

  lemma {:induction false} CutFieldAt(t: Texts, fs: seq<Field>, level: nat, key: Key)
    ensures Lookup(CutFields(t, fs, level), key) == CutChild(t, Lookup(fs, key), level)
  {
    if fs != [] {
      CutFieldAt(t, fs[1..], level, key);
      LookupFirst(CutField(t, fs[0], level), CutFields(t, fs[1..], level), key);
    }
  }

  lemma CutChildAt(t: Texts, v: Json, level: nat, step: Step)
    ensures Child(CutStrings(t, v, level), step) == CutChild(t, Child(v, step), level)
  {
    if v.Arr? {
      CutItemAt(t, v.items, level, if step.Item? then step.i else 0);
    } else if v.Obj? && step.Under? {
      CutFieldAt(t, v.fields, level, step.key);
    }
  }

  function Share(level: nat, bytes: nat, json: nat): nat
    requires json > 0
  {
    level * bytes / json
  }

  lemma ShareIsLess(level: nat, bytes: nat, json: nat)
    requires level < json && bytes > 0
    ensures Share(level, bytes, json) < bytes
  {
    CutLevel.FloorFits(level * bytes, json, bytes);
    assert (json - level) * bytes > 0;
    assert json * bytes == level * bytes + (json - level) * bytes;
  }

  /** Exactly the strings whose JSON is over the level are cut, each to as many of its
      bytes as the level is of its JSON, which is fewer than it has; all else stays. */
  lemma {:induction false} OnlyLongStringsAreCut(t: Texts, v: Json, level: nat, path: seq<Step>)
    requires Measures(t)
    ensures var a, b := At(v, path), At(CutStrings(t, v, level), path);
      if a.Some? && a.value.Str? && t.json(a.value.s) > level then
        var s := a.value.s;
        var bytes := Share(level, t.raw(s), t.json(s));
        bytes < t.raw(s) && b == Some(Str(t.cut(s, bytes)))
      else Alike(a, b)
    decreases |path|
  {
    if path == [] {
      if v.Arr? { CutItemAt(t, v.items, level, 0); }
      if v.Str? && t.json(v.s) > level { ShareIsLess(level, t.raw(v.s), t.json(v.s)); }
    } else {
      CutChildAt(t, v, level, path[0]);
      var next := Child(v, path[0]);
      if next.Some? { OnlyLongStringsAreCut(t, next.value, level, path[1..]); }
      hide Child, CutStrings, Alike;
    }
  }

  // ---- the result --------------------------------------------------------------------------

  /** A scalar, or a string of at most 256 bytes of JSON. */
  predicate Short(t: Texts, x: Json) { x.Null? || x.Bool? || x.Num? || (x.Str? && t.json(x.s) <= 256) }

  predicate Has(v: Json, path: seq<Step>, x: Json) { v.Obj? && At(v, path) == Some(x) }

  /** A path that enters none of the fields the steps write at the top. */
  predicate Inward(path: seq<Step>) {
    path != [] && path[0] != Under(ToolUseResult) && path[0] != Under(ZwrmTruncated)
  }

  lemma WithElsewhere(v: Json, key: Key, y: Json, path: seq<Step>, x: Json)
    requires Has(v, path, x) && path != [] && path[0] != Under(key)
    ensures Has(Obj(With(v.fields, key, y)), path, x)
  {
    if path[0].Under? { WithHas(v.fields, key, y, path[0].key); }
    hide Lookup, With;
  }

  lemma MarkedElsewhere(t: Texts, v: Json, original: nat, path: seq<Step>, x: Json)
    requires Has(v, path, x) && path != [] && path[0] != Under(ZwrmTruncated)
    ensures Has(Marked(t, v, original), path, x)
  {
    WithElsewhere(v, ZwrmTruncated, Bool(true), path, x);
    hide At, With;
  }

  /** No level from 256 on changes what is there. */
  ghost predicate Uncut(t: Texts, base: Json, path: seq<Step>, x: Json) {
    base.Obj? && forall level: nat :: level >= 256 ==> Has(CutStrings(t, base, level), path, x)
  }

  lemma ShortIsUncut(t: Texts, v: Json, path: seq<Step>, x: Json)
    requires Measures(t) && Has(v, path, x) && Short(t, x)
    ensures Uncut(t, v, path, x)
  {
    forall level: nat | level >= 256 ensures Has(CutStrings(t, v, level), path, x) {
      OnlyLongStringsAreCut(t, v, level, path);
      hide At, Measures;
    }
    hide Has, Short, CutStrings, Measures;
  }

  lemma BaseLeavesShort(t: Texts, payload: Json, max: nat, path: seq<Step>, x: Json)
    requires Measures(t) && Has(payload, path, x) && Short(t, x)
    requires Clear(payload, path) && Early(path) && Inward(path)
    ensures Has(Base(t, payload, max), path, x)
  {
    var original := Size(t, payload);
    var base := StripBase64(t, payload);
    StripLeavesTheRest(t, payload, path);
    assert Has(base, path, x) by { hide At, Clear, Measures; }
    var output := Lookup(payload.fields, ToolUseResult);
    var omitted := OmittedOutput(t, output.GetOr(Null));
    WithElsewhere(base, ToolUseResult, omitted, path, x);
    var base2 :=
      if output.Some? && Size(t, Marked(t, base, original)) > max then Obj(With(base.fields, ToolUseResult, omitted))
      else base;
    HundredItemsStay(t, base2, path);
    assert Has(ShortenArrays(t, base2), path, x) by { hide At, Clear, Measures, With, Size, Marked; }
    hide Has, Clear, Measures, Size, Lookup, With, StripBase64, ShortenArrays, Marked;
  }

  lemma {:induction false} LoopLeavesUncut(
    t: Texts, base: Json, original: nat, max: nat, sizes: seq<nat>, need: int, tries: nat, out: Json,
    path: seq<Step>, x: Json)
    requires Uncut(t, base, path, x) && Has(out, path, x) && path != [] && path[0] != Under(ZwrmTruncated)
    ensures Has(CutLoop(t, base, original, max, sizes, need, tries, out), path, x)
    decreases tries
  {
    if tries > 0 && Size(t, out) > max && sizes != [] {
      var found := CutLevel.LevelFrom(sizes, need, 1);
      var level := if found < MIN_STRING_BYTES then MIN_STRING_BYTES else found;
      var cut := CutStrings(t, base, level);
      assert Has(cut, path, x);
      MarkedElsewhere(t, cut, original, path, x);
      var next := Marked(t, cut, original);
      LoopLeavesUncut(t, base, original, max, sizes, need + Size(t, next) - max, tries - 1, next, path, x);
      hide Has, CutStrings, Size, CutLevel.LevelFrom, Marked;
    }
  }

  lemma ResultLeavesUncut(t: Texts, payload: Json, max: nat, path: seq<Step>, x: Json)
    requires Has(Base(t, payload, max), path, x) && Uncut(t, Base(t, payload, max), path, x)
    requires path != [] && path[0] != Under(ZwrmTruncated) && Size(t, payload) > max
    ensures var out := Bound(t, payload, max);
      Has(out, path, x) || out == SkeletonOnly(t, payload) || out == Bare(t, Size(t, payload))
  {
    hide Has, Size, Base, Marked, CutLoop, SkeletonOnly, Bare, Uncut, Sorted, StringSizes;
    var base := Base(t, payload, max);
    var out, sizes := Marked(t, base, Size(t, payload)), Sorted(StringSizes(t, base));
    MarkedElsewhere(t, base, Size(t, payload), path, x);
    LoopLeavesUncut(t, base, Size(t, payload), max, sizes, Size(t, out) - max, 4, out, path, x);
  }

  /** Short of the skeleton every scalar and every string of at most 256 bytes of JSON
      is still in its place, but for what the encoded data, the tool output and the
      items after the first hundred of an array held. */
  lemma ShortTextsStay(t: Texts, payload: Json, max: nat, path: seq<Step>, x: Json)
    requires Measures(t) && payload.Obj? && At(payload, path) == Some(x) && Short(t, x)
    requires Clear(payload, path) && Early(path) && Inward(path)
    ensures var out := Bound(t, payload, max);
      At(out, path) == Some(x) || out == SkeletonOnly(t, payload) || out == Bare(t, Size(t, payload))
  {
    if Size(t, payload) > max {
      BaseLeavesShort(t, payload, max, path, x);
      ShortIsUncut(t, Base(t, payload, max), path, x);
      ResultLeavesUncut(t, payload, max, path, x);
      hide Size, Base, SkeletonOnly, Bare, Short, Clear, Measures, Bound, At, Early;
    }
    hide Size, SkeletonOnly, Bare, Shrunk, At;
  }

  function SizeOnly(t: Texts, size: nat): Json {
    Obj([Field(ZwrmOmitted, Bool(true)), Field(OriginalBytes, Num(t.digits(size)))])
  }

  lemma SizeOnlyStays(t: Texts, size: nat, level: nat)
    ensures ShortenArrays(t, SizeOnly(t, size)) == SizeOnly(t, size)
    ensures CutStrings(t, SizeOnly(t, size), level) == SizeOnly(t, size)
  {
    var fs := SizeOnly(t, size).fields;
    assert ShortenFields(t, fs) == [ShortenField(t, fs[0])] + [ShortenField(t, fs[1])] + ShortenFields(t, fs[2..]);
    assert CutFields(t, fs, level) == [CutField(t, fs[0], level)] + [CutField(t, fs[1], level)] + CutFields(t, fs[2..], level);
  }

  lemma ShortenLeavesOutput(t: Texts, fs: seq<Field>, size: nat)
    ensures var base := Obj(With(fs, ToolUseResult, SizeOnly(t, size)));
      Has(base, [Under(ToolUseResult)], SizeOnly(t, size)) &&
      Has(ShortenArrays(t, base), [Under(ToolUseResult)], SizeOnly(t, size))
  {
    WithHas(fs, ToolUseResult, SizeOnly(t, size), ToolUseResult);
    SizeOnlyStays(t, size, 0);
    hide SizeOnly, Lookup, With, ShortenFields;
    ShortenFieldAt(t, With(fs, ToolUseResult, SizeOnly(t, size)), ToolUseResult);
  }

  lemma BaseOmitsOutput(t: Texts, payload: Json, max: nat)
    requires payload.Obj? && Lookup(payload.fields, ToolUseResult).Some?
    requires Size(t, Marked(t, StripBase64(t, payload), Size(t, payload))) > max
    ensures Has(Base(t, payload, max), [Under(ToolUseResult)],
              SizeOnly(t, Size(t, Lookup(payload.fields, ToolUseResult).value)))
  {
    hide Size, Lookup, With, StripNode, StripFields, Marked, Has, ShortenArrays;
    var output := Lookup(payload.fields, ToolUseResult).value;
    ShortenLeavesOutput(t, StripBase64(t, payload).fields, Size(t, output));
    assert OmittedOutput(t, output) == SizeOnly(t, Size(t, output));
  }

  /** Where dropping the encoded data is not enough, of the tool output only its size is
      left, whatever else goes. */
  lemma OutputGoesFirst(t: Texts, payload: Json, max: nat)
    requires payload.Obj? && Lookup(payload.fields, ToolUseResult).Some? && Size(t, payload) > max
    requires Size(t, Marked(t, StripBase64(t, payload), Size(t, payload))) > max
    ensures var out, output := Bound(t, payload, max), Lookup(payload.fields, ToolUseResult).value;
      out == SkeletonOnly(t, payload) || out == Bare(t, Size(t, payload)) ||
      At(out, [Under(ToolUseResult)]) == Some(SizeOnly(t, Size(t, output)))
  {
    var base, size := Base(t, payload, max), Size(t, Lookup(payload.fields, ToolUseResult).value);
    var path := [Under(ToolUseResult)];
    BaseOmitsOutput(t, payload, max);
    forall level: nat | level >= 256 ensures Has(CutStrings(t, base, level), path, SizeOnly(t, size)) {
      CutFieldAt(t, base.fields, level, ToolUseResult);
      SizeOnlyStays(t, size, level);
      hide Base, Size, Lookup, SizeOnly, CutFields;
    }
    ResultLeavesUncut(t, payload, max, path, SizeOnly(t, size));
    hide Size, Base, SkeletonOnly, Bare, Bound, Has, SizeOnly, Lookup, CutStrings;
  }
}
