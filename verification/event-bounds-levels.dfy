/**
 What a payload's size is, which strings are cut and to which level: the sizes are those
 of the JSON text, and each round of cutting asks for what the rounds before left over.
 */
module EventBoundsLevels {
  import opened Wrappers
  import opened EventBounds
  import opened EventBoundsSteps
  import CutLevel

  // ---- sizes ------------------------------------------------------------------------------------

  /** The JSON text of a tree, given that of strings and keys. */
  function Written(quote: string -> string, name: Key -> string, v: Json): string
    decreases v
  {
    match v
    case Null => "null"
    case Bool(b) => if b then "true" else "false"
    case Num(digits) => digits
    case Str(s) => quote(s)
    case Arr(items) => "[" + WrittenItems(quote, name, items) + "]"
    case Obj(fields) => "{" + WrittenFields(quote, name, fields) + "}"
  }

  function WrittenItems(quote: string -> string, name: Key -> string, items: seq<Json>): string
    decreases items
  {
    if items == [] then ""
    else if |items| == 1 then Written(quote, name, items[0])
    else Written(quote, name, items[0]) + "," + WrittenItems(quote, name, items[1..])
  }

  function WrittenField(quote: string -> string, name: Key -> string, f: Field): string
    decreases f
  {
    name(f.key) + ":" + Written(quote, name, f.value)
  }

  function WrittenFields(quote: string -> string, name: Key -> string, fs: seq<Field>): string
    decreases fs
  {
    if fs == [] then ""
    else if |fs| == 1 then WrittenField(quote, name, fs[0])
    else WrittenField(quote, name, fs[0]) + "," + WrittenFields(quote, name, fs[1..])
  }

  /** The byte counts are those of the texts, quotes aside. */
  ghost predicate Counted(t: Texts, quote: string -> string, name: Key -> string) {
    (forall s :: |quote(s)| == t.json(s) + 2) && forall k :: |name(k)| == t.key(k) + 2
  }

  /** A size is the length of the JSON text. */
  lemma {:induction false} SizeIsLength(t: Texts, quote: string -> string, name: Key -> string, v: Json)
    requires Counted(t, quote, name)
    ensures Size(t, v) == |Written(quote, name, v)|
    decreases v
  {
    match v
    case Arr(items) => ItemsLength(t, quote, name, items);
    case Obj(fields) => FieldsLength(t, quote, name, fields);
    case _ =>
  }

  lemma {:induction false} ItemsLength(t: Texts, quote: string -> string, name: Key -> string, items: seq<Json>)
    requires Counted(t, quote, name)
    ensures ItemsSize(t, items) == |WrittenItems(quote, name, items)|
    decreases items
  {
    if items != [] {
      SizeIsLength(t, quote, name, items[0]);
      ItemsLength(t, quote, name, items[1..]);
      if |items| == 1 { assert items[1..] == []; }
      hide Size, Written;
    }
  }

  lemma {:induction false} FieldsLength(t: Texts, quote: string -> string, name: Key -> string, fs: seq<Field>)
    requires Counted(t, quote, name)
    ensures FieldsSize(t, fs) == |WrittenFields(quote, name, fs)|
    decreases fs
  {
    if fs != [] {
      FieldLength(t, quote, name, fs[0]);
      FieldsLength(t, quote, name, fs[1..]);
      if |fs| == 1 { assert fs[1..] == []; }
      hide FieldSize, WrittenField;
    }
  }

  lemma {:induction false} FieldLength(t: Texts, quote: string -> string, name: Key -> string, f: Field)
    requires Counted(t, quote, name)
    ensures FieldSize(t, f) == |WrittenField(quote, name, f)|
    decreases f
  {
    SizeIsLength(t, quote, name, f.value);
  }

  // ---- the strings that may be cut ------------------------------------------------------------------

  /** The strings of a tree, in order. */
  function Strings(v: Json): seq<string>
    decreases v
  {
    match v
    case Str(s) => [s]
    case Arr(items) => ItemsStrings(items)
    case Obj(fields) => FieldsStrings(fields)
    case _ => []
  }

  function ItemsStrings(items: seq<Json>): seq<string>
    decreases items
  {
    if items == [] then [] else Strings(items[0]) + ItemsStrings(items[1..])
  }

  function FieldStrings(f: Field): seq<string>
    decreases f
  {
    Strings(f.value)
  }

  function FieldsStrings(fs: seq<Field>): seq<string>
    decreases fs
  {
    if fs == [] then [] else FieldStrings(fs[0]) + FieldsStrings(fs[1..])
  }

  /** The JSON sizes of those of more than 256 bytes. */
  function LongOf(t: Texts, strings: seq<string>): seq<nat> {
    if strings == [] then []
    else (if t.json(strings[0]) > 256 then [t.json(strings[0])] else []) + LongOf(t, strings[1..])
  }

  lemma {:induction false} LongConcat(t: Texts, a: seq<string>, b: seq<string>)
    ensures LongOf(t, a + b) == LongOf(t, a) + LongOf(t, b)
  {
    if a == [] {
      assert a + b == b;
    } else {
      assert (a + b)[1..] == a[1..] + b;
      LongConcat(t, a[1..], b);
    }
  }

  /** What the level is chosen from: each string over 256 bytes of JSON, by its size there. */
  lemma {:induction false} SizesAreOfLongStrings(t: Texts, v: Json)
    requires Measures(t)
    ensures StringSizes(t, v) == LongOf(t, Strings(v))
    decreases v
  {
    match v
    case Str(s) =>
      assert t.json(s) <= 6 * |s|;
      assert [s][1..] == [];
    case Arr(items) => ItemsSizes(t, items);
    case Obj(fields) => FieldsSizes(t, fields);
    case _ =>
  }

  lemma {:induction false} ItemsSizes(t: Texts, items: seq<Json>)
    requires Measures(t)
    ensures ItemsStringSizes(t, items) == LongOf(t, ItemsStrings(items))
    decreases items
  {
    if items != [] {
      SizesAreOfLongStrings(t, items[0]);
      ItemsSizes(t, items[1..]);
      LongConcat(t, Strings(items[0]), ItemsStrings(items[1..]));
      hide Measures, StringSizes, Strings, LongOf;
    }
  }

  lemma {:induction false} FieldsSizes(t: Texts, fs: seq<Field>)
    requires Measures(t)
    ensures FieldsStringSizes(t, fs) == LongOf(t, FieldsStrings(fs))
    decreases fs
  {
    if fs != [] {
      FieldSizes(t, fs[0]);
      FieldsSizes(t, fs[1..]);
      LongConcat(t, FieldStrings(fs[0]), FieldsStrings(fs[1..]));
      hide Measures, FieldStringSizes, FieldStrings, LongOf;
    }
  }

  lemma {:induction false} FieldSizes(t: Texts, f: Field)
    requires Measures(t)
    ensures FieldStringSizes(t, f) == LongOf(t, FieldStrings(f))
    decreases f
  {
    SizesAreOfLongStrings(t, f.value);
  }

  // ---- the rounds of cutting --------------------------------------------------------------------------

  /** The level found for a need, never under 256. */
  function Level(sizes: seq<nat>, need: int): nat {
    var found := CutLevel.LevelFrom(sizes, need, 1);
    if found > 256 then found else 256
  }

  function CutFor(t: Texts, base: Json, original: nat, sizes: seq<nat>, need: int): Json {
    Marked(t, CutStrings(t, base, Level(sizes, need)), original)
  }

  /** What round `i` needs to save: what the first does, and all that the rounds before it
      were over by. */
  function Need(t: Texts, base: Json, original: nat, max: nat, sizes: seq<nat>, first: int, i: nat): int {
    if i == 0 then first
    else
      var need := Need(t, base, original, max, sizes, first, i - 1);
      need + Size(t, CutFor(t, base, original, sizes, need)) - max
  }

  lemma {:induction false} NeedsShift(
    t: Texts, base: Json, original: nat, max: nat, sizes: seq<nat>, first: int, i: nat)
    ensures Need(t, base, original, max, sizes, Need(t, base, original, max, sizes, first, 1), i) ==
      Need(t, base, original, max, sizes, first, i + 1)
  {
    if i > 0 { NeedsShift(t, base, original, max, sizes, first, i - 1); }
    hide Size, CutFor;
  }

  /** Round `i` neither fits nor goes down to 256. */
  predicate GoesOn(t: Texts, base: Json, original: nat, max: nat, sizes: seq<nat>, first: int, i: nat) {
    var need := Need(t, base, original, max, sizes, first, i);
    Size(t, CutFor(t, base, original, sizes, need)) > max && Level(sizes, need) > 256
  }

  /** Round `j` is the last of `tries`, or the first that fits or goes down to 256. */
  predicate LastRound(
    t: Texts, base: Json, original: nat, max: nat, sizes: seq<nat>, first: int, tries: nat, j: nat)
  {
    && j < tries && (forall i: nat :: i < j ==> GoesOn(t, base, original, max, sizes, first, i))
    && (j == tries - 1 || !GoesOn(t, base, original, max, sizes, first, j))
  }

  lemma RoundsShift(t: Texts, base: Json, original: nat, max: nat, sizes: seq<nat>, first: int, i: nat)
    ensures var later := Need(t, base, original, max, sizes, first, 1);
      GoesOn(t, base, original, max, sizes, later, i) == GoesOn(t, base, original, max, sizes, first, i + 1)
  {
    NeedsShift(t, base, original, max, sizes, first, i);
    hide Need, CutFor, Level, Size;
  }

  lemma {:induction false} LoopEndsAt(
    t: Texts, base: Json, original: nat, max: nat, sizes: seq<nat>, need: int, tries: nat, out: Json) returns (j: nat)
    requires Size(t, out) > max && sizes != [] && tries > 0
    ensures LastRound(t, base, original, max, sizes, need, tries, j)
    ensures CutLoop(t, base, original, max, sizes, need, tries, out) ==
      CutFor(t, base, original, sizes, Need(t, base, original, max, sizes, need, j))
    decreases tries
  {
    hide Size, Marked, CutStrings, CutLevel.LevelFrom;
    var next := CutFor(t, base, original, sizes, need);
    assert next == Marked(t, CutStrings(t, base, Level(sizes, need)), original);
    var later := Need(t, base, original, max, sizes, need, 1);
    assert Need(t, base, original, max, sizes, need, 0) == need;
    assert later == need + Size(t, next) - max;
    if Level(sizes, need) == 256 || tries == 1 || Size(t, next) <= max {
      j := 0;
    } else {
      var k := LoopEndsAt(t, base, original, max, sizes, later, tries - 1, next);
      j := k + 1;
      NeedsShift(t, base, original, max, sizes, need, k);
      assert GoesOn(t, base, original, max, sizes, need, 0);
      hide CutLoop, Need, CutFor, Level, GoesOn;
      forall i: nat | i < j ensures GoesOn(t, base, original, max, sizes, need, i) {
        if i > 0 { RoundsShift(t, base, original, max, sizes, need, i - 1); }
      }
      RoundsShift(t, base, original, max, sizes, need, k);
    }
  }

  /** A payload still over the cap before any string is cut: it is cut, from the uncut
      strings, to the level of the first of at most four rounds that fits or goes down to
      256, the need of each being all the rounds before were over by. */
  lemma CutsToTheLevel(t: Texts, payload: Json, max: nat) returns (j: nat)
    requires Size(t, Marked(t, Base(t, payload, max), Size(t, payload))) > max
    ensures var base, original := Base(t, payload, max), Size(t, payload);
      var sizes, first := Sorted(StringSizes(t, base)), Size(t, Marked(t, base, original)) - max;
      if sizes == [] then Shrunk(t, payload, max) == Marked(t, base, original)
      else
        && LastRound(t, base, original, max, sizes, first, 4, j)
        && Shrunk(t, payload, max) == CutFor(t, base, original, sizes, Need(t, base, original, max, sizes, first, j))
  {
    hide Size, Marked, Base, Sorted, StringSizes, LastRound, CutFor, Need;
    var base, original := Base(t, payload, max), Size(t, payload);
    var sizes, out := Sorted(StringSizes(t, base)), Marked(t, base, original);
    j := 0;
    if sizes != [] { j := LoopEndsAt(t, base, original, max, sizes, Size(t, out) - max, 4, out); }
  }

  /** What fits after that is the result; else the skeleton if it fits; else the bare mark. */
  lemma LastResorts(t: Texts, payload: Json, max: nat)
    requires Size(t, payload) > max
    ensures var out := Shrunk(t, payload, max);
      Bound(t, payload, max) ==
        if Size(t, out) > max && Size(t, SkeletonOnly(t, payload)) > max then Bare(t, Size(t, payload))
        else if Size(t, out) > max then SkeletonOnly(t, payload)
        else out
  {
    hide Size, Shrunk, SkeletonOnly, Bare;
  }
}
