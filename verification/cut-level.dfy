/**
 `cutLevel` of `agent-base/agentd/event-bounds.mjs`: the length the largest
 strings of an event are cut to.
 */
module CutLevel {
  const MARKER_BYTES := 32

  predicate Descending(sizes: seq<nat>) { forall i, j :: 0 <= i < j < |sizes| ==> sizes[i] >= sizes[j] }

  function Sum(sizes: seq<nat>): nat {
    if sizes == [] then 0 else Sum(sizes[..|sizes| - 1]) + sizes[|sizes| - 1]
  }

  /** What cutting every string over `level` to it saves, with one marker paid for each. */
  function Savings(sizes: seq<nat>, level: int): int {
    if sizes == [] then 0
    else
      var last := sizes[|sizes| - 1];
      Savings(sizes[..|sizes| - 1], level) + if last > level then last - level - MARKER_BYTES else 0
  }

  /** How many strings a level cuts. */
  function Cut(sizes: seq<nat>, level: int): nat {
    if sizes == [] then 0 else Cut(sizes[..|sizes| - 1], level) + if sizes[|sizes| - 1] > level then 1 else 0
  }

  /** `level` is exceeded by exactly the first `k` sizes. */
  predicate ExceededBy(sizes: seq<nat>, level: int, k: nat) {
    k <= |sizes| && (forall i :: 0 <= i < k ==> sizes[i] > level) && (forall i :: k <= i < |sizes| ==> sizes[i] <= level)
  }

  /** Cutting the strings over a level to it saves what they are longer, less 32 bytes
      of marker for each. */
  lemma {:induction false} SavingsOfFirst(sizes: seq<nat>, level: int, k: nat)
    requires ExceededBy(sizes, level, k)
    ensures Savings(sizes, level) == Sum(sizes[..k]) - k * level - k * 32
    ensures Cut(sizes, level) == k
  {
    if sizes != [] {
      var init, last := sizes[..|sizes| - 1], sizes[|sizes| - 1];
      if k == |sizes| {
        SavingsOfFirst(init, level, k - 1);
        assert init[..k - 1] == init && sizes[..k] == sizes;
        assert (k - 1) * level == k * level - level;
      } else {
        SavingsOfFirst(init, level, k);
        assert init[..k] == sizes[..k];
      }
    } else {
      assert sizes[..k] == [];
    }
  }

  /** The level `k` strings could be cut to, were they the ones to cut. */
  function LevelOf(sizes: seq<nat>, need: int, k: nat): int
    requires 0 < k <= |sizes|
  {
    (Sum(sizes[..k]) - need - k * MARKER_BYTES) / k
  }

  lemma FloorFits(x: int, k: nat, level: int)
    requires k > 0
    ensures level <= x / k <==> k * level <= x
  {
    if level <= x / k { assert k * level <= k * (x / k) <= x; }
    else { assert k * level >= k * (x / k + 1) == k * (x / k) + k > x; }
  }

  /** A level saves enough by cutting the first `k` strings exactly if it is at most `LevelOf`. */
  lemma FirstSave(sizes: seq<nat>, need: int, k: nat, level: int)
    requires 0 < k && ExceededBy(sizes, level, k)
    ensures Savings(sizes, level) >= need <==> level <= LevelOf(sizes, need, k)
  {
    SavingsOfFirst(sizes, level, k);
    FloorFits(Sum(sizes[..k]) - need - k * MARKER_BYTES, k, level);
  }

  /** The original goes on from step `k`: what step `k` would take leaves a longer string uncut. */
  predicate GoesOn(sizes: seq<nat>, need: int, k: nat)
    requires 0 < k <= |sizes|
  {
    LevelOf(sizes, need, k) < if k < |sizes| then sizes[k] else 0
  }

  lemma {:induction false} HowMany(sizes: seq<nat>, level: int) returns (k: nat)
    requires Descending(sizes)
    ensures ExceededBy(sizes, level, k)
  {
    k := 0;
    while k < |sizes| && sizes[k] > level
      invariant k <= |sizes| && forall i :: 0 <= i < k ==> sizes[i] > level
    {
      k := k + 1;
    }
  }

  /** Where all steps below `top` went on, no level that cuts fewer than `top` strings saves enough. */
  lemma {:induction false} TooFewCut(sizes: seq<nat>, need: int, top: nat, level: nat, j: nat)
    requires need > 0 && top <= |sizes| && ExceededBy(sizes, level, j)
    requires forall i :: 0 < i < top ==> GoesOn(sizes, need, i)
    requires j < top || (j == top == |sizes| && (j > 0 ==> GoesOn(sizes, need, j)))
    ensures Savings(sizes, level) < need
  {
    if j == 0 { SavingsOfFirst(sizes, level, 0); assert sizes[..0] == []; }
    else {
      FirstSave(sizes, need, j, level);
      assert GoesOn(sizes, need, j);
    }
  }

  /** One more string, longer than the level the strings before it could be cut
      to, is also longer than the level of all of them. */
  lemma StillLonger(sum: int, last: int, need: int, k: nat)
    requires need > 0 && k > 0 && (k == 1 ==> sum == 0)
    requires k > 1 ==> (sum - need - (k - 1) * MARKER_BYTES) / (k - 1) < last
    ensures (sum + last - need - k * MARKER_BYTES) / k < last
  {
    FloorFits(sum + last - need - k * MARKER_BYTES, k, last);
    if k > 1 { FloorFits(sum - need - (k - 1) * MARKER_BYTES, k - 1, last); }
    assert (k - 1) * last == k * last - last;
  }

  /** The first step that does not go on cuts exactly its strings. */
  lemma {:induction false} StepCutsItsOwn(sizes: seq<nat>, need: int, k: nat)
    requires Descending(sizes) && need > 0 && 0 < k <= |sizes| && !GoesOn(sizes, need, k)
    requires k > 1 ==> GoesOn(sizes, need, k - 1)
    ensures ExceededBy(sizes, LevelOf(sizes, need, k), k)
  {
    hide Savings, Cut;
    assert sizes[..k][..k - 1] == sizes[..k - 1];
    assert Sum(sizes[..k]) == Sum(sizes[..k - 1]) + sizes[k - 1];
    if k == 1 { assert sizes[..0] == []; }
    StillLonger(Sum(sizes[..k - 1]), sizes[k - 1], need, k);
  }

  /** A level is right when it saves enough and no higher one does; without any
      that does, even cutting every string to nothing is not enough, and it is 0. */
  ghost predicate IsCutLevel(sizes: seq<nat>, need: int, level: nat) {
    && (forall m: nat :: m > level ==> Savings(sizes, m) < need)
    && (Savings(sizes, level) < need ==> level == 0 && forall m: nat :: Savings(sizes, m) < need)
  }

  /** The level the original finds, from step `k` on. */
  function LevelFrom(sizes: seq<nat>, need: int, k: nat): (level: nat)
    requires 0 < k <= |sizes| + 1
    decreases |sizes| - k
  {
    if k > |sizes| then 0 else if GoesOn(sizes, need, k) then LevelFrom(sizes, need, k + 1) else LevelOf(sizes, need, k)
  }

  method FindCutLevel(sizes: seq<nat>, need: int) returns (level: nat)
    requires Descending(sizes) && need > 0
    ensures level == LevelFrom(sizes, need, 1)
    ensures IsCutLevel(sizes, need, level)
    ensures Savings(sizes, level) >= need ==>
      exists k :: 0 < k <= |sizes| && ExceededBy(sizes, level, k) && level == LevelOf(sizes, need, k)
  {
    hide Savings, Cut;
    var sum := 0;
    var k := 1;
    while k <= |sizes|
      invariant 1 <= k <= |sizes| + 1 && sum == Sum(sizes[..k - 1])
      invariant forall i :: 0 < i < k ==> GoesOn(sizes, need, i)
      invariant LevelFrom(sizes, need, k) == LevelFrom(sizes, need, 1)
    {
      assert sizes[..k][..k - 1] == sizes[..k - 1];
      sum := sum + sizes[k - 1];
      var l := (sum - need - k * MARKER_BYTES) / k;
      if l >= if k < |sizes| then sizes[k] else 0 {
        StepCutsItsOwn(sizes, need, k);
        FirstSave(sizes, need, k, l);
        forall m: nat | m > l ensures Savings(sizes, m) < need { HigherFails(sizes, need, k, m); }
        return l;
      }
      k := k + 1;
    }
    forall m: nat ensures Savings(sizes, m) < need {
      var j := HowMany(sizes, m);
      TooFewCut(sizes, need, |sizes|, m, j);
    }
    return 0;
  }

  lemma HigherFails(sizes: seq<nat>, need: int, k: nat, m: nat)
    requires Descending(sizes) && need > 0 && 0 < k <= |sizes| && ExceededBy(sizes, LevelOf(sizes, need, k), k)
    requires m > LevelOf(sizes, need, k) && forall i :: 0 < i < k ==> GoesOn(sizes, need, i)
    ensures Savings(sizes, m) < need
  {
    var j := HowMany(sizes, m);
    if j < k { TooFewCut(sizes, need, k, m, j); } else { FirstSave(sizes, need, j, m); }
  }

  lemma {:induction false} CutFalls(sizes: seq<nat>, low: int, high: int)
    requires low <= high
    ensures Cut(sizes, high) <= Cut(sizes, low)
  {
    if sizes != [] { CutFalls(sizes[..|sizes| - 1], low, high); }
  }

  /** So it is the one level that cuts as few strings as any that saves enough, and each by as little. */
  lemma CutsFewest(sizes: seq<nat>, need: int, level: nat, other: nat)
    requires IsCutLevel(sizes, need, level) && Savings(sizes, other) >= need
    ensures Savings(sizes, level) >= need && other <= level && Cut(sizes, level) <= Cut(sizes, other)
    ensures IsCutLevel(sizes, need, other) ==> other == level
  {
    CutFalls(sizes, other, level);
  }
}
