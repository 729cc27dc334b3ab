/**
 The reverse scan is an undo stack. `replayCheckpoint` walks a rollout backwards
 with a counter of turns still to skip; here the same record list is read
 forwards as turns that are pushed and rollbacks that pop them.
 */
module CodexRolloutUndo {
  import opened Wrappers
  import opened CodexRollout

  /** A turn segment of the rollout, with its newest readable compaction or -1,
      or a rollback of so many user turns. */
  datatype Token = Turn(user: bool, checkpoint: int) | Undo(turns: nat)

  /** Popping `n` user turns takes the other turns above them too. */
  function Pop(stack: seq<Token>, n: nat): seq<Token> {
    if n == 0 || stack == [] then stack
    else
      var top := stack[|stack| - 1];
      Pop(stack[..|stack| - 1], if top.Turn? && top.user then n - 1 else n)
  }

  /** The turns left standing once the tokens have been read in order. */
  function Standing(tokens: seq<Token>): seq<Token> {
    if tokens == [] then []
    else
      var before, last := Standing(tokens[..|tokens| - 1]), tokens[|tokens| - 1];
      if last.Turn? then before + [last] else Pop(before, last.turns)
  }

  /** The newest compaction on a stack. */
  function Newest(stack: seq<Token>): int {
    if stack == [] then -1
    else
      var top := stack[|stack| - 1];
      if top.Turn? && top.checkpoint >= 0 then top.checkpoint else Newest(stack[..|stack| - 1])
  }

  /** The segments and rollbacks of `records[..hi]` in order, given the segment
      already open to the right of it. */
  function Tokens(records: seq<Record>, hi: nat, seg: Option<Segment>): seq<Token>
    requires hi <= |records|
  {
    if hi == 0 then AsToken(seg)
    else
      var r := records[hi - 1];
      if Closes(seg, r) then Tokens(records, hi - 1, None) + AsToken(seg)
      else
        Tokens(records, hi - 1, Absorb(seg, r, hi - 1)) + if Rollbacks(r) > 0 then [Undo(Rollbacks(r))] else []
  }

  function AsToken(seg: Option<Segment>): seq<Token> {
    if seg.None? then [] else [Turn(seg.value.userTurn, seg.value.checkpoint)]
  }

  lemma {:induction false} PopTwice(stack: seq<Token>, m: nat, n: nat)
    ensures Pop(Pop(stack, m), n) == Pop(stack, m + n)
  {
    if m > 0 && stack != [] {
      var top := stack[|stack| - 1];
      PopTwice(stack[..|stack| - 1], if top.Turn? && top.user then m - 1 else m, n);
    }
  }

  lemma {:induction false} StandingAfter(tokens: seq<Token>, t: Token)
    ensures Standing(tokens + [t]) == if t.Turn? then Standing(tokens) + [t] else Pop(Standing(tokens), t.turns)
  {
    assert (tokens + [t])[..|tokens|] == tokens;
  }

  lemma {:induction false} NewestAfter(stack: seq<Token>, t: Token, k: nat)
    requires t.Turn?
    ensures Pop(stack + [t], k) == if k == 0 then stack + [t] else Pop(stack, if t.user then k - 1 else k)
    ensures Newest(stack + [t]) == if t.checkpoint >= 0 then t.checkpoint else Newest(stack)
  {
    assert (stack + [t])[..|stack|] == stack;
  }

  lemma {:induction false} FoundStays(records: seq<Record>, hi: nat, s: Scan)
    requires hi <= |records| && s.found >= 0
    ensures Finish(ScanBack(records, hi, s)) == s.found
  {
    if hi > 0 { FoundStays(records, hi - 1, ScanRecord(s, records[hi - 1], hi - 1)); }
  }

  /** What stands after the first `hi` records, `k` user turns popped. */
  function NewestStanding(records: seq<Record>, hi: nat, seg: Option<Segment>, k: nat): int
    requires hi <= |records|
  {
    Newest(Pop(Standing(Tokens(records, hi, seg)), k))
  }

  lemma {:induction false} NewestAtClose(records: seq<Record>, hi: nat, k: nat, seg: Option<Segment>)
    requires 0 < hi <= |records| && Closes(seg, records[hi - 1])
    ensures NewestStanding(records, hi, seg, k) ==
      if k == 0 && seg.value.checkpoint >= 0 then seg.value.checkpoint
      else NewestStanding(records, hi - 1, None, if k > 0 && seg.value.userTurn then k - 1 else k)
  {
    LastToken(Tokens(records, hi - 1, None), seg.value, k);
  }

  lemma {:induction false} NewestAtRecord(records: seq<Record>, hi: nat, k: nat, seg: Option<Segment>)
    requires 0 < hi <= |records| && !Closes(seg, records[hi - 1])
    ensures NewestStanding(records, hi, seg, k) ==
      NewestStanding(records, hi - 1, Absorb(seg, records[hi - 1], hi - 1), k + Rollbacks(records[hi - 1]))
  {
    hide Absorb;
    var n := Rollbacks(records[hi - 1]);
    var older := Tokens(records, hi - 1, Absorb(seg, records[hi - 1], hi - 1));
    if n > 0 {
      StandingAfter(older, Undo(n));
      PopTwice(Standing(older), n, k);
    } else {
      assert older + [] == older;
    }
  }

  ghost predicate Agrees(records: seq<Record>, hi: nat, k: nat, seg: Option<Segment>)
    requires hi <= |records|
  {
    Finish(ScanBack(records, hi, Scan(k, -1, seg))) == Max(-1, NewestStanding(records, hi, seg, k))
  }

  lemma {:induction false} AgreesAtClose(records: seq<Record>, hi: nat, k: nat, seg: Option<Segment>)
    requires 0 < hi <= |records| && Closes(seg, records[hi - 1])
    requires Agrees(records, hi - 1, Close(Scan(k, -1, seg)).rollbacks, None)
    ensures Agrees(records, hi, k, seg)
  {
    NewestAtClose(records, hi, k, seg);
    if k == 0 && seg.value.checkpoint >= 0 {
      FoundStays(records, hi - 1, Close(Scan(k, -1, seg)));
    }
  }

  lemma {:induction false} AgreesAtRecord(records: seq<Record>, hi: nat, k: nat, seg: Option<Segment>)
    requires 0 < hi <= |records| && !Closes(seg, records[hi - 1])
    requires Agrees(records, hi - 1, k + Rollbacks(records[hi - 1]), Absorb(seg, records[hi - 1], hi - 1))
    ensures Agrees(records, hi, k, seg)
  {
    NewestAtRecord(records, hi, k, seg);
  }

  /** For every record list, every prefix of it, every open segment and every
      count `k` of turns still to skip: scanning the prefix backwards finds the
      newest compaction left once `k` user turns are popped from what stands
      after reading it forwards. */
  lemma {:induction false} ScanIsUndoStack(records: seq<Record>, hi: nat, k: nat, seg: Option<Segment>)
    requires hi <= |records|
    ensures Finish(ScanBack(records, hi, Scan(k, -1, seg))) == Max(-1, Newest(Pop(Standing(Tokens(records, hi, seg)), k)))
  {
    if hi == 0 {
      if seg.Some? {
        LastToken([], seg.value, k);
        assert [] + AsToken(seg) == AsToken(seg);
      }
    } else if Closes(seg, records[hi - 1]) {
      ScanIsUndoStack(records, hi - 1, Close(Scan(k, -1, seg)).rollbacks, None);
      AgreesAtClose(records, hi, k, seg);
    } else {
      var seg' := Absorb(seg, records[hi - 1], hi - 1);
      ScanIsUndoStack(records, hi - 1, k + Rollbacks(records[hi - 1]), seg');
      AgreesAtRecord(records, hi, k, seg);
    }
  }

  lemma {:induction false} LastToken(older: seq<Token>, seg: Segment, k: nat)
    ensures var t := Turn(seg.userTurn, seg.checkpoint);
      Newest(Pop(Standing(older + [t]), k)) ==
        if k > 0 then Newest(Pop(Standing(older), if seg.userTurn then k - 1 else k))
        else if seg.checkpoint >= 0 then seg.checkpoint else Newest(Standing(older))
  {
    StandingAfter(older, Turn(seg.userTurn, seg.checkpoint));
    NewestAfter(Standing(older), Turn(seg.userTurn, seg.checkpoint), k);
  }

  /** The checkpoint a replay starts from is the newest compaction no rollback
      undid, unless the newest of all bounds the replay by itself. */
  lemma CheckpointIsNewestStanding(records: seq<Record>, mode: Mode)
    requires var n := NewestCompaction(records, |records|); n >= 0 ==> !Bounds(records[n].compaction, mode)
    ensures ReplayCheckpoint(records, mode) == Max(-1, Newest(Standing(Tokens(records, |records|, None))))
  {
    ScanIsUndoStack(records, |records|, 0, None);
    if NewestCompaction(records, |records|) < 0 { NoCompactionNoToken(records, |records|, None); }
  }

  lemma {:induction false} NoCompactionNoToken(records: seq<Record>, hi: nat, seg: Option<Segment>)
    requires hi <= |records| && (forall i :: 0 <= i < hi ==> !records[i].Compacted?) && (seg.Some? ==> seg.value.checkpoint < 0)
    ensures forall t :: t in Tokens(records, hi, seg) && t.Turn? ==> t.checkpoint < 0
    ensures Newest(Standing(Tokens(records, hi, seg))) < 0
  {
    TokensWithout(records, hi, seg);
    StandingIn(Tokens(records, hi, seg));
    NewestIn(Standing(Tokens(records, hi, seg)));
  }

  lemma {:induction false} TokensWithout(records: seq<Record>, hi: nat, seg: Option<Segment>)
    requires hi <= |records| && (forall i :: 0 <= i < hi ==> !records[i].Compacted?) && (seg.Some? ==> seg.value.checkpoint < 0)
    ensures forall t :: t in Tokens(records, hi, seg) && t.Turn? ==> t.checkpoint < 0
  {
    if hi > 0 {
      var r := records[hi - 1];
      if Closes(seg, r) { TokensWithout(records, hi - 1, None); }
      else { TokensWithout(records, hi - 1, Absorb(seg, r, hi - 1)); }
    }
  }

  lemma {:induction false} PopIn(stack: seq<Token>, n: nat)
    ensures forall t :: t in Pop(stack, n) ==> t in stack
  {
    if n > 0 && stack != [] {
      var top := stack[|stack| - 1];
      PopIn(stack[..|stack| - 1], if top.Turn? && top.user then n - 1 else n);
    }
  }

  lemma {:induction false} StandingIn(tokens: seq<Token>)
    ensures forall t :: t in Standing(tokens) ==> t in tokens && t.Turn?
  {
    if tokens != [] {
      StandingIn(tokens[..|tokens| - 1]);
      PopIn(Standing(tokens[..|tokens| - 1]), if tokens[|tokens| - 1].Undo? then tokens[|tokens| - 1].turns else 0);
    }
  }

  lemma {:induction false} NewestIn(stack: seq<Token>)
    ensures Newest(stack) >= 0 ==> exists t :: t in stack && t.Turn? && t.checkpoint == Newest(stack)
  {
    if stack != [] { NewestIn(stack[..|stack| - 1]); }
  }
}
