/**
 From turns to checkpoints: on a well-formed rollout the reverse scan picks the
 newest compaction in a turn that is left, and starting there rebuilds what the
 naive replay holds. The one exception is worked out exactly.
 */
module CodexRolloutCheckpoint {
  import opened Wrappers
  import opened CodexRollout
  import opened CodexRolloutMeaning
  import opened CodexRolloutUndo

  // ---- one turn, read backwards -------------------------------------------------------

  lemma {:induction false} ScanLocal(a: seq<Record>, b: seq<Record>, hi: nat, s: Scan)
    requires hi <= |a|
    ensures ScanBack(a + b, hi, s) == ScanBack(a, hi, s)
  {
    if hi > 0 { ScanLocal(a, b, hi - 1, ScanRecord(s, a[hi - 1], hi - 1)); }
  }

  function AbsorbAll(seg: Option<Segment>, body: seq<Record>, hi: nat, base: nat): Option<Segment>
    requires hi <= |body|
    decreases hi
  {
    if hi == 0 then seg else AbsorbAll(Absorb(seg, body[hi - 1], base + hi - 1), body, hi - 1, base)
  }

  /** Inside a turn nothing closes the segment and nothing rolls back. */
  lemma {:induction false} ScanBody(records: seq<Record>, base: nat, body: seq<Record>, hi: nat, s: Scan, id: string)
    requires hi <= |body| && base + |body| <= |records| && records[base..base + |body|] == body
    requires forall i :: 0 <= i < |body| ==> InTurn(body[i], id)
    ensures ScanBack(records, base + hi, s) == ScanBack(records, base, s.(segment := AbsorbAll(s.segment, body, hi, base)))
  {
    if hi > 0 {
      assert records[base + hi - 1] == records[base..base + |body|][hi - 1];
      ScanBody(records, base, body, hi - 1, s.(segment := Absorb(s.segment, body[hi - 1], base + hi - 1)), id);
    }
  }

  predicate Marks(r: Record) {
    (r.ResponseItem? && !IsDelivered(r.entry) && IsUserTurnBoundary(r.entry.item)) || (r.EventMsg? && r.event.UserMessage?)
  }

  predicate MarkedFrom(body: seq<Record>, m: nat) { exists i :: m <= i < |body| && Marks(body[i]) }

  function LastFrom(body: seq<Record>, m: nat): int {
    var last := NewestCompaction(body, |body|);
    if last >= m then last else -1
  }

  /** The segment read so far knows what `body[m..]` holds. */
  predicate Covers(seg: Option<Segment>, body: seq<Record>, m: nat, base: nat, id: string) {
    && seg.GetOr(NoSegment).userTurn == MarkedFrom(body, m)
    && seg.GetOr(NoSegment).checkpoint == (if LastFrom(body, m) < 0 then -1 else base + LastFrom(body, m))
    && (seg.GetOr(NoSegment).turnId.None? || seg.GetOr(NoSegment).turnId == Some(id))
  }

  lemma CoversMore(seg: Option<Segment>, body: seq<Record>, m: nat, base: nat, id: string)
    requires m < |body| && InTurn(body[m], id) && Covers(seg, body, m + 1, base, id)
    ensures Covers(Absorb(seg, body[m], base + m), body, m, base, id)
  {
    assert MarkedFrom(body, m) <==> Marks(body[m]) || MarkedFrom(body, m + 1);
    var last := NewestCompaction(body, |body|);
    assert LastFrom(body, m) == if last == m then m else LastFrom(body, m + 1);
    assert last == m ==> body[m].Compacted?;
    assert body[m].Compacted? ==> last >= m;
  }

  lemma {:induction false} CoversAll(seg: Option<Segment>, body: seq<Record>, hi: nat, base: nat, id: string)
    requires hi <= |body| && Covers(seg, body, hi, base, id)
    requires forall i :: 0 <= i < |body| ==> InTurn(body[i], id)
    ensures Covers(AbsorbAll(seg, body, hi, base), body, 0, base, id)
    decreases hi
  {
    if hi > 0 {
      CoversMore(seg, body, hi - 1, base, id);
      CoversAll(Absorb(seg, body[hi - 1], base + hi - 1), body, hi - 1, base, id);
    }
  }

  lemma {:induction false} MarkedItems(body: seq<Record>)
    ensures IsUser(body) <==> exists i :: 0 <= i < |body| && body[i].ResponseItem? && Marks(body[i])
  {
    hide IsContextualContent, IsInterAgentContent, IsDelivered;
    if body != [] {
      var init, last := body[..|body| - 1], body[|body| - 1];
      MarkedItems(init);
      CountConcat(Items(init), Items(body)[|Items(init)|..]);
      assert Items(body) == Items(init) + Items(body)[|Items(init)|..];
      if last.ResponseItem? && Marks(last) {
        assert [last.entry][..0] == [];
        assert CountBoundaries([last.entry]) == 1;
      } else if last.ResponseItem? && IsHistoryItem(last.entry) && !IsDelivered(last.entry) {
        assert [last.entry][..0] == [];
        assert CountBoundaries([last.entry]) == 0;
      }
    }
  }

  lemma MarkedIsUser(body: seq<Record>, id: string)
    requires WellFormedBody(body, id)
    ensures MarkedFrom(body, 0) == IsUser(body)
  {
    MarkedItems(body);
  }

  /** What the scan carries past a turn that begins at record `off`. */
  function AfterTurn(k: nat, body: seq<Record>, off: nat): Scan {
    if k > 0 then Scan(if IsUser(body) then k - 1 else k, -1, None)
    else Scan(0, if HasCompaction(body) then off + 1 + NewestCompaction(body, |body|) else -1, None)
  }

  lemma {:induction false} EndRecord(records: seq<Record>, k: nat, id: string, body: seq<Record>, end: End, off: nat)
    returns (seg: Option<Segment>)
    requires off + |RecordsOf(Chunk.Turn(id, body, end))| == |records|
    requires records[off..] == RecordsOf(Chunk.Turn(id, body, end))
    ensures ScanBack(records, |records|, Scan(k, -1, None)) == ScanBack(records, off + 1 + |body|, Scan(k, -1, seg))
    ensures seg.None? || (seg.value.turnId == Some(id) && !seg.value.userTurn && seg.value.checkpoint == -1)
  {
    if end.Unfinished? { return None; }
    assert records[|records| - 1] == records[off..][1 + |body|];
    return Absorb(None, records[|records| - 1], |records| - 1);
  }

  lemma CoversNothing(seg: Option<Segment>, body: seq<Record>, base: nat, id: string)
    requires seg.None? || (seg.value.turnId == Some(id) && !seg.value.userTurn && seg.value.checkpoint == -1)
    ensures Covers(seg, body, |body|, base, id)
  {}

  /** Closing a turn, once the segment knows all of its body. */
  lemma {:induction false} StartRecord(records: seq<Record>, k: nat, id: string, body: seq<Record>, off: nat,
      seg: Option<Segment>)
    requires off < |records| && records[off] == EventMsg(TurnStarted, Some(id))
    requires Covers(seg, body, 0, off + 1, id) && MarkedFrom(body, 0) == IsUser(body)
    ensures ScanBack(records, off + 1, Scan(k, -1, seg)) == ScanBack(records, off, AfterTurn(k, body, off))
  {
    hide IsUser, MarkedFrom;
  }

  lemma {:induction false} TurnEffect(records: seq<Record>, k: nat, id: string, body: seq<Record>, end: End, off: nat)
    requires off + |RecordsOf(Chunk.Turn(id, body, end))| == |records|
    requires records[off..] == RecordsOf(Chunk.Turn(id, body, end)) && WellFormedBody(body, id)
    ensures ScanBack(records, |records|, Scan(k, -1, None)) == ScanBack(records, off, AfterTurn(k, body, off))
  {
    hide IsUser, AbsorbAll, MarkedFrom, Covers, ScanBack, AfterTurn, InTurn;
    var seg := EndRecord(records, k, id, body, end, off);
    assert records[off + 1..off + 1 + |body|] == body by {
      assert records[off + 1..off + 1 + |body|] == records[off..][1..1 + |body|];
    }
    ScanBody(records, off + 1, body, |body|, Scan(k, -1, seg), id);
    CoversNothing(seg, body, off + 1, id);
    CoversAll(seg, body, |body|, off + 1, id);
    MarkedIsUser(body, id);
    assert records[off] == records[off..][0];
    StartRecord(records, k, id, body, off, AbsorbAll(seg, body, |body|, off + 1));
  }

  // ---- the scan, chunk by chunk ---------------------------------------------------------

  /** The chunk whose turn holds the checkpoint, with `k` user turns still to skip, or -1. */
  function CheckpointChunk(chunks: seq<Chunk>, k: nat): (j: int)
    ensures -1 <= j < |chunks|
    ensures j >= 0 ==> chunks[j].Turn? && HasCompaction(chunks[j].body)
  {
    if chunks == [] then -1
    else
      var init, last := chunks[..|chunks| - 1], chunks[|chunks| - 1];
      match last
      case Rollback(n) => CheckpointChunk(init, k + Max(0, n))
      case Aside(_) => CheckpointChunk(init, k)
      case Turn(_, body, _) =>
        if k > 0 then CheckpointChunk(init, if IsUser(body) then k - 1 else k)
        else if HasCompaction(body) then |init| else CheckpointChunk(init, 0)
  }

  function CheckpointRecord(chunks: seq<Chunk>, j: int): int
    requires -1 <= j < |chunks| && (j >= 0 ==> chunks[j].Turn?)
  {
    if j < 0 then -1 else |Flatten(chunks[..j])| + 1 + NewestCompaction(chunks[j].body, |chunks[j].body|)
  }

  ghost predicate ScanFinds(chunks: seq<Chunk>, k: nat) {
    Finish(ScanBack(Flatten(chunks), |Flatten(chunks)|, Scan(k, -1, None))) == CheckpointRecord(chunks, CheckpointChunk(chunks, k))
  }

  lemma CheckpointIn(chunks: seq<Chunk>, j: int)
    requires chunks != [] && -1 <= j < |chunks| - 1 && (j >= 0 ==> chunks[j].Turn?)
    ensures CheckpointRecord(chunks, j) == CheckpointRecord(chunks[..|chunks| - 1], j)
  {
    if j >= 0 { assert chunks[..|chunks| - 1][..j] == chunks[..j]; }
  }

  /** Between turns a record only adds its rollback to the count. */
  lemma PlainEffect(c: Chunk, k: nat, off: nat)
    requires !c.Turn? && WellFormed([c])
    ensures var r := RecordsOf(c)[0];
      RecordsOf(c) == [r] && ScanRecord(Scan(k, -1, None), r, off) == Scan(k + Rollbacks(r), -1, None)
  {
    assert [c][0] == c;
  }

  lemma PlainChunk(chunks: seq<Chunk>, k: nat)
    requires chunks != [] && !chunks[|chunks| - 1].Turn? && WellFormed(chunks)
    ensures CheckpointChunk(chunks, k) ==
      CheckpointChunk(chunks[..|chunks| - 1], k + Rollbacks(RecordsOf(chunks[|chunks| - 1])[0]))
  {}

  lemma {:induction false} ScanPlain(chunks: seq<Chunk>, k: nat)
    requires chunks != [] && !chunks[|chunks| - 1].Turn? && WellFormed(chunks)
    requires var r := RecordsOf(chunks[|chunks| - 1])[0]; ScanFinds(chunks[..|chunks| - 1], k + Rollbacks(r))
    ensures ScanFinds(chunks, k)
  {
    hide IsUser, HasCompaction, Absorb, ScanRecord, CheckpointChunk;
    var init, last := chunks[..|chunks| - 1], chunks[|chunks| - 1];
    var off, r := |Flatten(init)|, RecordsOf(last)[0];
    PlainEffect(last, k, off);
    assert Flatten(chunks)[off] == r;
    ScanLocal(Flatten(init), RecordsOf(last), off, Scan(k + Rollbacks(r), -1, None));
    PlainChunk(chunks, k);
    CheckpointIn(chunks, CheckpointChunk(chunks, k));
  }

  lemma TurnChunk(chunks: seq<Chunk>, k: nat)
    requires chunks != [] && chunks[|chunks| - 1].Turn?
    ensures var init, body := chunks[..|chunks| - 1], chunks[|chunks| - 1].body;
      CheckpointChunk(chunks, k) ==
        if k == 0 && HasCompaction(body) then |init| else CheckpointChunk(init, AfterTurn(k, body, 0).rollbacks)
  {
    hide IsUser, HasCompaction;
  }

  lemma {:induction false} ScanTurn(chunks: seq<Chunk>, k: nat)
    requires chunks != [] && chunks[|chunks| - 1].Turn? && WellFormed(chunks)
    requires ScanFinds(chunks[..|chunks| - 1], AfterTurn(k, chunks[|chunks| - 1].body, 0).rollbacks)
    ensures ScanFinds(chunks, k)
  {
    hide IsUser, IsUserTurnBoundary, Absorb, ScanRecord, ScanBack, CheckpointChunk, RecordsOf;
    var init, last := chunks[..|chunks| - 1], chunks[|chunks| - 1];
    var off := |Flatten(init)|;
    var s := AfterTurn(k, last.body, off);
    TurnChunk(chunks, k);
    assert Flatten(chunks)[off..] == RecordsOf(last);
    TurnEffect(Flatten(chunks), k, last.id, last.body, last.end, off);
    ScanLocal(Flatten(init), RecordsOf(last), off, s);
    if s.found >= 0 {
      FoundStays(Flatten(init), off, s);
    } else {
      CheckpointIn(chunks, CheckpointChunk(chunks, k));
    }
  }

  lemma {:induction false} ScanChunks(chunks: seq<Chunk>, k: nat)
    requires WellFormed(chunks)
    ensures ScanFinds(chunks, k)
    decreases |chunks|
  {
    if chunks != [] {
      var init, last := chunks[..|chunks| - 1], chunks[|chunks| - 1];
      if last.Turn? {
        ScanChunks(init, AfterTurn(k, last.body, 0).rollbacks);
        ScanTurn(chunks, k);
      } else {
        ScanChunks(init, k + Rollbacks(RecordsOf(last)[0]));
        ScanPlain(chunks, k);
      }
    }
  }

  /** The newest compaction bounds a legacy replay by itself. */
  predicate NewestBounds(records: seq<Record>) {
    var n := NewestCompaction(records, |records|);
    n >= 0 && Bounds(records[n].compaction, Legacy)
  }

  /** The checkpoint the scan chooses, in terms of turns. */
  lemma CheckpointIsChunk(chunks: seq<Chunk>)
    requires WellFormed(chunks) && !NewestBounds(Flatten(chunks))
    ensures ReplayCheckpoint(Flatten(chunks), Legacy) == CheckpointRecord(chunks, CheckpointChunk(chunks, 0))
  {
    var records := Flatten(chunks);
    CheckpointIsNewestStanding(records, Legacy);
    ScanIsUndoStack(records, |records|, 0, None);
    ScanChunks(chunks, 0);
  }

  // ---- a compaction that bounds the replay ------------------------------------------------

  /** The last turn with a compaction, or -1. */
  function NewestChunk(chunks: seq<Chunk>): (j: int)
    ensures -1 <= j < |chunks|
    ensures j >= 0 ==> chunks[j].Turn? && HasCompaction(chunks[j].body)
  {
    if chunks == [] then -1
    else
      var last := chunks[|chunks| - 1];
      if last.Turn? && HasCompaction(last.body) then |chunks| - 1 else NewestChunk(chunks[..|chunks| - 1])
  }

  lemma {:induction false} NewestLocal(a: seq<Record>, b: seq<Record>, hi: nat)
    requires hi <= |a|
    ensures NewestCompaction(a + b, hi) == NewestCompaction(a, hi)
  {
    if hi > 0 { NewestLocal(a, b, hi - 1); }
  }

  lemma {:induction false} NewestInTail(a: seq<Record>, b: seq<Record>, hi: nat)
    requires hi <= |b|
    ensures NewestCompaction(a + b, |a| + hi) ==
      if NewestCompaction(b, hi) >= 0 then |a| + NewestCompaction(b, hi) else NewestCompaction(a, |a|)
  {
    if hi == 0 { NewestLocal(a, b, |a|); } else { NewestInTail(a, b, hi - 1); }
  }

  lemma NewestInRecords(c: Chunk)
    requires WellFormed([c])
    ensures NewestCompaction(RecordsOf(c), |RecordsOf(c)|) ==
      if c.Turn? && HasCompaction(c.body) then 1 + NewestCompaction(c.body, |c.body|) else -1
  {
    hide IsUser, InTurn;
    assert [c][0] == c;
    if c.Turn? {
      var start, tail := [EventMsg(TurnStarted, Some(c.id))], RecordsOf(c)[1 + |c.body|..];
      assert RecordsOf(c) == (start + c.body) + tail;
      NewestInTail(start + c.body, tail, |tail|);
      NewestInTail(start, c.body, |c.body|);
    }
  }

  lemma {:induction false} NewestIsChunk(chunks: seq<Chunk>)
    requires WellFormed(chunks)
    ensures NewestCompaction(Flatten(chunks), |Flatten(chunks)|) == CheckpointRecord(chunks, NewestChunk(chunks))
  {
    if chunks != [] {
      hide RecordsOf, HasCompaction, WellFormedBody, NewestCompaction;
      var init, last := chunks[..|chunks| - 1], chunks[|chunks| - 1];
      NewestIsChunk(init);
      assert [last][0] == last;
      NewestInRecords(last);
      NewestInTail(Flatten(init), RecordsOf(last), |RecordsOf(last)|);
      if !(last.Turn? && HasCompaction(last.body)) { CheckpointIn(chunks, NewestChunk(chunks)); }
      BodyHas(last);
    }
  }

  lemma BodyHas(c: Chunk)
    ensures c.Turn? && HasCompaction(c.body) ==> NewestCompaction(c.body, |c.body|) >= 0
  {}

  /** A newest compaction that bounds the replay is the checkpoint. */
  lemma BoundingIsCheckpoint(chunks: seq<Chunk>)
    requires WellFormed(chunks) && NewestBounds(Flatten(chunks))
    ensures NewestChunk(chunks) >= 0
    ensures ReplayCheckpoint(Flatten(chunks), Legacy) == CheckpointRecord(chunks, NewestChunk(chunks))
  {
    NewestIsChunk(chunks);
  }
}
