/**
 The record-level rules of a rollout: what a segment read backwards knows, which records
 a replay refuses, and which rollouts.
 */
module CodexRolloutWhole {
  import opened Wrappers
  import opened CodexRollout

  // ---- a segment ----------------------------------------------------------------------------------

  /** The segment after `records[lo..hi]` were read backwards with none of them closing it. */
  function SegmentOf(records: seq<Record>, lo: nat, hi: nat): Option<Segment>
    requires lo <= hi <= |records|
    decreases hi - lo
  {
    if lo == hi then None else Absorb(SegmentOf(records, lo + 1, hi), records[lo], lo)
  }

  /** The record opens a segment: a compaction, a turn's context or state, an item that was
      not delivered before, a message, or the end of a turn; an abort only with its turn. */
  predicate BelongsToATurn(r: Record) {
    match r
    case Compacted(_) => true
    case TurnContext(_) => true
    case WorldState => true
    case ResponseItem(e) => !IsDelivered(e)
    case InterAgent => true
    case EventMsg(event, turn) => event.TurnComplete? || event.UserMessage? || (event.TurnAborted? && turn.Some?)
    case _ => false
  }

  predicate SaysUser(r: Record) {
    match r
    case ResponseItem(e) => !IsDelivered(e) && IsUserTurnBoundary(e.item)
    case InterAgent => true
    case EventMsg(event, _) => event.UserMessage?
    case _ => false
  }

  predicate Replaces(r: Record) { r.Compacted? && r.compaction.replacement.Some? }

  function TurnNamed(r: Record): Option<string> {
    match r
    case TurnContext(turn) => turn
    case EventMsg(event, turn) => if event.TurnComplete? || event.TurnAborted? then turn else None
    case _ => None
  }

  /** A segment of `records[lo..hi]`: whether any record belongs to a turn, whether any opens
      a user turn, the newest compaction with a replacement, the turn named last. */
  ghost predicate Tells(records: seq<Record>, lo: nat, hi: nat, seg: Option<Segment>)
    requires lo <= hi <= |records|
  {
    && (seg.Some? <==> exists i :: lo <= i < hi && BelongsToATurn(records[i]))
    && (seg.Some? ==>
          var s := seg.value;
          && (s.userTurn <==> exists i :: lo <= i < hi && SaysUser(records[i]))
          && (if s.checkpoint >= 0
              then lo <= s.checkpoint < hi && Replaces(records[s.checkpoint]) &&
                forall i :: s.checkpoint < i < hi ==> !Replaces(records[i])
              else s.checkpoint == -1 && forall i :: lo <= i < hi ==> !Replaces(records[i]))
          && (if s.turnId.Some?
              then exists k :: lo <= k < hi && TurnNamed(records[k]) == s.turnId
                     && forall i :: k < i < hi ==> TurnNamed(records[i]).None?
              else forall i :: lo <= i < hi ==> TurnNamed(records[i]).None?))
  }

  lemma Belongs(r: Record)
    ensures SaysUser(r) || Replaces(r) || TurnNamed(r).Some? ==> BelongsToATurn(r)
  {}

  /** Over any records read backwards a segment knows exactly that. */
  lemma {:induction false} SegmentTells(records: seq<Record>, lo: nat, hi: nat)
    requires lo <= hi <= |records|
    ensures Tells(records, lo, hi, SegmentOf(records, lo, hi))
    decreases hi - lo
  {
    if lo < hi {
      SegmentTells(records, lo + 1, hi);
      AbsorbTells(records, lo, hi, SegmentOf(records, lo + 1, hi));
    }
  }

  lemma AbsorbTells(records: seq<Record>, lo: nat, hi: nat, seg: Option<Segment>)
    requires lo < hi <= |records| && Tells(records, lo + 1, hi, seg)
    ensures Tells(records, lo, hi, Absorb(seg, records[lo], lo))
  {
    hide IsDelivered, IsUserTurnBoundary;
    forall i | lo + 1 <= i < hi { Belongs(records[i]); }
    AbsorbIs(seg, records[lo], lo);
    hide Absorb, BelongsToATurn, SaysUser, Replaces, TurnNamed;
  }

  /** One record more, further back. */
  lemma AbsorbIs(seg: Option<Segment>, r: Record, i: nat)
    requires seg.Some? ==> seg.value.checkpoint == -1 || seg.value.checkpoint > i
    ensures var s := Absorb(seg, r, i); var before := seg.GetOr(Segment(None, false, -1));
      && (s.Some? <==> seg.Some? || BelongsToATurn(r))
      && (s.Some? ==>
            && s.value.userTurn == (before.userTurn || SaysUser(r))
            && s.value.checkpoint == (if before.checkpoint >= 0 || !Replaces(r) then before.checkpoint else i)
            && s.value.turnId == if before.turnId.Some? then before.turnId else TurnNamed(r))
  {}

  // ---- what a replay refuses ------------------------------------------------------------------------

  predicate IsRefused(r: Record) { r.InterAgent? || (r.Compacted? && r.compaction.replacement.None?) }

  lemma {:induction false} ForwardRefuses(h: seq<Entry>, records: seq<Record>)
    ensures Forward(h, records).Err? <==> exists i :: 0 <= i < |records| && IsRefused(records[i])
    decreases |records|
  {
    if records != [] {
      var next := ForwardRecord(h, records[0]);
      if next.Ok? {
        ForwardRefuses(next.value, records[1..]);
        if exists i :: 0 <= i < |records| && IsRefused(records[i]) {
          var i :| 0 <= i < |records| && IsRefused(records[i]);
          assert records[1..][i - 1] == records[i];
        }
      }
      hide IsHistoryItem, IsDelivered, DropLastUserTurns;
    }
  }

  /** A rollout is refused exactly if past its checkpoint it holds a message between agents
      or a compaction without its replacement. */
  lemma RefusedExactly(records: seq<Record>, mode: Mode)
    ensures var from := ReplayCheckpoint(records, mode) + 1;
      0 <= from <= |records| &&
      (RebuiltHistory(records, mode).Err? <==> exists i :: from <= i < |records| && IsRefused(records[i]))
  {
    hide ReplayCheckpoint, CheckpointHistory, Forward, IsRefused;
    CheckpointIsReadable(records, mode);
    var from := ReplayCheckpoint(records, mode) + 1;
    var h := if from == 0 then [] else CheckpointHistory(records[from - 1].compaction);
    ForwardRefuses(h, records[from..]);
    assert from == 0 ==> records[0..] == records;
    assert RebuiltHistory(records, mode) == Forward(h, records[from..]);
    hide RebuiltHistory;
    if exists i :: from <= i < |records| && IsRefused(records[i]) {
      var i :| from <= i < |records| && IsRefused(records[i]);
      assert records[from..][i - from] == records[i];
    }
  }

  lemma {:induction false} FirstMetaIs(records: seq<Record>)
    ensures FirstMeta(records).None? ==> forall i :: 0 <= i < |records| ==> !records[i].SessionMeta?
    ensures FirstMeta(records).Some? ==>
      exists i :: 0 <= i < |records| && FirstMeta(records) == Some(records[i]) && records[i].SessionMeta?
        && forall j :: 0 <= j < i ==> !records[j].SessionMeta?
  {
    if records != [] && !records[0].SessionMeta? {
      FirstMetaIs(records[1..]);
      if FirstMeta(records).Some? {
        var i :| 0 <= i < |records[1..]| && FirstMeta(records[1..]) == Some(records[1..][i]) && records[1..][i].SessionMeta?
          && forall j :: 0 <= j < i ==> !records[1..][j].SessionMeta?;
        assert records[i + 1] == records[1..][i];
        assert forall j :: 0 < j < i + 1 ==> records[j] == records[1..][j - 1];
      } else {
        assert forall j :: 0 < j < |records| ==> records[j] == records[1..][j - 1];
      }
    }
  }

  /** The thread's own rollout comes last in a lineage. Without a session_meta of that
      thread in it there is no history; its mode is legacy unless it says otherwise, and
      must be paginated where there is a lineage. Else the history is that of all
      segments together, as plain items. */
  lemma WholeHistory(segments: seq<seq<Record>>, threadId: string, i: nat)
    requires segments != []
    ensures var own := segments[|segments| - 1];
      (forall k :: 0 <= k < |own| ==> !own[k].SessionMeta?) ==> RolloutHistory(segments, threadId).Err?
    ensures var own := segments[|segments| - 1];
      i < |own| && own[i].SessionMeta? && (forall k :: 0 <= k < i ==> !own[k].SessionMeta?) ==>
        var mode := own[i].historyMode.GetOr("legacy");
        if (threadId != "" && own[i].id != threadId) || mode !in {"legacy", "paginated"} || (|segments| > 1 && mode != "paginated")
        then RolloutHistory(segments, threadId).Err?
        else
          var h := RebuiltHistory(Flat(segments), if mode == "legacy" then Legacy else Paginated);
          RolloutHistory(segments, threadId) == if h.Err? then Err(h.error) else Ok(Plain(h.value))
  {
    var own := segments[|segments| - 1];
    FirstMetaIs(own);
    if i < |own| && own[i].SessionMeta? && forall k :: 0 <= k < i ==> !own[k].SessionMeta? {
      var k :| 0 <= k < |own| && FirstMeta(own) == Some(own[k]) && own[k].SessionMeta?
        && forall j :: 0 <= j < k ==> !own[j].SessionMeta?;
      assert k == i;
    }
    hide FirstMeta, RebuiltHistory, Plain, Flat;
  }
}
