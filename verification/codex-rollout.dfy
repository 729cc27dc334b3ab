/**
 Rollout reconstruction (the lower half of `agent-base/agentd/drivers/codex.mjs`):
 rebuilding a thread's history from the records of its log.

 A text's regex-matched facts stand beside it: `contextual` for
 `isCodexContextualUserText`, `summary` for the summary prefix, `interAgent`
 for a serialized inter-agent message. JSON parsing is not part of this model;
 a rollout is a sequence of records.
 */
module CodexRollout {
  import opened Wrappers

  datatype Role = User | Assistant | Developer | System

  datatype Part =
    | InputText(text: string, contextual: bool, summary: bool, interAgent: bool)
    | OutputText(text: string, interAgent: bool)
    | Encrypted(text: string)
    | OtherPart(text: string)

  datatype Output = NoOutput | Text(text: string) | Parts(parts: seq<Part>)

  /** A history item. `Tool` is any call or output type codex keeps, `Unknown` one it drops. */
  datatype Item =
    | Message(role: Role, content: seq<Part>, id: Option<string>, passthroughTurn: bool)
    | AgentMessage(text: string)
    | Reasoning(text: string)
    | Configuration(text: string)
    | EncryptedCompaction(text: string)
    | Tool(kind: string, body: string, id: Option<string>, encryptedArgs: Option<string>, output: Output)
    | Unknown(text: string)

  /** `order` is `user_input_order`; `delivered` says the code-mode delivery marker is one codex knows. */
  datatype Meta = Meta(order: Option<int>, inherited: bool, delivered: bool, harnessConfig: bool)

  datatype Entry = Entry(item: Item, meta: Option<Meta>)

  /** A retained message, as `retainedMessages` leaves it. */
  datatype Retained = Retained(order: int, entry: Entry)

  /** A compacted line: its replacement history, the two fields that let it bound
      a replay, and the retained messages in their order. */
  datatype Compaction = Compaction(
    replacement: Option<seq<Entry>>, windowNumber: bool, resumeMetadata: bool,
    users: seq<Retained>, replies: seq<Retained>)

  datatype Event = RolledBack(turns: int) | TurnComplete | TurnAborted | UserMessage | TurnStarted | OtherEvent

  datatype Record =
    | SessionMeta(id: string, historyMode: Option<string>)
    | ResponseItem(entry: Entry)
    | Compacted(compaction: Compaction)
    | TurnContext(turn: Option<string>)
    | WorldState
    | InterAgent
    | EventMsg(event: Event, turnId: Option<string>)
    | OtherRecord

  datatype Mode = Legacy | Paginated

  datatype Result<T> = Ok(value: T) | Err(error: string)

  function Max(a: int, b: int): int { if a < b then b else a }

  // ---- items ------------------------------------------------------------------------

  predicate IsContextualContent(content: seq<Part>) {
    exists i :: 0 <= i < |content| && content[i].InputText? && content[i].contextual
  }

  predicate IsInterAgentContent(content: seq<Part>) {
    |content| == 1 && (content[0].InputText? || content[0].OutputText?) && content[0].interAgent
  }

  predicate IsUserTurnBoundary(item: Item) {
    item.AgentMessage? ||
    (item.Message? &&
      ((item.role.User? && !IsContextualContent(item.content)
          && forall i :: 0 <= i < |item.content| ==> !(item.content[i].InputText? && item.content[i].summary))
       || (item.role.Assistant? && IsInterAgentContent(item.content))))
  }

  predicate IsHistoryItem(e: Entry) {
    match e.item
    case Message(role, _, _, _) => !role.System?
    case Configuration(_) => e.meta.Some? && e.meta.value.harnessConfig
    case Unknown(_) => false
    case _ => true
  }

  predicate IsDelivered(e: Entry) {
    && e.meta.Some? && e.meta.value.delivered && e.meta.value.order.Some?
    && e.item.Message? && e.item.role.Assistant? && |e.item.content| == 1 && e.item.content[0].OutputText?
    && e.item.passthroughTurn
  }

  function AcceptanceOrder(m: Option<Meta>): Option<int> {
    if m.None? || m.value.inherited then None else m.value.order
  }

  function WithoutEncrypted(ps: seq<Part>): seq<Part> {
    if ps == [] then [] else (if ps[0].Encrypted? then [] else [ps[0]]) + WithoutEncrypted(ps[1..])
  }

  const WITHHELD_OUTPUT := "[This output was encrypted for another session and is not carried over.]"

  /** What a rebuilt thread carries of an item: plain conversation only. */
  function PlainItem(item: Item): seq<Item> {
    match item
    case Message(role, content, _, turn) =>
      if role.Developer? || role.System? || (role.User? && IsContextualContent(content)) then []
      else [Message(role, WithoutEncrypted(content), None, turn)]
    case Tool(kind, body, _, _, output) =>
      var output' :=
        if !output.Parts? then output
        else if WithoutEncrypted(output.parts) == [] && output.parts != [] then Text(WITHHELD_OUTPUT)
        else Parts(WithoutEncrypted(output.parts));
      [Tool(kind, body, None, None, output')]
    case Unknown(_) => [item]
    case _ => []
  }

  function Plain(h: seq<Entry>): seq<Item> {
    if h == [] then [] else PlainItem(h[0].item) + Plain(h[1..])
  }

  // ---- the history a compaction leaves ------------------------------------------------

  predicate IsUserEntry(e: Entry) {
    e.item.Message? && e.item.role.User? && !IsContextualContent(e.item.content)
  }

  function WithoutCompactions(h: seq<Entry>): seq<Entry> {
    if h == [] then [] else (if h[0].item.EncryptedCompaction? then [] else [h[0]]) + WithoutCompactions(h[1..])
  }

  function Entries(rs: seq<Retained>): seq<Entry> {
    seq(|rs|, i requires 0 <= i < |rs| => rs[i].entry)
  }

  /** Two ordered lists as one, users first where the orders tie. */
  function MergeRetained(users: seq<Retained>, replies: seq<Retained>): seq<Entry>
    decreases |users| + |replies|
  {
    if users == [] then Entries(replies)
    else if replies == [] || users[0].order <= replies[0].order then [users[0].entry] + MergeRetained(users[1..], replies)
    else [replies[0].entry] + MergeRetained(users, replies[1..])
  }

  /** The retained replies, each before the first kept user message accepted after it. */
  function Interleave(kept: seq<Entry>, replies: seq<Retained>): seq<Entry>
    decreases |kept| + |replies|
  {
    if kept == [] then Entries(replies)
    else
      var order := if IsUserEntry(kept[0]) then AcceptanceOrder(kept[0].meta) else None;
      if order.Some? && replies != [] && replies[0].order < order.value then [replies[0].entry] + Interleave(kept, replies[1..])
      else [kept[0]] + Interleave(kept[1..], replies)
  }

  function CheckpointHistory(c: Compaction): seq<Entry>
    requires c.replacement.Some?
  {
    var replaced := c.replacement.value;
    if forall i :: 0 <= i < |replaced| ==> !replaced[i].item.EncryptedCompaction? then replaced
    else
      var kept := WithoutCompactions(replaced);
      if c.replies == [] then kept
      else if exists i :: 0 <= i < |kept| && IsUserEntry(kept[i]) && AcceptanceOrder(kept[i].meta).None? then
        MergeRetained(c.users, c.replies)
      else Interleave(kept, c.replies)
  }

  // ---- the checkpoint -----------------------------------------------------------------

  datatype Segment = Segment(turnId: Option<string>, userTurn: bool, checkpoint: int)
  datatype Scan = Scan(rollbacks: nat, found: int, segment: Option<Segment>)

  const NoSegment := Segment(None, false, -1)

  function Close(s: Scan): Scan
    requires s.segment.Some?
  {
    var done := s.segment.value;
    if s.rollbacks > 0 then Scan(if done.userTurn then s.rollbacks - 1 else s.rollbacks, s.found, None)
    else Scan(0, if s.found < 0 && done.checkpoint >= 0 then done.checkpoint else s.found, None)
  }

  /** `task_started` ends the segment read so far, unless the ids name different turns. */
  predicate Closes(seg: Option<Segment>, r: Record) {
    r.EventMsg? && r.event.TurnStarted? && seg.Some? && (seg.value.turnId.None? || r.turnId.None? || seg.value.turnId == r.turnId)
  }

  /** How a record at index `i` changes the segment being read backwards. */
  function Absorb(seg: Option<Segment>, r: Record, i: int): Option<Segment> {
    var open := seg.GetOr(NoSegment);
    match r
    case Compacted(c) => Some(if open.checkpoint < 0 && c.replacement.Some? then open.(checkpoint := i) else open)
    case TurnContext(turn) => Some(if open.turnId.None? then open.(turnId := turn) else open)
    case WorldState => Some(open)
    case ResponseItem(e) =>
      if IsDelivered(e) then seg
      else Some(if IsUserTurnBoundary(e.item) then open.(userTurn := true) else open)
    case InterAgent => Some(open.(userTurn := true))
    case EventMsg(event, turn) =>
      (match event
       case TurnComplete => Some(if open.turnId.None? then open.(turnId := turn) else open)
       case TurnAborted =>
         if seg.Some? then Some(if open.turnId.None? then open.(turnId := turn) else open)
         else if turn.Some? then Some(NoSegment.(turnId := turn)) else seg
       case UserMessage => Some(open.(userTurn := true))
       case _ => seg)
    case _ => seg
  }

  function Rollbacks(r: Record): nat {
    if r.EventMsg? && r.event.RolledBack? then Max(0, r.event.turns) else 0
  }

  function ScanRecord(s: Scan, r: Record, i: int): Scan {
    if Closes(s.segment, r) then Close(s)
    else Scan(s.rollbacks + Rollbacks(r), s.found, Absorb(s.segment, r, i))
  }

  /** The reverse scan over `records[..hi]`. */
  function ScanBack(records: seq<Record>, hi: nat, s: Scan): Scan
    requires hi <= |records|
  {
    if hi == 0 then s else ScanBack(records, hi - 1, ScanRecord(s, records[hi - 1], hi - 1))
  }

  function Finish(s: Scan): int { if s.segment.Some? then Close(s).found else s.found }

  function NewestCompaction(records: seq<Record>, hi: nat): (i: int)
    requires hi <= |records|
    ensures -1 <= i < hi && (i >= 0 ==> records[i].Compacted?)
    ensures forall j :: i < j < hi ==> !records[j].Compacted?
  {
    if hi == 0 then -1 else if records[hi - 1].Compacted? then hi - 1 else NewestCompaction(records, hi - 1)
  }

  /** The newest compaction bounds the replay by itself. */
  predicate Bounds(c: Compaction, mode: Mode) {
    c.replacement.Some? && c.windowNumber && (c.resumeMetadata || mode.Paginated?)
  }

  function ReplayCheckpoint(records: seq<Record>, mode: Mode): int {
    var newest := NewestCompaction(records, |records|);
    if newest < 0 then -1
    else if Bounds(records[newest].compaction, mode) then newest
    else Finish(ScanBack(records, |records|, Scan(0, -1, None)))
  }

  /** `replayCheckpoint` as the original runs it: one loop from the end. */
  method FindCheckpoint(records: seq<Record>, mode: Mode) returns (found: int)
    ensures found == ReplayCheckpoint(records, mode)
  {
    var newest := -1;
    var i := |records|;
    while i > 0 && newest < 0
      invariant 0 <= i <= |records| && -1 <= newest < |records|
      invariant newest < 0 ==> NewestCompaction(records, |records|) == NewestCompaction(records, i)
      invariant newest >= 0 ==> newest == NewestCompaction(records, |records|)
    {
      i := i - 1;
      if records[i].Compacted? { newest := i; }
    }
    if newest < 0 { return -1; }
    if Bounds(records[newest].compaction, mode) { return newest; }
    var rollbackTurns: nat, segment: Option<Segment> := 0, None;
    found := -1;
    i := |records|;
    while i > 0
      invariant 0 <= i <= |records|
      invariant ScanBack(records, |records|, Scan(0, -1, None)) == ScanBack(records, i, Scan(rollbackTurns, found, segment))
    {
      i := i - 1;
      var r := records[i];
      if Closes(segment, r) {
        var done := segment.value;
        segment := None;
        if rollbackTurns > 0 {
          if done.userTurn { rollbackTurns := rollbackTurns - 1; }
        } else if found < 0 && done.checkpoint >= 0 {
          found := done.checkpoint;
        }
      } else {
        rollbackTurns := rollbackTurns + Rollbacks(r);
        segment := Absorb(segment, r, i);
      }
    }
    if segment.Some? && rollbackTurns == 0 && found < 0 && segment.value.checkpoint >= 0 {
      found := segment.value.checkpoint;
    }
  }

  // ---- going forward ------------------------------------------------------------------

  function CountBoundaries(h: seq<Entry>): nat {
    if h == [] then 0 else CountBoundaries(h[..|h| - 1]) + if IsUserTurnBoundary(h[|h| - 1].item) then 1 else 0
  }

  /** Where the newest `n` user turns of `h` begin, or the first one when it has fewer. */
  function CutPoint(h: seq<Entry>, n: nat): (cut: nat)
    requires CountBoundaries(h) > 0 && n > 0
    ensures cut < |h| && IsUserTurnBoundary(h[cut].item)
  {
    var last := |h| - 1;
    if !IsUserTurnBoundary(h[last].item) then CutPoint(h[..last], n)
    else if n == 1 || CountBoundaries(h[..last]) == 0 then last
    else CutPoint(h[..last], n - 1)
  }

  predicate AcceptedAfter(e: Entry, boundary: int) {
    && ((e.item.Message? && e.item.role.Assistant?) || (e.item.Tool? && e.item.kind == "function_call"))
    && AcceptanceOrder(e.meta).Some? && AcceptanceOrder(e.meta).value >= boundary
  }

  function WithoutAcceptedAfter(h: seq<Entry>, boundary: int): seq<Entry> {
    if h == [] then [] else (if AcceptedAfter(h[0], boundary) then [] else [h[0]]) + WithoutAcceptedAfter(h[1..], boundary)
  }

  function DropLastUserTurns(h: seq<Entry>, turns: int): seq<Entry> {
    if turns <= 0 || CountBoundaries(h) == 0 then h
    else
      var cut := CutPoint(h, turns);
      var boundary := AcceptanceOrder(h[cut].meta);
      if boundary.None? then h[..cut] else WithoutAcceptedAfter(h[..cut], boundary.value)
  }

  function ForwardRecord(h: seq<Entry>, r: Record): Result<seq<Entry>> {
    match r
    case ResponseItem(e) => Ok(if IsHistoryItem(e) && !IsDelivered(e) then h + [e] else h)
    case Compacted(c) => if c.replacement.None? then Err("a legacy compaction without replacement_history") else Ok(h)
    case EventMsg(event, _) => Ok(if event.RolledBack? then DropLastUserTurns(h, event.turns) else h)
    case InterAgent => Err("multi-agent messages, which this driver never starts")
    case _ => Ok(h)
  }

  function Forward(h: seq<Entry>, records: seq<Record>): Result<seq<Entry>>
    decreases |records|
  {
    if records == [] then Ok(h)
    else
      var next := ForwardRecord(h, records[0]);
      if next.Err? then next else Forward(next.value, records[1..])
  }

  lemma {:induction false} ScanFoundInRange(records: seq<Record>, hi: nat, s: Scan)
    requires hi <= |records|
    requires InRange(records, s)
    ensures InRange(records, ScanBack(records, hi, s))
  {
    if hi > 0 { ScanFoundInRange(records, hi - 1, ScanRecord(s, records[hi - 1], hi - 1)); }
  }

  predicate IsCheckpoint(records: seq<Record>, i: int) {
    i >= 0 ==> i < |records| && records[i].Compacted? && records[i].compaction.replacement.Some?
  }

  predicate InRange(records: seq<Record>, s: Scan) {
    && IsCheckpoint(records, s.found) && s.found >= -1
    && (s.segment.Some? ==> IsCheckpoint(records, s.segment.value.checkpoint) && s.segment.value.checkpoint >= -1)
  }

  /** The checkpoint is always a compaction that carries its replacement history. */
  lemma CheckpointIsReadable(records: seq<Record>, mode: Mode)
    ensures -1 <= ReplayCheckpoint(records, mode) && IsCheckpoint(records, ReplayCheckpoint(records, mode))
  {
    ScanFoundInRange(records, |records|, Scan(0, -1, None));
  }

  function RebuiltHistory(records: seq<Record>, mode: Mode): Result<seq<Entry>> {
    CheckpointIsReadable(records, mode);
    var i := ReplayCheckpoint(records, mode);
    if i < 0 then Forward([], records)
    else Forward(CheckpointHistory(records[i].compaction), records[i + 1..])
  }

  function FirstMeta(records: seq<Record>): Option<Record> {
    if records == [] then None else if records[0].SessionMeta? then Some(records[0]) else FirstMeta(records[1..])
  }

  function ParseMode(m: Option<string>): Option<Mode> {
    if m.None? || m.value == "legacy" then Some(Legacy) else if m.value == "paginated" then Some(Paginated) else None
  }

  function Flat(segments: seq<seq<Record>>): seq<Record> {
    if segments == [] then [] else segments[0] + Flat(segments[1..])
  }

  /** `codexRolloutHistory` over the segments of a lineage, the thread's own last. */
  function RolloutHistory(segments: seq<seq<Record>>, threadId: string): Result<seq<Item>> {
    var own := if segments == [] then [] else segments[|segments| - 1];
    var meta := FirstMeta(own);
    if meta.None? then Err("not a codex rollout (no session_meta)")
    else if !meta.value.SessionMeta? || (threadId != "" && meta.value.id != threadId) then Err("another thread's rollout")
    else
      var mode := ParseMode(meta.value.historyMode);
      if mode.None? then Err("unknown codex history mode")
      else if |segments| > 1 && mode.value.Legacy? then Err("a history base on a thread that is not paginated")
      else
        var h := RebuiltHistory(Flat(segments), mode.value);
        if h.Err? then Err(h.error) else Ok(Plain(h.value))
  }

  /** The replay loop of `codexRolloutHistory`. */
  method Replay(records: seq<Record>, mode: Mode) returns (r: Result<seq<Item>>)
    ensures var h := RebuiltHistory(records, mode); r == if h.Err? then Err(h.error) else Ok(Plain(h.value))
  {
    hide IsHistoryItem, IsDelivered, DropLastUserTurns, CheckpointHistory, Plain, ReplayCheckpoint, IsCheckpoint;
    CheckpointIsReadable(records, mode);
    var checkpoint := FindCheckpoint(records, mode);
    var history := if checkpoint < 0 then [] else CheckpointHistory(records[checkpoint].compaction);
    var i := if checkpoint < 0 then 0 else checkpoint + 1;
    if checkpoint < 0 { assert records[0..] == records; }
    while i < |records|
      invariant 0 <= i <= |records|
      invariant RebuiltHistory(records, mode) == Forward(history, records[i..])
    {
      assert records[i..][1..] == records[i + 1..];
      match records[i] {
        case ResponseItem(e) =>
          if IsHistoryItem(e) && !IsDelivered(e) { history := history + [e]; }
        case Compacted(c) =>
          if c.replacement.None? { return Err("a legacy compaction without replacement_history"); }
        case EventMsg(event, _) =>
          if event.RolledBack? { history := DropLastUserTurns(history, event.turns); }
        case InterAgent =>
          return Err("multi-agent messages, which this driver never starts");
        case _ =>
      }
      i := i + 1;
    }
    return Ok(Plain(history));
  }
}
