/**
 Rollout replay preserves meaning: on a legacy rollout made of turns and
 rollbacks between them, starting from a checkpoint and cutting user turns off
 the end rebuilds the plain conversation a naive replay keeps by snapshots.
 */
module CodexRolloutMeaning {
  import opened Wrappers
  import opened CodexRollout

  // ---- rollouts in turns --------------------------------------------------------------

  datatype End = Completed | Aborted | Unfinished
  datatype Chunk = Turn(id: string, body: seq<Record>, end: End) | Rollback(turns: int) | Aside(record: Record)

  function RecordsOf(c: Chunk): seq<Record> {
    match c
    case Turn(id, body, end) =>
      [EventMsg(TurnStarted, Some(id))] + body +
      (match end
       case Completed => [EventMsg(TurnComplete, Some(id))]
       case Aborted => [EventMsg(TurnAborted, Some(id))]
       case Unfinished => [])
    case Rollback(turns) => [EventMsg(RolledBack(turns), None)]
    case Aside(r) => [r]
  }

  function Flatten(chunks: seq<Chunk>): seq<Record> {
    if chunks == [] then [] else Flatten(chunks[..|chunks| - 1]) + RecordsOf(chunks[|chunks| - 1])
  }

  /** The items a turn's records add to the history. */
  function Items(body: seq<Record>): seq<Entry> {
    if body == [] then []
    else
      var last := body[|body| - 1];
      Items(body[..|body| - 1]) +
      if last.ResponseItem? && IsHistoryItem(last.entry) && !IsDelivered(last.entry) then [last.entry] else []
  }

  predicate IsUser(body: seq<Record>) { CountBoundaries(Items(body)) > 0 }

  predicate HasCompaction(body: seq<Record>) { NewestCompaction(body, |body|) >= 0 }

  /** An instruction or a context item: nothing a rebuilt thread carries. */
  predicate Inert(e: Entry) { PlainItem(e.item) == [] && !IsUserTurnBoundary(e.item) }

  /** What may stand inside a turn: no acceptance order, readable compactions, and
      its own id only. */
  predicate InTurn(r: Record, id: string) {
    match r
    case ResponseItem(e) => AcceptanceOrder(e.meta).None?
    case Compacted(c) => c.replacement.Some?
    case TurnContext(turn) => turn.None? || turn == Some(id)
    case InterAgent => false
    case EventMsg(event, _) => event.UserMessage? || event.OtherEvent?
    case _ => true
  }

  /** A user turn has one real user message, with only inert items before it;
      any other turn has none, and no user_message event either. */
  predicate WellFormedBody(body: seq<Record>, id: string) {
    && (forall i :: 0 <= i < |body| ==> InTurn(body[i], id))
    && (if IsUser(body)
        then CountBoundaries(Items(body)) == 1
          && forall i :: 0 <= i < CutPoint(Items(body), 1) ==> Inert(Items(body)[i])
        else forall i :: 0 <= i < |body| && body[i].EventMsg? ==> !body[i].event.UserMessage?)
  }

  predicate WellFormed(chunks: seq<Chunk>) {
    forall i :: 0 <= i < |chunks| ==>
      match chunks[i]
      case Turn(id, body, _) => WellFormedBody(body, id)
      case Rollback(_) => true
      case Aside(r) => r.SessionMeta? || r.OtherRecord? || (r.EventMsg? && r.event.OtherEvent?)
  }

  // ---- the naive replay ---------------------------------------------------------------

  function PlayRecord(h: seq<Entry>, r: Record): seq<Entry> {
    match r
    case ResponseItem(e) => if IsHistoryItem(e) && !IsDelivered(e) then h + [e] else h
    case Compacted(c) => if c.replacement.Some? then CheckpointHistory(c) else h
    case _ => h
  }

  /** The history after a turn, replaced at each compaction. */
  function PlayBody(h: seq<Entry>, body: seq<Record>): seq<Entry> {
    if body == [] then h else PlayRecord(PlayBody(h, body[..|body| - 1]), body[|body| - 1])
  }

  /** The history now, and as it was before each user turn still in it. */
  datatype Naive = Naive(history: seq<Entry>, snapshots: seq<seq<Entry>>)

  function NaiveChunk(n: Naive, c: Chunk): Naive {
    match c
    case Turn(_, body, _) =>
      Naive(PlayBody(n.history, body), if IsUser(body) then n.snapshots + [n.history] else n.snapshots)
    case Rollback(turns) =>
      if turns <= 0 || n.snapshots == [] then n
      else
        var m := Max(0, |n.snapshots| - turns);
        Naive(n.snapshots[m], n.snapshots[..m])
    case Aside(_) => n
  }

  function NaiveReplay(chunks: seq<Chunk>): Naive {
    if chunks == [] then Naive([], []) else NaiveChunk(NaiveReplay(chunks[..|chunks| - 1]), chunks[|chunks| - 1])
  }

  // ---- the turns that are left --------------------------------------------------------

  function Users(turns: seq<seq<Record>>): nat {
    if turns == [] then 0 else Users(turns[..|turns| - 1]) + if IsUser(turns[|turns| - 1]) then 1 else 0
  }

  /** Taking the newest `n` user turns off, with what came after them; with fewer
      than `n`, what came before the first stays. */
  function TakeOff(turns: seq<seq<Record>>, n: nat): seq<seq<Record>> {
    if n == 0 || Users(turns) == 0 then turns
    else TakeOff(turns[..|turns| - 1], if IsUser(turns[|turns| - 1]) then n - 1 else n)
  }

  /** The bodies of the turns a rollout leaves, on top of `base`. */
  function Live(base: seq<seq<Record>>, chunks: seq<Chunk>): seq<seq<Record>> {
    if chunks == [] then base
    else
      var before, last := Live(base, chunks[..|chunks| - 1]), chunks[|chunks| - 1];
      match last
      case Turn(_, body, _) => before + [body]
      case Rollback(turns) => TakeOff(before, Max(0, turns))
      case Aside(_) => before
  }

  function PlayTurns(h: seq<Entry>, turns: seq<seq<Record>>): seq<Entry> {
    if turns == [] then h else PlayBody(PlayTurns(h, turns[..|turns| - 1]), turns[|turns| - 1])
  }

  function Snapshots(turns: seq<seq<Record>>): (s: seq<seq<Entry>>)
    ensures |s| == Users(turns)
  {
    if turns == [] then []
    else
      Snapshots(turns[..|turns| - 1]) + if IsUser(turns[|turns| - 1]) then [PlayTurns([], turns[..|turns| - 1])] else []
  }

  lemma TakeOffTop(turns: seq<seq<Record>>, n: nat)
    requires n > 0 && Users(turns) > 0
    ensures TakeOff(turns, n) == TakeOff(turns[..|turns| - 1], if IsUser(turns[|turns| - 1]) then n - 1 else n)
  {}

  lemma {:induction false} TakeOffSnapshots(turns: seq<seq<Record>>, n: nat)
    requires n > 0 && Users(turns) > 0
    ensures var m := Max(0, Users(turns) - n);
      && m < Users(turns)
      && PlayTurns([], TakeOff(turns, n)) == Snapshots(turns)[m]
      && Snapshots(TakeOff(turns, n)) == Snapshots(turns)[..m]
  {
    hide IsUser, PlayBody;
    var init, user := turns[..|turns| - 1], IsUser(turns[|turns| - 1]);
    TakeOffTop(turns, n);
    if !user {
      TakeOffSnapshots(init, n);
    } else if n > 1 && Users(init) > 0 {
      TakeOffSnapshots(init, n - 1);
    } else {
      assert TakeOff(init, n - 1) == init;
    }
  }

  /** The naive replay holds the history of the turns left, and its snapshots
      are the histories before the user turns among them. */
  lemma {:induction false} NaiveIsLive(chunks: seq<Chunk>)
    ensures NaiveReplay(chunks) == Naive(PlayTurns([], Live([], chunks)), Snapshots(Live([], chunks)))
  {
    hide PlayBody, IsUser;
    if chunks != [] {
      var init, last := chunks[..|chunks| - 1], chunks[|chunks| - 1];
      NaiveIsLive(init);
      var turns := Live([], init);
      if last.Rollback? && last.turns > 0 && Users(turns) > 0 {
        TakeOffSnapshots(turns, last.turns);
      } else if last.Turn? {
        assert (turns + [last.body])[..|turns|] == turns;
      }
    }
  }

  // ---- the code's forward replay, in turns ----------------------------------------------

  function RealChunks(h: seq<Entry>, chunks: seq<Chunk>): seq<Entry> {
    if chunks == [] then h
    else
      var before, last := RealChunks(h, chunks[..|chunks| - 1]), chunks[|chunks| - 1];
      match last
      case Turn(_, body, _) => before + Items(body)
      case Rollback(turns) => DropLastUserTurns(before, turns)
      case Aside(_) => before
  }

  lemma {:induction false} ForwardConcat(h: seq<Entry>, a: seq<Record>, b: seq<Record>)
    requires Forward(h, a).Ok?
    ensures Forward(h, a + b) == Forward(Forward(h, a).value, b)
    decreases |a|
  {
    if a == [] {
      assert a + b == b;
    } else {
      assert (a + b)[1..] == a[1..] + b;
      ForwardConcat(ForwardRecord(h, a[0]).value, a[1..], b);
    }
  }

  lemma {:induction false} ForwardBody(h: seq<Entry>, body: seq<Record>, id: string)
    requires forall i :: 0 <= i < |body| ==> InTurn(body[i], id)
    ensures Forward(h, body) == Ok(h + Items(body))
  {
    hide IsHistoryItem, IsDelivered, AcceptanceOrder;
    if body == [] {
      assert h + [] == h;
    } else {
      var init, last := body[..|body| - 1], body[|body| - 1];
      ForwardBody(h, init, id);
      ForwardConcat(h, init, [last]);
      assert body == init + [last];
      assert Forward(h + Items(init), [last]) == ForwardRecord(h + Items(init), last) by {
        assert [last][1..] == [];
      }
      var added := if last.ResponseItem? && IsHistoryItem(last.entry) && !IsDelivered(last.entry) then [last.entry] else [];
      assert h + Items(init) + [] == h + Items(init);
      assert ForwardRecord(h + Items(init), last) == Ok(h + Items(init) + added);
      assert h + Items(init) + added == h + (Items(init) + added);
    }
  }

  lemma {:induction false} ForwardTurn(h: seq<Entry>, id: string, body: seq<Record>, end: End)
    requires forall i :: 0 <= i < |body| ==> InTurn(body[i], id)
    ensures Forward(h, RecordsOf(Turn(id, body, end))) == Ok(h + Items(body))
  {
    var start := [EventMsg(TurnStarted, Some(id))];
    var tail := RecordsOf(Turn(id, body, end))[1 + |body|..];
    assert RecordsOf(Turn(id, body, end)) == start + (body + tail);
    assert start[1..] == [];
    ForwardConcat(h, start, body + tail);
    ForwardBody(h, body, id);
    ForwardConcat(h, body, tail);
    if tail != [] { assert tail[1..] == []; }
  }

  lemma {:induction false} ForwardChunks(h: seq<Entry>, chunks: seq<Chunk>)
    requires WellFormed(chunks)
    ensures Forward(h, Flatten(chunks)) == Ok(RealChunks(h, chunks))
  {
    hide IsHistoryItem, IsDelivered, IsUser, Items, DropLastUserTurns;
    if chunks != [] {
      var init, last := chunks[..|chunks| - 1], chunks[|chunks| - 1];
      ForwardChunks(h, init);
      ForwardConcat(h, Flatten(init), RecordsOf(last));
      var h1 := RealChunks(h, init);
      if last.Turn? {
        ForwardTurn(h1, last.id, last.body, last.end);
      } else {
        assert RecordsOf(last)[1..] == [];
      }
    }
  }

  // ---- boundaries and what is inert -----------------------------------------------------

  lemma {:induction false} CountConcat(a: seq<Entry>, b: seq<Entry>)
    ensures CountBoundaries(a + b) == CountBoundaries(a) + CountBoundaries(b)
  {
    if b == [] {
      assert a + b == a;
    } else {
      assert (a + b)[..|a + b| - 1] == a + b[..|b| - 1];
      CountConcat(a, b[..|b| - 1]);
    }
  }

  /** A cut that the newest part reaches is a cut of that part. */
  lemma {:induction false} CutInSuffix(p: seq<Entry>, q: seq<Entry>, n: nat)
    requires 0 < n <= CountBoundaries(q)
    ensures CountBoundaries(p + q) >= n && CutPoint(p + q, n) == |p| + CutPoint(q, n)
  {
    CountConcat(p, q);
    var init, last := q[..|q| - 1], q[|q| - 1];
    assert (p + q)[..|p + q| - 1] == p + init && (p + q)[|p + q| - 1] == last;
    CountConcat(p, init);
    if !IsUserTurnBoundary(last.item) {
      CutInSuffix(p, init, n);
    } else if n > 1 {
      CutInSuffix(p, init, n - 1);
    }
  }

  /** What follows the last boundary does not move a cut. */
  lemma {:induction false} CutBefore(s: seq<Entry>, y: seq<Entry>, n: nat)
    requires n > 0 && CountBoundaries(y) == 0 && CountBoundaries(s) > 0
    ensures CountBoundaries(s + y) == CountBoundaries(s) && CutPoint(s + y, n) == CutPoint(s, n)
  {
    CountConcat(s, y);
    if y == [] {
      assert s + y == s;
    } else {
      assert (s + y)[..|s + y| - 1] == s + y[..|y| - 1];
      CutBefore(s, y[..|y| - 1], n);
    }
  }

  function Strip(h: seq<Entry>): seq<Entry> {
    if h == [] then [] else Strip(h[..|h| - 1]) + if Inert(h[|h| - 1]) then [] else [h[|h| - 1]]
  }

  lemma StripLast(h: seq<Entry>)
    requires h != []
    ensures var init, last := h[..|h| - 1], h[|h| - 1];
      Strip(h) == if Inert(last) then Strip(init) else Strip(init) + [last]
  {}

  lemma {:induction false} StripConcat(a: seq<Entry>, b: seq<Entry>)
    ensures Strip(a + b) == Strip(a) + Strip(b)
  {
    if b == [] {
      assert a + b == a;
    } else {
      assert (a + b)[..|a + b| - 1] == a + b[..|b| - 1];
      StripConcat(a, b[..|b| - 1]);
    }
  }

  lemma {:induction false} StripCount(h: seq<Entry>)
    ensures CountBoundaries(Strip(h)) == CountBoundaries(h)
  {
    if h != [] {
      var init, last := h[..|h| - 1], h[|h| - 1];
      StripCount(init);
      StripLast(h);
      if !Inert(last) { assert (Strip(init) + [last])[..|Strip(init)|] == Strip(init); }
    }
  }

  lemma {:induction false} PlainConcat(a: seq<Entry>, b: seq<Entry>)
    ensures Plain(a + b) == Plain(a) + Plain(b)
  {
    if a == [] {
      assert a + b == b;
    } else {
      assert (a + b)[1..] == a[1..] + b;
      PlainConcat(a[1..], b);
    }
  }

  lemma {:induction false} PlainStrip(h: seq<Entry>)
    ensures Plain(Strip(h)) == Plain(h)
  {
    if h != [] {
      var init, last := h[..|h| - 1], h[|h| - 1];
      PlainStrip(init);
      StripLast(h);
      assert h == init + [last];
      PlainConcat(init, [last]);
      if Inert(last) { assert Plain([last]) == PlainItem(last.item) + Plain([last][1..]); }
      else { PlainConcat(Strip(init), [last]); }
    }
  }

  lemma CutAtReply(h: seq<Entry>, n: nat)
    requires n > 0 && CountBoundaries(h) > 0 && !IsUserTurnBoundary(h[|h| - 1].item)
    ensures var init := h[..|h| - 1];
      CountBoundaries(init) > 0 && CutPoint(h, n) == CutPoint(init, n) && h[..CutPoint(h, n)] == init[..CutPoint(init, n)]
  {}

  lemma CutAtBoundary(h: seq<Entry>, n: nat)
    requires n > 0 && h != [] && IsUserTurnBoundary(h[|h| - 1].item)
    ensures var init := h[..|h| - 1];
      CountBoundaries(h) > 0 && h[..CutPoint(h, n)] == if n == 1 || CountBoundaries(init) == 0 then init else init[..CutPoint(init, n - 1)]
  {}

  /** Cutting commutes with leaving out what is inert. */
  lemma {:induction false} CutStrip(h: seq<Entry>, n: nat)
    requires n > 0 && CountBoundaries(h) > 0
    ensures CountBoundaries(Strip(h)) > 0
    ensures Strip(h[..CutPoint(h, n)]) == Strip(h)[..CutPoint(Strip(h), n)]
  {
    hide PlainItem, IsUserTurnBoundary;
    var init, last := h[..|h| - 1], h[|h| - 1];
    StripCount(init);
    StripLast(h);
    if !IsUserTurnBoundary(last.item) {
      CutAtReply(h, n);
      CutStrip(init, n);
      if !Inert(last) { CutAtLast(Strip(init), last, n); }
    } else {
      CutAtBoundary(h, n);
      CutAtLast(Strip(init), last, n);
      if n > 1 && CountBoundaries(init) > 0 { CutStrip(init, n - 1); }
    }
  }

  lemma CutAtLast(s: seq<Entry>, last: Entry, n: nat)
    requires n > 0 && (CountBoundaries(s) > 0 || IsUserTurnBoundary(last.item))
    ensures CountBoundaries(s + [last]) > 0
    ensures CutPoint(s + [last], n) ==
      if !IsUserTurnBoundary(last.item) then CutPoint(s, n)
      else if n == 1 || CountBoundaries(s) == 0 then |s| else CutPoint(s, n - 1)
  {
    assert (s + [last])[..|s|] == s;
  }

  // ---- the turns a cut takes off --------------------------------------------------------

  predicate NoOrder(h: seq<Entry>) { forall i :: 0 <= i < |h| ==> AcceptanceOrder(h[i].meta).None? }

  /** What the argument needs of a well-formed turn. */
  predicate Shaped(body: seq<Record>) {
    && NoOrder(Items(body))
    && (IsUser(body) ==> CountBoundaries(Items(body)) == 1)
    && (IsUser(body) ==> forall i :: 0 <= i < CutPoint(Items(body), 1) ==> Inert(Items(body)[i]))
  }

  predicate AllShaped(turns: seq<seq<Record>>) { forall i :: 0 <= i < |turns| ==> Shaped(turns[i]) }

  lemma {:induction false} ItemsHaveNoOrder(body: seq<Record>, id: string)
    requires forall i :: 0 <= i < |body| ==> InTurn(body[i], id)
    ensures NoOrder(Items(body))
  {
    if body != [] { ItemsHaveNoOrder(body[..|body| - 1], id); }
  }

  lemma {:induction false} InertStrips(h: seq<Entry>)
    requires forall i :: 0 <= i < |h| ==> Inert(h[i])
    ensures Strip(h) == [] && CountBoundaries(h) == 0
  {
    if h != [] { InertStrips(h[..|h| - 1]); }
  }

  /** A user turn leaves its one boundary first, once what is inert is left out. */
  lemma {:induction false} UserTurnStrips(body: seq<Record>) returns (b: Entry, y: seq<Entry>)
    requires Shaped(body) && IsUser(body)
    ensures Strip(Items(body)) == [b] + y && IsUserTurnBoundary(b.item) && CountBoundaries(y) == 0
  {
    var h := Items(body);
    var cut := CutPoint(h, 1);
    b, y := h[cut], Strip(h[cut + 1..]);
    assert h == h[..cut] + ([b] + h[cut + 1..]);
    InertStrips(h[..cut]);
    StripConcat(h[..cut], [b] + h[cut + 1..]);
    CountConcat(h[..cut], [b] + h[cut + 1..]);
    StripFirst(b, h[cut + 1..]);
    StripCount(h[cut + 1..]);
  }

  lemma {:induction false} StripFirst(b: Entry, rest: seq<Entry>)
    requires IsUserTurnBoundary(b.item)
    ensures Strip([b] + rest) == [b] + Strip(rest) && CountBoundaries([b] + rest) == 1 + CountBoundaries(rest)
  {
    StripConcat([b], rest);
    CountConcat([b], rest);
    assert [b][..0] == [];
    assert Strip([b]) == Strip([]) + [b] && CountBoundaries([b]) == CountBoundaries([]) + 1;
  }

  function StripTurns(turns: seq<seq<Record>>): seq<Entry> {
    if turns == [] then [] else StripTurns(turns[..|turns| - 1]) + Strip(Items(turns[|turns| - 1]))
  }

  lemma {:induction false} TurnsCount(turns: seq<seq<Record>>)
    requires AllShaped(turns)
    ensures CountBoundaries(StripTurns(turns)) == Users(turns)
  {
    if turns != [] {
      var init, last := turns[..|turns| - 1], turns[|turns| - 1];
      TurnsCount(init);
      CountConcat(StripTurns(init), Strip(Items(last)));
      StripCount(Items(last));
    }
  }

  /** Cutting at the newest `n`-th boundary takes off exactly the newest `n` user turns. */
  lemma {:induction false} CutTurns(turns: seq<seq<Record>>, n: nat)
    requires AllShaped(turns) && n > 0 && Users(turns) > 0
    ensures CountBoundaries(StripTurns(turns)) > 0
    ensures StripTurns(turns)[..CutPoint(StripTurns(turns), n)] == StripTurns(TakeOff(turns, n))
  {
    var init, last := turns[..|turns| - 1], turns[|turns| - 1];
    var s := StripTurns(init);
    TurnsCount(turns);
    TurnsCount(init);
    TakeOffTop(turns, n);
    if !IsUser(last) {
      StripCount(Items(last));
      CutBefore(s, Strip(Items(last)), n);
      CutTurns(init, n);
    } else {
      var b, y := UserTurnStrips(last);
      CutAtUserTurn(s, b, y, n);
      if n > 1 && Users(init) > 0 { CutTurns(init, n - 1); }
      else { assert TakeOff(init, n - 1) == init; }
    }
  }

  lemma {:induction false} CutAtUserTurn(s: seq<Entry>, b: Entry, y: seq<Entry>, n: nat)
    requires n > 0 && IsUserTurnBoundary(b.item) && CountBoundaries(y) == 0
    ensures CountBoundaries(s + ([b] + y)) > 0
    ensures var cut := CutPoint(s + ([b] + y), n);
      (s + ([b] + y))[..cut] == if n == 1 || CountBoundaries(s) == 0 then s else s[..CutPoint(s, n - 1)]
  {
    assert (s + [b])[..|s|] == s;
    assert s + ([b] + y) == s + [b] + y;
    CutBefore(s + [b], y, n);
  }

  /** The history `h` is that of `turns`, but for what is inert. */
  predicate Holds(h: seq<Entry>, turns: seq<seq<Record>>) {
    AllShaped(turns) && NoOrder(h) && Strip(h) == StripTurns(turns)
  }

  lemma {:induction false} TurnHolds(h: seq<Entry>, turns: seq<seq<Record>>, body: seq<Record>, id: string)
    requires Holds(h, turns) && WellFormedBody(body, id)
    ensures Holds(h + Items(body), turns + [body])
  {
    hide IsUserTurnBoundary, PlainItem, Strip, IsUser;
    ItemsHaveNoOrder(body, id);
    StripConcat(h, Items(body));
    assert (turns + [body])[..|turns|] == turns;
  }

  lemma {:induction false} RollbackHolds(h: seq<Entry>, turns: seq<seq<Record>>, n: int)
    requires Holds(h, turns)
    ensures Holds(DropLastUserTurns(h, n), TakeOff(turns, Max(0, n)))
  {
    hide IsUserTurnBoundary, PlainItem, IsUser, Strip, StripTurns, Shaped;
    StripCount(h);
    TurnsCount(turns);
    TakeOffShaped(turns, Max(0, n));
    if n > 0 && Users(turns) > 0 {
      CutStrip(h, n);
      CutTurns(turns, n);
    }
  }

  /** The code's replay from an empty history holds, but for what is inert, the
      items of the turns that are left. */
  lemma {:induction false} RealIsLive(chunks: seq<Chunk>)
    requires WellFormed(chunks)
    ensures Holds(RealChunks([], chunks), Live([], chunks))
  {
    if chunks != [] {
      hide Holds, Items, DropLastUserTurns, TakeOff, WellFormedBody;
      var init, last := chunks[..|chunks| - 1], chunks[|chunks| - 1];
      RealIsLive(init);
      match last
      case Turn(id, body, _) => TurnHolds(RealChunks([], init), Live([], init), body, id);
      case Rollback(n) => RollbackHolds(RealChunks([], init), Live([], init), n);
      case Aside(_) =>
    }
  }

  lemma {:induction false} TakeOffShaped(turns: seq<seq<Record>>, n: nat)
    requires AllShaped(turns)
    ensures AllShaped(TakeOff(turns, n)) && |TakeOff(turns, n)| <= |turns| && TakeOff(turns, n) == turns[..|TakeOff(turns, n)|]
  {
    if n > 0 && Users(turns) > 0 {
      TakeOffTop(turns, n);
      TakeOffShaped(turns[..|turns| - 1], if IsUser(turns[|turns| - 1]) then n - 1 else n);
    }
  }
}
