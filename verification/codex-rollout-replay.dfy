/**
 The main theorem on rollout replay: what the code rebuilds from a well-formed
 legacy rollout against the naive replay, and exactly when the two agree.
 */
module CodexRolloutReplay {
  import opened Wrappers
  import opened CodexRollout
  import opened CodexRolloutMeaning
  import opened CodexRolloutCheckpoint

  // ---- turns without compactions ------------------------------------------------------

  predicate Plainly(turns: seq<seq<Record>>) { forall i :: 0 <= i < |turns| ==> !HasCompaction(turns[i]) }

  function AllItems(turns: seq<seq<Record>>): seq<Entry> {
    if turns == [] then [] else AllItems(turns[..|turns| - 1]) + Items(turns[|turns| - 1])
  }

  lemma {:induction false} PlayWithout(h: seq<Entry>, body: seq<Record>)
    requires !HasCompaction(body)
    ensures PlayBody(h, body) == h + Items(body)
  {
    if body != [] {
      var init := body[..|body| - 1];
      assert forall j :: 0 <= j < |body| ==> !body[j].Compacted?;
      assert forall j :: 0 <= j < |init| ==> init[j] == body[j];
      PlayWithout(h, init);
    }
  }

  lemma Assoc<T>(x: seq<T>, y: seq<T>, z: seq<T>)
    ensures (x + y) + z == x + (y + z)
  {}

  lemma ItemsPush(body: seq<Record>, r: Record)
    ensures Items(body + [r]) == Items(body) + Items([r])
  {
    hide IsHistoryItem, IsDelivered;
    assert (body + [r])[..|body|] == body && [r][..0] == [];
    assert Items([]) == [];
  }

  lemma PlayPush(h: seq<Entry>, r: Record)
    requires !r.Compacted?
    ensures PlayRecord(h, r) == h + Items([r])
  {
    hide IsHistoryItem, IsDelivered;
    assert [r][..0] == [];
    assert Items([]) == [];
  }

  lemma ItemsOfNone()
    ensures Items([]) == []
  {}

  /** A turn's newest compaction and what follows it are all that is left of it. */
  lemma {:induction false} PlayWith(h: seq<Entry>, body: seq<Record>, id: string)
    requires HasCompaction(body) && forall i :: 0 <= i < |body| ==> InTurn(body[i], id)
    ensures var c := NewestCompaction(body, |body|);
      body[c].compaction.replacement.Some? && PlayBody(h, body) == CheckpointHistory(body[c].compaction) + Items(body[c + 1..])
  {
    hide IsHistoryItem, IsDelivered, CheckpointHistory, AcceptanceOrder, Items;
    var init, last := body[..|body| - 1], body[|body| - 1];
    var c := NewestCompaction(body, |body|);
    assert InTurn(body[c], id);
    if last.Compacted? {
      assert body[|body|..] == [];
      ItemsOfNone();
    } else {
      NewestInPrefix(body, |body| - 1);
      PlayWith(h, init, id);
      assert body[c + 1..] == init[c + 1..] + [last];
      ItemsPush(init[c + 1..], last);
      PlayPush(PlayBody(h, init), last);
      Assoc(CheckpointHistory(body[c].compaction), Items(init[c + 1..]), Items([last]));
    }
  }

  lemma {:induction false} NewestInPrefix(body: seq<Record>, n: nat)
    requires n <= |body|
    ensures NewestCompaction(body[..n], n) == NewestCompaction(body, n)
  {}

  lemma {:induction false} PlayPlainly(h: seq<Entry>, turns: seq<seq<Record>>)
    requires Plainly(turns)
    ensures PlayTurns(h, turns) == h + AllItems(turns)
  {
    hide PlayBody, Items;
    if turns != [] {
      PlayPlainly(h, turns[..|turns| - 1]);
      PlayWithout(h + AllItems(turns[..|turns| - 1]), turns[|turns| - 1]);
    }
  }

  lemma {:induction false} PlayConcat(h: seq<Entry>, a: seq<seq<Record>>, b: seq<seq<Record>>)
    ensures PlayTurns(h, a + b) == PlayTurns(PlayTurns(h, a), b)
  {
    hide PlayBody;
    if b == [] {
      assert a + b == a;
    } else {
      assert (a + b)[..|a + b| - 1] == a + b[..|b| - 1];
      PlayConcat(h, a, b[..|b| - 1]);
    }
  }

  lemma {:induction false} AllItemsConcat(a: seq<seq<Record>>, b: seq<seq<Record>>)
    ensures AllItems(a + b) == AllItems(a) + AllItems(b)
  {
    hide Items;
    if b == [] {
      assert a + b == a;
    } else {
      assert (a + b)[..|a + b| - 1] == a + b[..|b| - 1];
      AllItemsConcat(a, b[..|b| - 1]);
      Assoc(AllItems(a), AllItems(b[..|b| - 1]), Items(b[|b| - 1]));
    }
  }

  lemma {:induction false} PlainTurns(turns: seq<seq<Record>>)
    ensures Plain(StripTurns(turns)) == Plain(AllItems(turns))
  {
    hide Items, Strip;
    if turns != [] {
      var init, last := turns[..|turns| - 1], turns[|turns| - 1];
      PlainTurns(init);
      PlainConcat(StripTurns(init), Strip(Items(last)));
      PlainConcat(AllItems(init), Items(last));
      PlainStrip(Items(last));
    }
  }

  // ---- taking off, twice and from the top ---------------------------------------------

  lemma {:induction false} UsersTakeOff(turns: seq<seq<Record>>, n: nat)
    ensures Users(TakeOff(turns, n)) == Max(0, Users(turns) - n)
  {
    hide IsUser;
    if n > 0 && Users(turns) > 0 {
      TakeOffTop(turns, n);
      UsersTakeOff(turns[..|turns| - 1], if IsUser(turns[|turns| - 1]) then n - 1 else n);
    }
  }

  lemma TakeOffNone(turns: seq<seq<Record>>)
    ensures TakeOff(turns, 0) == turns
  {}

  lemma {:induction false} TakeOffTwice(turns: seq<seq<Record>>, m: nat, n: nat)
    ensures TakeOff(TakeOff(turns, m), n) == TakeOff(turns, m + n)
  {
    hide IsUser;
    if m > 0 && Users(turns) > 0 {
      TakeOffTop(turns, m);
      TakeOffTop(turns, m + n);
      TakeOffTwice(turns[..|turns| - 1], if IsUser(turns[|turns| - 1]) then m - 1 else m, n);
    }
  }

  lemma {:induction false} UsersConcat(a: seq<seq<Record>>, b: seq<seq<Record>>)
    ensures Users(a + b) == Users(a) + Users(b)
  {
    hide IsUser;
    if b == [] {
      assert a + b == a;
    } else {
      assert (a + b)[..|a + b| - 1] == a + b[..|b| - 1];
      UsersConcat(a, b[..|b| - 1]);
    }
  }

  lemma {:induction false} TakeOffSuffix(base: seq<seq<Record>>, turns: seq<seq<Record>>, n: nat)
    requires n <= Users(turns)
    ensures TakeOff(base + turns, n) == base + TakeOff(turns, n)
  {
    hide IsUser;
    if n > 0 {
      var init := turns[..|turns| - 1];
      UsersConcat(base, turns);
      TakeOffTop(turns, n);
      TakeOffTop(base + turns, n);
      assert (base + turns)[..|base + turns| - 1] == base + init;
      TakeOffSuffix(base, init, if IsUser(turns[|turns| - 1]) then n - 1 else n);
    }
  }

  lemma TakeOffPushed(turns: seq<seq<Record>>, body: seq<Record>, n: nat)
    requires n > 0 && Users(turns + [body]) > 0
    ensures TakeOff(turns + [body], n) == TakeOff(turns, if IsUser(body) then n - 1 else n)
  {
    assert (turns + [body])[..|turns|] == turns;
  }

  lemma UsersPushed(turns: seq<seq<Record>>, body: seq<Record>)
    ensures Users(turns + [body]) == Users(turns) + if IsUser(body) then 1 else 0
  {
    assert (turns + [body])[..|turns|] == turns;
  }

  // ---- after the checkpoint -------------------------------------------------------------

  /** The user turns still to skip once `chunks` has been read backwards. */
  function Residual(chunks: seq<Chunk>, k: nat): nat {
    if chunks == [] then k
    else
      var init, last := chunks[..|chunks| - 1], chunks[|chunks| - 1];
      match last
      case Rollback(n) => Residual(init, k + Max(0, n))
      case Aside(_) => Residual(init, k)
      case Turn(_, body, _) => Residual(init, if k > 0 && IsUser(body) then k - 1 else k)
  }

  /** With none left to skip, the rollbacks of `chunks` undid only its own turns. */
  lemma {:induction false} RollbacksStayInside(base: seq<seq<Record>>, chunks: seq<Chunk>, k: nat)
    requires Residual(chunks, k) == 0
    ensures Users(Live([], chunks)) >= k
    ensures Live(base, chunks) == base + Live([], chunks)
    decreases |chunks|
  {
    hide IsUser, HasCompaction;
    if chunks != [] {
      var init, last := chunks[..|chunks| - 1], chunks[|chunks| - 1];
      var turns := Live([], init);
      match last
      case Rollback(n) =>
        RollbacksStayInside(base, init, k + Max(0, n));
        TakeOffSuffix(base, turns, Max(0, n));
        UsersTakeOff(turns, Max(0, n));
      case Aside(_) => RollbacksStayInside(base, init, k);
      case Turn(_, body, _) =>
        RollbacksStayInside(base, init, if k > 0 && IsUser(body) then k - 1 else k);
        UsersPushed(turns, body);
    }
  }

  lemma {:induction false} BoundariesAreUsers(chunks: seq<Chunk>)
    requires WellFormed(chunks)
    ensures CountBoundaries(RealChunks([], chunks)) == Users(Live([], chunks)) && NoOrder(RealChunks([], chunks))
  {
    RealIsLive(chunks);
    StripCount(RealChunks([], chunks));
    TurnsCount(Live([], chunks));
  }

  lemma {:induction false} DropFromSuffix(p: seq<Entry>, q: seq<Entry>, n: int)
    requires Max(0, n) <= CountBoundaries(q) && NoOrder(q)
    ensures DropLastUserTurns(p + q, n) == p + DropLastUserTurns(q, n)
  {
    if n > 0 {
      CutInSuffix(p, q, n);
      var cut := CutPoint(q, n);
      assert (p + q)[|p| + cut] == q[cut];
      assert (p + q)[..|p| + cut] == p + q[..cut];
    }
  }

  lemma {:induction false} CutsStayInside(h: seq<Entry>, chunks: seq<Chunk>, k: nat)
    requires WellFormed(chunks) && Residual(chunks, k) == 0
    ensures RealChunks(h, chunks) == h + RealChunks([], chunks)
    decreases |chunks|
  {
    hide IsUser, Items, DropLastUserTurns;
    if chunks != [] {
      var init, last := chunks[..|chunks| - 1], chunks[|chunks| - 1];
      match last
      case Rollback(n) =>
        CutsStayInside(h, init, k + Max(0, n));
        RollbacksStayInside([], init, k + Max(0, n));
        BoundariesAreUsers(init);
        DropFromSuffix(h, RealChunks([], init), n);
      case Aside(_) => CutsStayInside(h, init, k);
      case Turn(_, body, _) => CutsStayInside(h, init, if k > 0 && IsUser(body) then k - 1 else k);
    }
  }

  /** Above the checkpoint's turn every rollback is spent, and no turn that is
      left there holds a compaction. */
  lemma {:induction false} AboveCheckpoint(chunks: seq<Chunk>, k: nat, j: nat)
    requires CheckpointChunk(chunks, k) == j
    ensures Residual(chunks[j + 1..], k) == 0
    ensures Plainly(TakeOff(Live([], chunks[j + 1..]), k))
    decreases |chunks|
  {
    hide IsUser, HasCompaction;
    var init, last := chunks[..|chunks| - 1], chunks[|chunks| - 1];
    var above := chunks[j + 1..];
    if j == |init| {
      if last.Turn? && k == 0 && HasCompaction(last.body) { assert above == []; }
    } else {
      var k' := match last
        case Rollback(n) => k + Max(0, n)
        case Aside(_) => k
        case Turn(_, body, _) => if k > 0 && IsUser(body) then k - 1 else k;
      AboveCheckpoint(init, k', j);
      assert above[..|above| - 1] == init[j + 1..];
      AboveCheckpointStep(above, k);
    }
  }

  lemma {:induction false} AboveCheckpointStep(above: seq<Chunk>, k: nat)
    requires above != []
    requires var last := above[|above| - 1]; last.Turn? ==> k > 0 || !HasCompaction(last.body)
    requires Residual(above, k) == 0
    requires var last := above[|above| - 1];
      var k' := (match last
        case Rollback(n) => k + Max(0, n)
        case Aside(_) => k
        case Turn(_, body, _) => if k > 0 && IsUser(body) then k - 1 else k);
      Plainly(TakeOff(Live([], above[..|above| - 1]), k'))
    ensures Plainly(TakeOff(Live([], above), k))
  {
    hide IsUser, HasCompaction;
    var last, turns := above[|above| - 1], Live([], above[..|above| - 1]);
    RollbacksStayInside([], above, k);
    match last
    case Rollback(n) => TakeOffTwice(turns, Max(0, n), k);
    case Aside(_) =>
    case Turn(_, body, _) => if k > 0 { TakeOffPushed(turns, body, k); }
  }

  // ---- no checkpoint ----------------------------------------------------------------------

  /** `turns[..m]` hold no user message, and no later turn holds a compaction. */
  predicate SkippedUpTo(turns: seq<seq<Record>>, m: nat) {
    m <= |turns| && Users(turns[..m]) == 0 && Plainly(turns[m..])
  }

  lemma SkippedPushed(turns: seq<seq<Record>>, body: seq<Record>, m: nat)
    requires SkippedUpTo(turns, m) && !HasCompaction(body)
    ensures SkippedUpTo(turns + [body], m)
  {
    assert (turns + [body])[..m] == turns[..m];
    assert (turns + [body])[m..] == turns[m..] + [body];
  }

  lemma SkippedAll(turns: seq<seq<Record>>)
    requires Users(turns) == 0
    ensures SkippedUpTo(turns, |turns|)
  {
    assert turns[..|turns|] == turns;
  }

  /** Without a checkpoint a compaction can be left only among leading turns that
      hold no user message: those a rollback reaching too far has skipped. */
  lemma {:induction false} WithoutCheckpoint(chunks: seq<Chunk>, k: nat) returns (m: nat)
    requires CheckpointChunk(chunks, k) == -1
    ensures SkippedUpTo(TakeOff(Live([], chunks), k), m)
    decreases |chunks|
  {
    hide IsUser, HasCompaction, SkippedUpTo;
    if chunks == [] {
      SkippedAll([]);
      return 0;
    }
    var init, last := chunks[..|chunks| - 1], chunks[|chunks| - 1];
    var turns := Live([], init);
    match last
    case Rollback(n) =>
      m := WithoutCheckpoint(init, k + Max(0, n));
      TakeOffTwice(turns, Max(0, n), k);
    case Aside(_) => m := WithoutCheckpoint(init, k);
    case Turn(_, body, _) =>
      if k > 0 && Users(turns + [body]) == 0 {
        m := |turns| + 1;
        SkippedAll(turns + [body]);
      } else if k > 0 {
        m := WithoutCheckpoint(init, if IsUser(body) then k - 1 else k);
        TakeOffPushed(turns, body, k);
      } else {
        m := WithoutCheckpoint(init, 0);
        SkippedPushed(turns, body, m);
      }
  }

  /** The turns before the first user turn: what a rollback of every user turn would leave. */
  function Lead(turns: seq<seq<Record>>): seq<seq<Record>> { TakeOff(turns, Users(turns)) }

  lemma {:induction false} LeadIsLongest(turns: seq<seq<Record>>, m: nat)
    requires m <= |turns| && Users(turns[..m]) == 0
    ensures m <= |Lead(turns)| <= |turns| && Lead(turns) == turns[..|Lead(turns)|]
  {
    hide IsUser;
    if Users(turns) > 0 {
      var init := turns[..|turns| - 1];
      assert turns[..|turns|] == turns;
      assert init[..m] == turns[..m];
      TakeOffTop(turns, Users(turns));
      LeadIsLongest(init, m);
    } else {
      assert turns[..|turns|] == turns;
    }
  }

  // ---- the theorem ------------------------------------------------------------------------

  lemma {:induction false} FlattenSplit(a: seq<Chunk>, b: seq<Chunk>)
    ensures Flatten(a + b) == Flatten(a) + Flatten(b)
  {
    hide RecordsOf;
    if b == [] {
      assert a + b == a;
    } else {
      var init := b[..|b| - 1];
      assert (a + b)[..|a + b| - 1] == a + init;
      FlattenSplit(a, init);
      Assoc(Flatten(a), Flatten(init), RecordsOf(b[|b| - 1]));
    }
  }

  lemma {:induction false} ForwardTurnTail(h: seq<Entry>, t: Chunk, p: nat)
    requires t.Turn? && p <= |t.body| && forall i :: 0 <= i < |t.body| ==> InTurn(t.body[i], t.id)
    ensures Forward(h, RecordsOf(t)[1 + p..]) == Ok(h + Items(t.body[p..]))
  {
    var rest, tail := t.body[p..], RecordsOf(t)[1 + |t.body|..];
    assert RecordsOf(t)[1 + p..] == rest + tail;
    ForwardBody(h, rest, t.id);
    ForwardConcat(h, rest, tail);
    if tail != [] { assert tail[1..] == []; }
  }

  lemma Middle<T>(a: seq<T>, m: seq<T>, b: seq<T>, p: nat)
    requires p <= |m|
    ensures ((a + m) + b)[|a| + p..] == m[p..] + b
    ensures p < |m| ==> ((a + m) + b)[|a| + p] == m[p]
  {}

  lemma {:induction false} RecordsFrom(chunks: seq<Chunk>, j: nat, p: nat)
    requires j < |chunks| && p <= |RecordsOf(chunks[j])|
    ensures |Flatten(chunks[..j])| + p <= |Flatten(chunks)|
    ensures Flatten(chunks)[|Flatten(chunks[..j])| + p..] == RecordsOf(chunks[j])[p..] + Flatten(chunks[j + 1..])
    ensures p < |RecordsOf(chunks[j])| ==> Flatten(chunks)[|Flatten(chunks[..j])| + p] == RecordsOf(chunks[j])[p]
  {
    var a, b := chunks[..j], chunks[j + 1..];
    assert chunks == a + [chunks[j]] + b;
    FlattenSplit(a + [chunks[j]], b);
    assert (a + [chunks[j]])[..|a|] == a;
    Middle(Flatten(a), RecordsOf(chunks[j]), Flatten(b), p);
  }

  lemma {:induction false} RecordsAtCheckpoint(chunks: seq<Chunk>, j: nat)
    requires j < |chunks| && chunks[j].Turn? && HasCompaction(chunks[j].body)
    ensures var i, c := CheckpointRecord(chunks, j), NewestCompaction(chunks[j].body, |chunks[j].body|);
      && 0 <= i < |Flatten(chunks)|
      && Flatten(chunks)[i] == chunks[j].body[c]
      && Flatten(chunks)[i + 1..] == RecordsOf(chunks[j])[c + 2..] + Flatten(chunks[j + 1..])
  {
    hide IsUser, Flatten;
    var t := chunks[j];
    var c := NewestCompaction(t.body, |t.body|);
    RecordsFrom(chunks, j, c + 2);
    RecordsFrom(chunks, j, c + 1);
    assert RecordsOf(t)[c + 1] == t.body[c];
  }

  lemma RebuiltAt(records: seq<Record>)
    ensures var i := ReplayCheckpoint(records, Legacy);
      i >= 0 ==>
        (i < |records| && records[i].Compacted? && records[i].compaction.replacement.Some?
         && RebuiltHistory(records, Legacy) == Forward(CheckpointHistory(records[i].compaction), records[i + 1..]))
  {
    CheckpointIsReadable(records, Legacy);
  }

  lemma WellFormedAt(chunks: seq<Chunk>, j: nat)
    requires WellFormed(chunks) && j < |chunks| && chunks[j].Turn?
    ensures WellFormedBody(chunks[j].body, chunks[j].id) && WellFormed(chunks[j + 1..])
  {}

  /** From a checkpoint the code goes on from the history its turn leaves. */
  lemma {:induction false} RebuiltFromCheckpoint(chunks: seq<Chunk>, j: nat)
    requires WellFormed(chunks) && j < |chunks| && chunks[j].Turn? && HasCompaction(chunks[j].body)
    requires ReplayCheckpoint(Flatten(chunks), Legacy) == CheckpointRecord(chunks, j)
    ensures RebuiltHistory(Flatten(chunks), Legacy) == Ok(RealChunks(PlayBody([], chunks[j].body), chunks[j + 1..]))
  {
    hide *;
    var t, above := chunks[j], chunks[j + 1..];
    RecordsAtCheckpoint(chunks, j);
    WellFormedAt(chunks, j);
    ForwardPast(t, above);
    RebuiltAt(Flatten(chunks));
  }

  lemma {:induction false} ForwardPast(t: Chunk, above: seq<Chunk>)
    requires t.Turn? && WellFormedBody(t.body, t.id) && HasCompaction(t.body) && WellFormed(above)
    ensures var c := NewestCompaction(t.body, |t.body|);
      && t.body[c].compaction.replacement.Some?
      && Forward(CheckpointHistory(t.body[c].compaction), RecordsOf(t)[c + 2..] + Flatten(above)) ==
         Ok(RealChunks(PlayBody([], t.body), above))
  {
    hide Forward, Flatten, Items, RealChunks, PlayBody, CheckpointHistory, IsUser, NewestCompaction, InTurn;
    var c := NewestCompaction(t.body, |t.body|);
    PlayWith([], t.body, t.id);
    var h := CheckpointHistory(t.body[c].compaction);
    ForwardTurnTail(h, t, c + 1);
    ForwardConcat(h, RecordsOf(t)[c + 2..], Flatten(above));
    ForwardChunks(PlayBody([], t.body), above);
  }

  lemma {:induction false} PlayAnew(g: seq<Entry>, h: seq<Entry>, body: seq<Record>, id: string)
    requires HasCompaction(body) && forall i :: 0 <= i < |body| ==> InTurn(body[i], id)
    ensures PlayBody(g, body) == PlayBody(h, body)
  {
    PlayWith(g, body, id);
    PlayWith(h, body, id);
  }

  lemma {:induction false} LiveConcat(base: seq<seq<Record>>, a: seq<Chunk>, b: seq<Chunk>)
    ensures Live(base, a + b) == Live(Live(base, a), b)
  {
    hide TakeOff;
    if b == [] {
      assert a + b == a;
    } else {
      assert (a + b)[..|a + b| - 1] == a + b[..|b| - 1];
      LiveConcat(base, a, b[..|b| - 1]);
    }
  }

  /** What the code goes on to build above a turn whose rollbacks stay above it. */
  lemma {:induction false} CodeAbove(h: seq<Entry>, above: seq<Chunk>)
    requires WellFormed(above) && Residual(above, 0) == 0
    ensures Plain(RealChunks(h, above)) == Plain(h) + Plain(AllItems(Live([], above)))
  {
    CutsStayInside(h, above, 0);
    RealIsLive(above);
    PlainConcat(h, RealChunks([], above));
    PlainStrip(RealChunks([], above));
    PlainTurns(Live([], above));
  }

  lemma {:induction false} NaiveAbove(before: seq<Chunk>, t: Chunk, above: seq<Chunk>)
    requires t.Turn? && WellFormedBody(t.body, t.id) && HasCompaction(t.body)
    requires Residual(above, 0) == 0 && Plainly(Live([], above))
    ensures NaiveReplay((before + [t]) + above).history == PlayBody([], t.body) + AllItems(Live([], above))
  {
    var left, base := Live([], above), Live([], before) + [t.body];
    assert base[..|base| - 1] == Live([], before);
    assert (before + [t])[..|before|] == before;
    LiveConcat([], before + [t], above);
    RollbacksStayInside(base, above, 0);
    NaiveIsLive((before + [t]) + above);
    PlayConcat([], base, left);
    PlayAnew(PlayTurns([], Live([], before)), [], t.body, t.id);
    PlayPlainly(PlayBody([], t.body), left);
  }

  /** Whenever the scan finds a checkpoint, the code rebuilds what the naive replay holds. */
  lemma {:induction false} CheckpointPreservesMeaning(chunks: seq<Chunk>)
    requires WellFormed(chunks) && !NewestBounds(Flatten(chunks)) && CheckpointChunk(chunks, 0) >= 0
    ensures RebuiltHistory(Flatten(chunks), Legacy).Ok?
    ensures Plain(RebuiltHistory(Flatten(chunks), Legacy).value) == Plain(NaiveReplay(chunks).history)
  {
    hide *;
    var j := CheckpointChunk(chunks, 0);
    CheckpointIsChunk(chunks);
    AboveCheckpoint(chunks, 0, j);
    TakeOffNone(Live([], chunks[j + 1..]));
    FromChunk(chunks, j);
  }

  /** From a turn above which every rollback stays and no compaction is left, both
      replays go on alike. */
  lemma {:induction false} FromChunk(chunks: seq<Chunk>, j: nat)
    requires WellFormed(chunks) && j < |chunks| && chunks[j].Turn? && HasCompaction(chunks[j].body)
    requires ReplayCheckpoint(Flatten(chunks), Legacy) == CheckpointRecord(chunks, j)
    requires Residual(chunks[j + 1..], 0) == 0 && Plainly(Live([], chunks[j + 1..]))
    ensures RebuiltHistory(Flatten(chunks), Legacy).Ok?
    ensures Plain(RebuiltHistory(Flatten(chunks), Legacy).value) == Plain(NaiveReplay(chunks).history)
  {
    hide *;
    var t, before, above := chunks[j], chunks[..j], chunks[j + 1..];
    RebuiltFromCheckpoint(chunks, j);
    WellFormedAt(chunks, j);
    CodeAbove(PlayBody([], t.body), above);
    assert chunks == (before + [t]) + above;
    NaiveAbove(before, t, above);
    PlainConcat(PlayBody([], t.body), AllItems(Live([], above)));
  }

  /** The compactions among the leading turns change nothing a rebuilt thread carries. */
  predicate LeadIsPlain(turns: seq<seq<Record>>) { Plain(PlayTurns([], Lead(turns))) == Plain(AllItems(Lead(turns))) }

  lemma {:induction false} CodeWithoutCheckpoint(chunks: seq<Chunk>)
    requires WellFormed(chunks) && !NewestBounds(Flatten(chunks)) && CheckpointChunk(chunks, 0) < 0
    ensures RebuiltHistory(Flatten(chunks), Legacy).Ok?
    ensures Plain(RebuiltHistory(Flatten(chunks), Legacy).value) == Plain(AllItems(Live([], chunks)))
  {
    CheckpointIsChunk(chunks);
    ForwardChunks([], chunks);
    RealIsLive(chunks);
    PlainStrip(RealChunks([], chunks));
    PlainTurns(Live([], chunks));
  }

  lemma {:induction false} RestIsPlain(lead: seq<seq<Record>>, rest: seq<seq<Record>>)
    requires Plainly(rest)
    ensures Plain(PlayTurns([], lead + rest)) == Plain(PlayTurns([], lead)) + Plain(AllItems(rest))
    ensures Plain(AllItems(lead + rest)) == Plain(AllItems(lead)) + Plain(AllItems(rest))
  {
    PlayConcat([], lead, rest);
    PlayPlainly(PlayTurns([], lead), rest);
    AllItemsConcat(lead, rest);
    PlainConcat(PlayTurns([], lead), AllItems(rest));
    PlainConcat(AllItems(lead), AllItems(rest));
  }

  lemma SameTail<T>(a: seq<T>, b: seq<T>, c: seq<T>)
    ensures a + c == b + c <==> a == b
  {
    if a + c == b + c {
      assert |a| == |b|;
      assert a == (a + c)[..|a|] && b == (b + c)[..|b|];
    }
  }

  lemma {:induction false} PlainAbove(turns: seq<seq<Record>>, m: nat, n: nat)
    requires m <= n <= |turns| && Plainly(turns[m..])
    ensures Plainly(turns[n..])
  {
    forall i | 0 <= i < |turns[n..]| ensures !HasCompaction(turns[n..][i]) {
      assert turns[n..][i] == turns[m..][i + n - m];
    }
  }

  lemma {:induction false} WithoutCheckpointMeaning(chunks: seq<Chunk>)
    requires WellFormed(chunks) && CheckpointChunk(chunks, 0) < 0
    ensures Plain(AllItems(Live([], chunks))) == Plain(NaiveReplay(chunks).history) <==> LeadIsPlain(Live([], chunks))
  {
    var turns := Live([], chunks);
    NaiveIsLive(chunks);
    var m := WithoutCheckpoint(chunks, 0);
    LeadIsLongest(turns, m);
    var lead, rest := Lead(turns), turns[|Lead(turns)|..];
    assert turns == lead + rest;
    PlainAbove(turns, m, |lead|);
    RestIsPlain(lead, rest);
    SameTail(Plain(PlayTurns([], lead)), Plain(AllItems(lead)), Plain(AllItems(rest)));
  }

  /** The main theorem: on every well-formed legacy rollout the code scans, it
      rebuilds a history, and that carries exactly what the naive replay's does if
      and only if counting the rollbacks back over the turns reaches one with a
      compaction while none is left to skip, or no compaction in the turns before
      the first user turn left changed anything. */
  lemma {:induction false} ReplayPreservesMeaning(chunks: seq<Chunk>)
    requires WellFormed(chunks) && !NewestBounds(Flatten(chunks))
    ensures RebuiltHistory(Flatten(chunks), Legacy).Ok?
    ensures Plain(RebuiltHistory(Flatten(chunks), Legacy).value) == Plain(NaiveReplay(chunks).history) <==>
      CheckpointChunk(chunks, 0) >= 0 || LeadIsPlain(Live([], chunks))
  {
    CheckpointIsChunk(chunks);
    if CheckpointChunk(chunks, 0) >= 0 {
      CheckpointPreservesMeaning(chunks);
    } else {
      CodeWithoutCheckpoint(chunks);
      WithoutCheckpointMeaning(chunks);
    }
  }

  // ---- rollbacks that name no more turns than there are -------------------------------------

  /** No rollback names more user turns than are left when it happens. */
  predicate NoOverrun(chunks: seq<Chunk>) {
    if chunks == [] then true
    else
      var init, last := chunks[..|chunks| - 1], chunks[|chunks| - 1];
      NoOverrun(init) && (last.Rollback? ==> last.turns <= Users(Live([], init)))
  }

  lemma {:induction false} NothingSkipped(chunks: seq<Chunk>, k: nat)
    requires CheckpointChunk(chunks, k) == -1 && NoOverrun(chunks) && k <= Users(Live([], chunks))
    ensures Plainly(TakeOff(Live([], chunks), k))
    decreases |chunks|
  {
    hide IsUser, HasCompaction;
    if chunks != [] {
      var init, last := chunks[..|chunks| - 1], chunks[|chunks| - 1];
      var turns := Live([], init);
      match last
      case Rollback(n) =>
        UsersTakeOff(turns, Max(0, n));
        NothingSkipped(init, k + Max(0, n));
        TakeOffTwice(turns, Max(0, n), k);
      case Aside(_) => NothingSkipped(init, k);
      case Turn(_, body, _) =>
        UsersPushed(turns, body);
        NothingSkipped(init, if k > 0 && IsUser(body) then k - 1 else k);
        if k > 0 { TakeOffPushed(turns, body, k); }
    }
  }

  /** So a rollout whose rollbacks never overrun always comes back as it was. */
  lemma {:induction false} ReplayWithoutOverrun(chunks: seq<Chunk>)
    requires WellFormed(chunks) && NoOverrun(chunks) && !NewestBounds(Flatten(chunks))
    ensures RebuiltHistory(Flatten(chunks), Legacy).Ok?
    ensures Plain(RebuiltHistory(Flatten(chunks), Legacy).value) == Plain(NaiveReplay(chunks).history)
  {
    hide *;
    if CheckpointChunk(chunks, 0) < 0 {
      NothingSkipped(chunks, 0);
      TakeOffNone(Live([], chunks));
      CodeWithoutCheckpoint(chunks);
      NaiveIsLive(chunks);
      PlayPlainly([], Live([], chunks));
      assert [] + AllItems(Live([], chunks)) == AllItems(Live([], chunks));
    } else {
      CheckpointPreservesMeaning(chunks);
    }
  }

  /** `codexRolloutHistory` on the one segment of such a rollout. */
  lemma {:induction false} HistoryOfOneRollout(chunks: seq<Chunk>, threadId: string)
    requires WellFormed(chunks) && NoOverrun(chunks) && !NewestBounds(Flatten(chunks))
    requires var meta := FirstMeta(Flatten(chunks));
      && meta.Some? && meta.value.SessionMeta? && (threadId == "" || meta.value.id == threadId)
      && ParseMode(meta.value.historyMode) == Some(Legacy)
    ensures RolloutHistory([Flatten(chunks)], threadId) == Ok(Plain(NaiveReplay(chunks).history))
  {
    hide Flatten, FirstMeta, ParseMode, RebuiltHistory, Plain, NaiveReplay, WellFormed, NoOverrun;
    ReplayWithoutOverrun(chunks);
    assert [Flatten(chunks)][1..] == [] && Flat([]) == [];
    assert Flat([Flatten(chunks)]) == Flatten(chunks) + [] == Flatten(chunks);
  }
}
