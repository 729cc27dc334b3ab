/**
 Rollouts whose newest compaction bounds the replay by itself. The code starts
 from it whatever was rolled back later; here what that rebuilds, what the
 naive replay holds, and exactly when the two agree.
 */
module CodexRolloutBounded {
  import opened Wrappers
  import opened CodexRollout
  import opened CodexRolloutMeaning
  import opened CodexRolloutCheckpoint
  import opened CodexRolloutReplay

  // ---- no compaction above the newest -----------------------------------------------------

  lemma {:induction false} TakeOffIsPrefix(turns: seq<seq<Record>>, n: nat)
    ensures TakeOff(turns, n) <= turns
  {
    if n > 0 && Users(turns) > 0 {
      hide IsUser;
      TakeOffTop(turns, n);
      TakeOffIsPrefix(turns[..|turns| - 1], if IsUser(turns[|turns| - 1]) then n - 1 else n);
    }
  }

  lemma {:induction false} NoneAfterNewest(chunks: seq<Chunk>, j: nat)
    requires NewestChunk(chunks) == j
    ensures NewestChunk(chunks[j + 1..]) < 0
    decreases |chunks|
  {
    hide HasCompaction;
    var init := chunks[..|chunks| - 1];
    if j < |init| {
      NoneAfterNewest(init, j);
      assert chunks[j + 1..][..|chunks[j + 1..]| - 1] == init[j + 1..];
    }
  }

  // ---- what is below the newest turns -----------------------------------------------------

  /** The turns of `chunks` that stay above whatever is below them: a rollback of
      more user turns than they hold takes all of them. */
  function Top(chunks: seq<Chunk>): seq<seq<Record>> {
    if chunks == [] then []
    else
      var before, last := Top(chunks[..|chunks| - 1]), chunks[|chunks| - 1];
      match last
      case Turn(_, body, _) => before + [body]
      case Rollback(n) => if n <= Users(before) then TakeOff(before, Max(0, n)) else []
      case Aside(_) => before
  }

  /** The turns `base` as `chunks` leaves them: a rollback that reaches below the
      top takes user turns off; once none is left, it spares what came before the
      first user turn of the top. */
  function TurnsBelow(base: seq<seq<Record>>, chunks: seq<Chunk>): seq<seq<Record>> {
    if chunks == [] then base
    else
      var init, last := chunks[..|chunks| - 1], chunks[|chunks| - 1];
      var below, top := TurnsBelow(base, init), Top(init);
      if !last.Rollback? || last.turns <= Users(top) then below
      else if Users(below) > 0 then TakeOff(below, last.turns - Users(top))
      else below + Lead(top)
  }

  /** The same of the history a compaction left, where the code takes user turns
      off by what they begin with. */
  function EntriesBelow(base: seq<Entry>, chunks: seq<Chunk>): seq<Entry> {
    if chunks == [] then base
    else
      var init, last := chunks[..|chunks| - 1], chunks[|chunks| - 1];
      var below, top := EntriesBelow(base, init), Top(init);
      if !last.Rollback? || last.turns <= Users(top) then below
      else if CountBoundaries(below) > 0 then DropLastUserTurns(below, last.turns - Users(top))
      else below + AllItems(Lead(top))
  }

  // ---- the naive replay ---------------------------------------------------------------------

  lemma {:induction false} LeadHasNoUser(turns: seq<seq<Record>>)
    ensures Users(Lead(turns)) == 0 && Lead(turns) <= turns
  {
    hide TakeOff;
    UsersTakeOff(turns, Users(turns));
    TakeOffIsPrefix(turns, Users(turns));
  }

  lemma {:induction false} TakeOffBeyondLead(base: seq<seq<Record>>, lead: seq<seq<Record>>, n: nat)
    requires Users(lead) == 0 && Users(base) > 0 && n > 0
    ensures TakeOff(base + lead, n) == TakeOff(base, n)
  {
    hide IsUser;
    if lead == [] {
      assert base + lead == base;
    } else {
      UsersConcat(base, lead);
      TakeOffTop(base + lead, n);
      assert (base + lead)[..|base + lead| - 1] == base + lead[..|lead| - 1];
      TakeOffBeyondLead(base, lead[..|lead| - 1], n);
    }
  }

  /** A rollback that the newest turns do not hold. */
  lemma {:induction false} TakeOffBeyond(below: seq<seq<Record>>, top: seq<seq<Record>>, n: nat)
    requires n > Users(top)
    ensures TakeOff(below + top, n) == if Users(below) > 0 then TakeOff(below, n - Users(top)) else below + Lead(top)
  {
    hide IsUser, TakeOff;
    TakeOffTwice(below + top, Users(top), n - Users(top));
    TakeOffSuffix(below, top, Users(top));
    LeadHasNoUser(top);
    if Users(below) > 0 {
      TakeOffBeyondLead(below, Lead(top), n - Users(top));
    } else {
      UsersConcat(below, Lead(top));
      NothingToTakeOff(below + Lead(top), n - Users(top));
    }
  }

  lemma NothingToTakeOff(turns: seq<seq<Record>>, n: nat)
    requires Users(turns) == 0
    ensures TakeOff(turns, n) == turns
  {}

  /** What is left of a rollout is what is left below and, on it, the top. */
  lemma {:induction false} LiveIsBelowAndTop(base: seq<seq<Record>>, chunks: seq<Chunk>)
    ensures Live(base, chunks) == TurnsBelow(base, chunks) + Top(chunks)
    decreases |chunks|
  {
    hide IsUser, TakeOff, Lead;
    if chunks == [] {
      assert base + [] == base;
    } else {
      var init, last := chunks[..|chunks| - 1], chunks[|chunks| - 1];
      LiveIsBelowAndTop(base, init);
      var below, top := TurnsBelow(base, init), Top(init);
      match last
      case Turn(_, body, _) => Assoc(below, top, [body]);
      case Rollback(n) =>
        if n <= Users(top) {
          TakeOffSuffix(below, top, Max(0, n));
        } else {
          TakeOffBeyond(below, top, n);
          assert TurnsBelow(base, chunks) + [] == TurnsBelow(base, chunks);
        }
      case Aside(_) =>
    }
  }

  lemma {:induction false} TopIsPlain(chunks: seq<Chunk>)
    requires NewestChunk(chunks) < 0
    ensures Plainly(Top(chunks))
    decreases |chunks|
  {
    if chunks != [] {
      hide HasCompaction, IsUser;
      var init, last := chunks[..|chunks| - 1], chunks[|chunks| - 1];
      TopIsPlain(init);
      if last.Rollback? { TakeOffIsPrefix(Top(init), Max(0, last.turns)); }
    }
  }

  /** The naive replay: the turns below as they play, then the items of the top. */
  lemma {:induction false} NaiveIsBelowAndTop(a: seq<Chunk>, above: seq<Chunk>)
    requires NewestChunk(above) < 0
    ensures NaiveReplay(a + above).history == PlayTurns([], TurnsBelow(Live([], a), above)) + AllItems(Top(above))
  {
    hide IsUser, TakeOff, PlayBody, Lead, TurnsBelow, Top, Items, HasCompaction;
    NaiveIsLive(a + above);
    LiveConcat([], a, above);
    LiveIsBelowAndTop(Live([], a), above);
    PlayConcat([], TurnsBelow(Live([], a), above), Top(above));
    TopIsPlain(above);
    PlayPlainly(PlayTurns([], TurnsBelow(Live([], a), above)), Top(above));
  }

  // ---- the code -------------------------------------------------------------------------------

  lemma {:induction false} CutBeyond(p: seq<Entry>, q: seq<Entry>, n: nat)
    requires CountBoundaries(p) > 0 && n > CountBoundaries(q)
    ensures CountBoundaries(p + q) > 0 && CutPoint(p + q, n) == CutPoint(p, n - CountBoundaries(q))
  {
    CountConcat(p, q);
    if q == [] {
      assert p + q == p;
    } else {
      var init, last := q[..|q| - 1], q[|q| - 1];
      assert (p + q)[..|p + q| - 1] == p + init && (p + q)[|p + q| - 1] == last;
      CountConcat(p, init);
      CutBeyond(p, init, if IsUserTurnBoundary(last.item) then n - 1 else n);
    }
  }

  lemma {:induction false} CutAboveNone(p: seq<Entry>, q: seq<Entry>, n: nat)
    requires CountBoundaries(p) == 0 && CountBoundaries(q) > 0 && n > 0
    ensures CountBoundaries(p + q) > 0 && CutPoint(p + q, n) == |p| + CutPoint(q, n)
  {
    CountConcat(p, q);
    var init, last := q[..|q| - 1], q[|q| - 1];
    assert (p + q)[..|p + q| - 1] == p + init && (p + q)[|p + q| - 1] == last;
    CountConcat(p, init);
    if !IsUserTurnBoundary(last.item) {
      CutAboveNone(p, init, n);
    } else if n > 1 && CountBoundaries(init) > 0 {
      CutAboveNone(p, init, n - 1);
    }
  }

  lemma {:induction false} DropBeyond(p: seq<Entry>, q: seq<Entry>, n: nat)
    requires CountBoundaries(p) > 0 && n > CountBoundaries(q)
    ensures DropLastUserTurns(p + q, n) == DropLastUserTurns(p, n - CountBoundaries(q))
  {
    hide IsUserTurnBoundary, WithoutAcceptedAfter, AcceptanceOrder;
    CutBeyond(p, q, n);
    var cut := CutPoint(p, n - CountBoundaries(q));
    assert (p + q)[cut] == p[cut] && (p + q)[..cut] == p[..cut];
  }

  lemma {:induction false} DropAboveNone(p: seq<Entry>, q: seq<Entry>, n: nat)
    requires CountBoundaries(p) == 0 && NoOrder(q) && n > 0
    ensures DropLastUserTurns(p + q, n) == p + DropLastUserTurns(q, n)
  {
    hide IsUserTurnBoundary, WithoutAcceptedAfter, AcceptanceOrder;
    CountConcat(p, q);
    if CountBoundaries(q) > 0 {
      CutAboveNone(p, q, n);
      var cut := CutPoint(q, n);
      assert (p + q)[|p| + cut] == q[cut] && (p + q)[..|p| + cut] == p + q[..cut];
    }
  }

  lemma {:induction false} StripAllItems(turns: seq<seq<Record>>)
    ensures Strip(AllItems(turns)) == StripTurns(turns)
  {
    hide Items;
    if turns != [] {
      StripAllItems(turns[..|turns| - 1]);
      StripConcat(AllItems(turns[..|turns| - 1]), Items(turns[|turns| - 1]));
    }
  }

  /** `p` is `below`, but for what is inert once no user turn is in it. */
  predicate IsBelow(p: seq<Entry>, below: seq<Entry>) {
    Strip(p) == Strip(below) && (CountBoundaries(below) > 0 ==> p == below)
  }

  /** A rollback on `p` and, above it, the entries `q` of the turns `top`. */
  lemma {:induction false} RollbackSplits(p: seq<Entry>, below: seq<Entry>, q: seq<Entry>,
      top: seq<seq<Record>>, n: int)
    returns (p': seq<Entry>, q': seq<Entry>)
    requires IsBelow(p, below) && Holds(q, top)
    ensures DropLastUserTurns(p + q, n) == p' + q'
    ensures Holds(q', if n <= Users(top) then TakeOff(top, Max(0, n)) else [])
    ensures IsBelow(p', if n <= Users(top) then below
                        else if CountBoundaries(below) > 0 then DropLastUserTurns(below, n - Users(top))
                        else below + AllItems(Lead(top)))
  {
    hide IsUserTurnBoundary, IsUser, Items, TakeOff, DropLastUserTurns, Inert, Strip;
    HeldCount(q, top);
    StripCount(p);
    StripCount(below);
    RollbackHolds(q, top, n);
    if n <= Users(top) {
      DropFromSuffix(p, q, n);
      return p, DropLastUserTurns(q, n);
    }
    NothingHolds();
    if CountBoundaries(below) > 0 {
      DropBeyond(p, q, n);
      p', q' := DropLastUserTurns(p, n - Users(top)), [];
      assert p' + [] == p';
    } else {
      DropAboveNone(p, q, n);
      LeadIsAllOff(top, n);
      LeadHasNoUser(top);
      SparedIsBelow(p, below, DropLastUserTurns(q, n), Lead(top));
      p', q' := p + DropLastUserTurns(q, n), [];
      assert p' + [] == p';
    }
  }

  lemma NothingHolds()
    ensures Holds([], [])
  {}

  lemma {:induction false} HeldCount(q: seq<Entry>, top: seq<seq<Record>>)
    requires Holds(q, top)
    ensures CountBoundaries(q) == Users(top) && NoOrder(q)
  {
    StripCount(q);
    TurnsCount(top);
  }

  lemma {:induction false} LeadIsAllOff(top: seq<seq<Record>>, n: nat)
    requires n >= Users(top)
    ensures TakeOff(top, n) == Lead(top)
  {
    hide IsUser, TakeOff;
    TakeOffTwice(top, Users(top), n - Users(top));
    LeadHasNoUser(top);
    NothingToTakeOff(Lead(top), n - Users(top));
  }

  lemma {:induction false} SparedIsBelow(p: seq<Entry>, below: seq<Entry>, q: seq<Entry>, lead: seq<seq<Record>>)
    requires Strip(p) == Strip(below) && CountBoundaries(below) == 0
    requires Holds(q, lead) && Users(lead) == 0
    ensures IsBelow(p + q, below + AllItems(lead))
  {
    hide IsUserTurnBoundary, IsUser, Items, Inert, Strip;
    StripConcat(p, q);
    StripConcat(below, AllItems(lead));
    StripAllItems(lead);
    HeldCount(q, lead);
    CountConcat(below, AllItems(lead));
    StripCount(q);
    StripCount(AllItems(lead));
  }

  /** From the history `h` the code goes on to what is left below of it and, but
      for what is inert, the items of the top. */
  lemma {:induction false} RealIsBelowAndTop(h: seq<Entry>, chunks: seq<Chunk>) returns (p: seq<Entry>, q: seq<Entry>)
    requires WellFormed(chunks)
    ensures RealChunks(h, chunks) == p + q && IsBelow(p, EntriesBelow(h, chunks)) && Holds(q, Top(chunks))
    decreases |chunks|
  {
    hide IsBelow, Holds, Items, DropLastUserTurns, TakeOff, WellFormedBody, Lead, IsUser;
    if chunks == [] {
      StartsBelow(h);
      NothingHolds();
      assert h + [] == h;
      return h, [];
    }
    var init, last := chunks[..|chunks| - 1], chunks[|chunks| - 1];
    p, q := RealIsBelowAndTop(h, init);
    match last {
      case Turn(id, body, _) =>
        TurnHolds(q, Top(init), body, id);
        Assoc(p, q, Items(body));
        q := q + Items(body);
      case Rollback(n) =>
        p, q := RollbackSplits(p, EntriesBelow(h, init), q, Top(init), n);
      case Aside(_) =>
    }
  }

  lemma StartsBelow(h: seq<Entry>)
    ensures IsBelow(h, h)
  {}

  /** What the code rebuilds from `h`, in what a thread carries. */
  lemma {:induction false} CodeIsBelowAndTop(h: seq<Entry>, above: seq<Chunk>)
    requires WellFormed(above)
    ensures Plain(RealChunks(h, above)) == Plain(EntriesBelow(h, above)) + Plain(AllItems(Top(above)))
  {
    hide Plain, Strip, EntriesBelow, Top, AllItems, StripTurns, AllShaped, NoOrder, WellFormed, RealChunks;
    var p, q := RealIsBelowAndTop(h, above);
    PlainConcat(p, q);
    PlainStrip(p);
    PlainStrip(EntriesBelow(h, above));
    PlainStrip(q);
    PlainTurns(Top(above));
  }

  // ---- the theorem ----------------------------------------------------------------------------

  /** The history its newest compaction starts a rollout's replay with, and what was
      said in that turn after it. */
  function Summary(chunks: seq<Chunk>): seq<Entry>
    requires NewestChunk(chunks) >= 0
  {
    PlayBody([], chunks[NewestChunk(chunks)].body)
  }

  /** The turns left when that turn ends, itself the newest. */
  function TurnsSoFar(chunks: seq<Chunk>): seq<seq<Record>> { Live([], chunks[..NewestChunk(chunks) + 1]) }

  function AfterNewest(chunks: seq<Chunk>): seq<Chunk> { chunks[NewestChunk(chunks) + 1..] }

  /** On a well-formed rollout whose newest compaction bounds the replay, the code
      rebuilds what the naive replay holds if and only if what later rollbacks leave
      of that compaction's history is what they leave of the turns before and with it. */
  lemma {:induction false} BoundedMeaning(chunks: seq<Chunk>)
    requires WellFormed(chunks) && NewestBounds(Flatten(chunks))
    ensures NewestChunk(chunks) >= 0 && RebuiltHistory(Flatten(chunks), Legacy).Ok?
    ensures
      Plain(RebuiltHistory(Flatten(chunks), Legacy).value) ==
      Plain(EntriesBelow(Summary(chunks), AfterNewest(chunks))) + Plain(AllItems(Top(AfterNewest(chunks))))
    ensures Plain(RebuiltHistory(Flatten(chunks), Legacy).value) == Plain(NaiveReplay(chunks).history) <==>
      Plain(EntriesBelow(Summary(chunks), AfterNewest(chunks))) ==
      Plain(PlayTurns([], TurnsBelow(TurnsSoFar(chunks), AfterNewest(chunks))))
  {
    hide Flatten, WellFormed, RebuiltHistory, NaiveReplay, NewestBounds, HasCompaction, ReplayCheckpoint, Plain,
        CheckpointRecord, EntriesBelow, TurnsBelow, Top, AllItems, PlayTurns, PlayBody;
    BoundingIsCheckpoint(chunks);
    var j := NewestChunk(chunks);
    var above := chunks[j + 1..];
    RebuiltFromCheckpoint(chunks, j);
    WellFormedAt(chunks, j);
    CodeIsBelowAndTop(Summary(chunks), above);
    assert chunks == chunks[..j + 1] + above;
    NoneAfterNewest(chunks, j);
    NaiveIsBelowAndTop(chunks[..j + 1], above);
    var left := PlayTurns([], TurnsBelow(TurnsSoFar(chunks), above));
    PlainConcat(left, AllItems(Top(above)));
    SameTail(Plain(EntriesBelow(Summary(chunks), above)), Plain(left), Plain(AllItems(Top(above))));
  }

  // ---- by how far the rollbacks reach -----------------------------------------------------------

  /** Read backwards, `chunks` leaves to skip what its rollbacks take from below it,
      and what of `k` its top does not hold. */
  lemma {:induction false} ResidualIs(chunks: seq<Chunk>, k: nat)
    ensures Residual(chunks, k) == Residual(chunks, 0) + Max(0, k - Users(Top(chunks)))
    decreases |chunks|
  {
    hide IsUser, TakeOff;
    if chunks != [] {
      var init, last := chunks[..|chunks| - 1], chunks[|chunks| - 1];
      var top := Top(init);
      match last
      case Rollback(n) =>
        ResidualIs(init, k + Max(0, n));
        ResidualIs(init, Max(0, n));
        if n <= Users(top) { UsersTakeOff(top, Max(0, n)); }
      case Aside(_) => ResidualIs(init, k);
      case Turn(_, body, _) =>
        UsersPushed(top, body);
        ResidualIs(init, if k > 0 && IsUser(body) then k - 1 else k);
    }
  }

  /** Where the turns below hold as many user turns as the rollbacks reach down, these
      are taken off and nothing else. */
  lemma {:induction false} TurnsCounted(base: seq<seq<Record>>, chunks: seq<Chunk>)
    requires Residual(chunks, 0) <= Users(base)
    ensures TurnsBelow(base, chunks) == TakeOff(base, Residual(chunks, 0))
    decreases |chunks|
  {
    hide IsUser, TakeOff;
    if chunks == [] {
      TakeOffNone(base);
    } else {
      var init, last := chunks[..|chunks| - 1], chunks[|chunks| - 1];
      if last.Rollback? { ResidualIs(init, Max(0, last.turns)); }
      TurnsCounted(base, init);
      UsersTakeOff(base, Residual(init, 0));
      if last.Rollback? && last.turns > Users(Top(init)) {
        TakeOffTwice(base, Residual(init, 0), last.turns - Users(Top(init)));
      }
    }
  }

  lemma {:induction false} CountedCut(h: seq<Entry>, n: nat)
    requires 0 < n <= CountBoundaries(h)
    ensures CountBoundaries(h[..CutPoint(h, n)]) == CountBoundaries(h) - n
  {
    hide IsUserTurnBoundary;
    var init, last := h[..|h| - 1], h[|h| - 1];
    if !IsUserTurnBoundary(last.item) {
      CountedCut(init, n);
      assert h[..CutPoint(h, n)] == init[..CutPoint(init, n)];
    } else if n > 1 {
      CountedCut(init, n - 1);
      assert h[..CutPoint(h, n)] == init[..CutPoint(init, n - 1)];
    } else {
      assert h[..CutPoint(h, n)] == init;
    }
  }

  lemma {:induction false} CutTwice(h: seq<Entry>, m: nat, n: nat)
    requires m > 0 && n > 0 && m + n <= CountBoundaries(h)
    ensures var cut := CutPoint(h, m);
      CountBoundaries(h[..cut]) == CountBoundaries(h) - m && h[..CutPoint(h, m + n)] == h[..cut][..CutPoint(h[..cut], n)]
  {
    hide IsUserTurnBoundary;
    CountedCut(h, m);
    var init, last := h[..|h| - 1], h[|h| - 1];
    if !IsUserTurnBoundary(last.item) {
      CutTwice(init, m, n);
      assert h[..CutPoint(h, m)] == init[..CutPoint(init, m)];
    } else if m > 1 {
      CutTwice(init, m - 1, n);
      assert h[..CutPoint(h, m)] == init[..CutPoint(init, m - 1)];
    } else {
      assert h[..CutPoint(h, m)] == init;
    }
  }

  lemma {:induction false} DropTwice(h: seq<Entry>, m: nat, n: nat)
    requires NoOrder(h) && m + n <= CountBoundaries(h)
    ensures DropLastUserTurns(DropLastUserTurns(h, m), n) == DropLastUserTurns(h, m + n)
    ensures CountBoundaries(DropLastUserTurns(h, m)) == CountBoundaries(h) - m
  {
    hide IsUserTurnBoundary, AcceptanceOrder, WithoutAcceptedAfter;
    if m > 0 {
      CountedCut(h, m);
      if n > 0 { CutTwice(h, m, n); }
    }
  }

  lemma ResidualNone()
    ensures Residual([], 0) == 0
  {}

  /** The last chunk adds what its rollback reaches below the turns since. */
  lemma ResidualLast(chunks: seq<Chunk>)
    requires chunks != []
    ensures var init, last := chunks[..|chunks| - 1], chunks[|chunks| - 1];
      Residual(chunks, 0) == Residual(init, 0) + if last.Rollback? then Max(0, last.turns - Users(Top(init))) else 0
  {
    var init, last := chunks[..|chunks| - 1], chunks[|chunks| - 1];
    if last.Rollback? { ResidualIs(init, Max(0, last.turns)); }
    hide Users, Top, IsUser;
  }

  /** The same of the history, by its own user turns, where no acceptance order
      takes more with them. */
  lemma {:induction false} EntriesCounted(base: seq<Entry>, chunks: seq<Chunk>)
    requires NoOrder(base) && Residual(chunks, 0) <= CountBoundaries(base)
    ensures EntriesBelow(base, chunks) == DropLastUserTurns(base, Residual(chunks, 0))
    decreases |chunks|
  {
    hide IsUser, DropLastUserTurns, NoOrder, Residual, Top, Users, CountBoundaries;
    if chunks == [] {
      DropNone(base);
      ResidualNone();
    } else {
      var init, last := chunks[..|chunks| - 1], chunks[|chunks| - 1];
      ResidualLast(chunks);
      EntriesCounted(base, init);
      if last.Rollback? && last.turns > Users(Top(init)) {
        DropTwice(base, Residual(init, 0), last.turns - Users(Top(init)));
      }
    }
  }

  lemma DropNone(h: seq<Entry>)
    ensures DropLastUserTurns(h, 0) == h
  {}

  /** Within what both hold, the two agree exactly if the history of the compaction
      less so many user turns is that of the turns less as many. */
  lemma {:induction false} BoundedByCount(chunks: seq<Chunk>)
    requires WellFormed(chunks) && NewestBounds(Flatten(chunks)) && NewestChunk(chunks) >= 0
    requires var r := Residual(AfterNewest(chunks), 0);
      NoOrder(Summary(chunks)) && r <= CountBoundaries(Summary(chunks)) && r <= Users(TurnsSoFar(chunks))
    ensures RebuiltHistory(Flatten(chunks), Legacy).Ok?
    ensures Plain(RebuiltHistory(Flatten(chunks), Legacy).value) == Plain(NaiveReplay(chunks).history) <==>
      var r := Residual(AfterNewest(chunks), 0);
      Plain(DropLastUserTurns(Summary(chunks), r)) == Plain(PlayTurns([], TakeOff(TurnsSoFar(chunks), r)))
  {
    hide *;
    BoundedMeaning(chunks);
    TurnsCounted(TurnsSoFar(chunks), AfterNewest(chunks));
    EntriesCounted(Summary(chunks), AfterNewest(chunks));
  }

  /** No rollback after the compaction's turn reaches past it: the two always agree. */
  lemma {:induction false} BoundedPreservesMeaning(chunks: seq<Chunk>)
    requires WellFormed(chunks) && NewestBounds(Flatten(chunks)) && NewestChunk(chunks) >= 0
    requires Residual(AfterNewest(chunks), 0) == 0
    ensures RebuiltHistory(Flatten(chunks), Legacy).Ok?
    ensures Plain(RebuiltHistory(Flatten(chunks), Legacy).value) == Plain(NaiveReplay(chunks).history)
  {
    hide *;
    BoundedMeaning(chunks);
    TurnsCounted(TurnsSoFar(chunks), AfterNewest(chunks));
    TakeOffNone(TurnsSoFar(chunks));
    EntriesUntouched(Summary(chunks), AfterNewest(chunks));
    TurnsSoFarPlay(chunks);
  }

  lemma {:induction false} EntriesUntouched(base: seq<Entry>, chunks: seq<Chunk>)
    requires Residual(chunks, 0) == 0
    ensures EntriesBelow(base, chunks) == base
    decreases |chunks|
  {
    hide IsUser, DropLastUserTurns, TakeOff;
    if chunks != [] {
      var init, last := chunks[..|chunks| - 1], chunks[|chunks| - 1];
      if last.Rollback? { ResidualIs(init, Max(0, last.turns)); }
      EntriesUntouched(base, init);
    }
  }

  /** What the turns so far play is what the compaction's turn leaves. */
  lemma {:induction false} TurnsSoFarPlay(chunks: seq<Chunk>)
    requires WellFormed(chunks) && NewestChunk(chunks) >= 0
    ensures PlayTurns([], TurnsSoFar(chunks)) == Summary(chunks)
  {
    hide IsUser, PlayBody, HasCompaction, InTurn, NewestChunk;
    var j := NewestChunk(chunks);
    var t := chunks[j];
    assert chunks[..j + 1][..|chunks[..j + 1]| - 1] == chunks[..j];
    var before := Live([], chunks[..j]);
    assert (before + [t.body])[..|before|] == before;
    WellFormedAt(chunks, j);
    PlayAnew(PlayTurns([], before), [], t.body, t.id);
  }

  // ---- with no user turn to undo ------------------------------------------------------------------

  lemma {:induction false} NoUserNoBoundary(turns: seq<seq<Record>>)
    requires Users(turns) == 0
    ensures CountBoundaries(AllItems(turns)) == 0
  {
    hide Items;
    if turns != [] {
      NoUserNoBoundary(turns[..|turns| - 1]);
      CountConcat(AllItems(turns[..|turns| - 1]), Items(turns[|turns| - 1]));
    }
  }

  /** With no user turn on either side, rollbacks spare the same turns on both. */
  lemma {:induction false} NoneBelow(base: seq<Entry>, turns: seq<seq<Record>>, chunks: seq<Chunk>)
    requires CountBoundaries(base) == 0 && Users(turns) == 0 && PlayTurns([], turns) == base && NewestChunk(chunks) < 0
    ensures CountBoundaries(EntriesBelow(base, chunks)) == 0 && Users(TurnsBelow(turns, chunks)) == 0
    ensures PlayTurns([], TurnsBelow(turns, chunks)) == EntriesBelow(base, chunks)
    decreases |chunks|
  {
    hide IsUser, DropLastUserTurns, TakeOff, Lead, PlayBody, Items, IsUserTurnBoundary, HasCompaction;
    if chunks != [] {
      var init, last := chunks[..|chunks| - 1], chunks[|chunks| - 1];
      NoneBelow(base, turns, init);
      var below, left, lead := TurnsBelow(turns, init), EntriesBelow(base, init), Lead(Top(init));
      LeadHasNoUser(Top(init));
      TopIsPlain(init);
      LeadIsPlainly(Top(init));
      PlayConcat([], below, lead);
      PlayPlainly(left, lead);
      UsersConcat(below, lead);
      NoUserNoBoundary(lead);
      CountConcat(left, AllItems(lead));
    }
  }

  lemma LeadIsPlainly(turns: seq<seq<Record>>)
    requires Plainly(turns)
    ensures Plainly(Lead(turns))
  {
    LeadHasNoUser(turns);
  }

  /** Where neither the turns up to the compaction nor the history it leaves hold a
      user turn, the two agree however far rollbacks reach. */
  lemma {:induction false} BoundedWithoutUsers(chunks: seq<Chunk>)
    requires WellFormed(chunks) && NewestBounds(Flatten(chunks)) && NewestChunk(chunks) >= 0
    requires CountBoundaries(Summary(chunks)) == 0 && Users(TurnsSoFar(chunks)) == 0
    ensures RebuiltHistory(Flatten(chunks), Legacy).Ok?
    ensures Plain(RebuiltHistory(Flatten(chunks), Legacy).value) == Plain(NaiveReplay(chunks).history)
  {
    hide *;
    BoundedMeaning(chunks);
    TurnsSoFarPlay(chunks);
    AfterIsWithout(chunks);
    NoneBelow(Summary(chunks), TurnsSoFar(chunks), AfterNewest(chunks));
  }

  lemma AfterIsWithout(chunks: seq<Chunk>)
    requires NewestChunk(chunks) >= 0
    ensures NewestChunk(AfterNewest(chunks)) < 0
  {
    NoneAfterNewest(chunks, NewestChunk(chunks));
  }
}
