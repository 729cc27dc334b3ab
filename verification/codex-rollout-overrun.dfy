/** Where the rebuilt history differs from the naive replay: a rollback that
    names more user turns than are left, past a compaction; and one that undoes
    the turn of a compaction that bounds the replay. */
module CodexRolloutOverrun {
  import opened Wrappers
  import opened CodexRollout
  import opened CodexRolloutMeaning
  import opened CodexRolloutCheckpoint
  import opened CodexRolloutReplay

  function Said(role: Role, text: string): Entry {
    Entry(Message(role, [if role.User? then InputText(text, false, false, false) else OutputText(text, false)], None, false), None)
  }

  /** A reply, compacted in a turn without a user message. */
  function CompactedTurn(long: string, short: string): seq<Record> {
    [ResponseItem(Said(Assistant, long)), Compacting(short, false)]
  }

  /** A compaction to one reply, which `bounds` a replay by itself or not. */
  function Compacting(short: string, bounds: bool): Record {
    Compacted(Compaction(Some([Said(Assistant, short)]), bounds, bounds, [], []))
  }

  function UserTurn(hi: string): seq<Record> { [ResponseItem(Said(User, hi))] }

  /** That turn, a user turn, and a rollback of two user turns. */
  function Overrun(long: string, short: string, hi: string): seq<Chunk> {
    [Chunk.Turn("a", CompactedTurn(long, short), Completed), Chunk.Turn("b", UserTurn(hi), Completed), Rollback(2)]
  }

  lemma CompactedTurnParts(long: string, short: string)
    ensures var a := CompactedTurn(long, short);
      && Items(a) == [Said(Assistant, long)] && !IsUser(a) && HasCompaction(a)
      && PlayBody([], a) == [Said(Assistant, short)] && WellFormedBody(a, "a")
  {
    var a := CompactedTurn(long, short);
    assert a[..1] == [a[0]] && a[..1][..0] == [];
    assert Items([]) == [] && Items(a[..1]) == [Said(Assistant, long)];
    assert CountBoundaries([]) == 0 && [Said(Assistant, long)][..0] == [];
  }

  lemma UserSpeaks(hi: string)
    ensures IsUserTurnBoundary(Said(User, hi).item) && AcceptanceOrder(Said(User, hi).meta).None?
    ensures IsHistoryItem(Said(User, hi)) && !IsDelivered(Said(User, hi))
  {}

  lemma UserTurnItems(hi: string)
    ensures Items(UserTurn(hi)) == [Said(User, hi)] && CountBoundaries([Said(User, hi)]) == 1
  {
    UserSpeaks(hi);
    hide IsUserTurnBoundary, IsHistoryItem, IsDelivered, Said;
    var b := UserTurn(hi);
    assert b[..0] == [] && Items([]) == [] && Items(b) == Items(b[..0]) + [Said(User, hi)];
    assert CountBoundaries([]) == 0 && [Said(User, hi)][..0] == [];
  }

  lemma UserTurnParts(hi: string)
    ensures var b := UserTurn(hi);
      Items(b) == [Said(User, hi)] && IsUser(b) && !HasCompaction(b) && WellFormedBody(b, "b")
  {
    UserTurnItems(hi);
    UserSpeaks(hi);
    hide IsUserTurnBoundary, IsHistoryItem, IsDelivered, Said, AcceptanceOrder, Items, CountBoundaries, Inert;
    assert CutPoint([Said(User, hi)], 1) == 0;
  }

  lemma OverrunIsScanned(long: string, short: string, hi: string)
    requires WellFormed(Overrun(long, short, hi))
    ensures !NewestBounds(Flatten(Overrun(long, short, hi)))
  {
    var chunks, a := Overrun(long, short, hi), CompactedTurn(long, short);
    CompactedTurnParts(long, short);
    UserTurnParts(hi);
    NewestIsChunk(chunks);
    assert NewestCompaction(a, 2) == 1;
    hide Flatten, WellFormed, NewestCompaction, HasCompaction, RecordsOf;
    assert chunks[..2] == [chunks[0], chunks[1]] && chunks[..2][..1] == [chunks[0]];
    assert NewestChunk([chunks[0]]) == 0 && NewestChunk(chunks[..2]) == 0 && NewestChunk(chunks) == 0;
    RecordsAtCheckpoint(chunks, 0);
  }

  lemma OverrunLeaves(long: string, short: string, hi: string)
    ensures var chunks := Overrun(long, short, hi);
      Live([], chunks) == [CompactedTurn(long, short)] && CheckpointChunk(chunks, 0) == -1 && WellFormed(chunks)
  {
    var chunks := Overrun(long, short, hi);
    var a, b := CompactedTurn(long, short), UserTurn(hi);
    CompactedTurnParts(long, short);
    UserTurnParts(hi);
    hide IsUser, HasCompaction, WellFormedBody, CompactedTurn, UserTurn;
    assert chunks[..2] == [chunks[0], chunks[1]] && chunks[..2][..1] == [chunks[0]] && [chunks[0]][..0] == [];
    assert Live([], []) == [] && Live([], [chunks[0]]) == [a] && Live([], chunks[..2]) == [a, b];
    assert [a, b][..1] == [a] && [a][..0] == [];
    assert Users([]) == 0 && Users([a]) == 0 && Users([a, b]) == 1;
    assert TakeOff([a, b], 2) == TakeOff([a], 1) == [a];
    assert CheckpointChunk([], 1) == -1 && CheckpointChunk([chunks[0]], 1) == -1 && CheckpointChunk(chunks[..2], 2) == -1;
  }

  /** The scan skips the compaction with the turns still to skip, but the turn that
      holds it is left: the code brings back the long text, the naive replay the
      short one. */
  lemma OverrunDiffers(long: string, short: string, hi: string)
    ensures var chunks := Overrun(long, short, hi);
      && WellFormed(chunks)
      && ReplayCheckpoint(Flatten(chunks), Legacy) == -1
      && RebuiltHistory(Flatten(chunks), Legacy).Ok?
      && Plain(RebuiltHistory(Flatten(chunks), Legacy).value) == [Said(Assistant, long).item]
      && Plain(NaiveReplay(chunks).history) == [Said(Assistant, short).item]
  {
    var chunks, a := Overrun(long, short, hi), CompactedTurn(long, short);
    OverrunLeaves(long, short, hi);
    CompactedTurnParts(long, short);
    hide WellFormed, Overrun, Flatten, ReplayCheckpoint, RebuiltHistory, NaiveReplay, CompactedTurn, HasCompaction,
        IsUser, Items, PlayBody, Plain, Said;
    OverrunIsScanned(long, short, hi);
    CheckpointIsChunk(chunks);
    CodeWithoutCheckpoint(chunks);
    NaiveIsLive(chunks);
    assert [a][..0] == [] && AllItems([]) == [] && PlayTurns([], []) == [];
    assert AllItems([a]) == [Said(Assistant, long)] && PlayTurns([], [a]) == [Said(Assistant, short)];
    PlainOfOne(long);
    PlainOfOne(short);
  }

  lemma PlainOfOne(text: string)
    ensures Plain([Said(Assistant, text)]) == [Said(Assistant, text).item]
  {
    var e := Said(Assistant, text);
    assert [e][1..] == [] && Plain([]) == [];
    assert e.item.content[1..] == [] && WithoutEncrypted([]) == [];
    assert WithoutEncrypted(e.item.content) == e.item.content;
    assert PlainItem(e.item) == [e.item] && [e.item] + [] == [e.item];
  }

  // ---- a bounding compaction undone -----------------------------------------------------

  function BoundedTurn(more: string, short: string): seq<Record> {
    [ResponseItem(Said(User, more)), Compacting(short, true)]
  }

  /** A user turn, a user turn that ends in a bounding compaction, and that turn rolled back. */
  function Undone(hi: string, more: string, short: string): seq<Chunk> {
    [Chunk.Turn("a", UserTurn(hi), Completed), Chunk.Turn("b", BoundedTurn(more, short), Completed), Rollback(1)]
  }

  lemma BoundedTurnParts(more: string, short: string)
    ensures var b := BoundedTurn(more, short);
      && Items(b) == [Said(User, more)] && IsUser(b) && HasCompaction(b) && NewestCompaction(b, 2) == 1
      && PlayBody([], b) == [Said(Assistant, short)] && WellFormedBody(b, "b")
  {
    var b := BoundedTurn(more, short);
    UserTurnItems(more);
    UserSpeaks(more);
    assert b[..1] == UserTurn(more);
    assert NewestCompaction(b, 2) == 1;
    hide IsUserTurnBoundary, IsHistoryItem, IsDelivered, Said, AcceptanceOrder, CountBoundaries, Inert, UserTurn;
    assert CutPoint([Said(User, more)], 1) == 0;
    assert Items(b) == Items(b[..1]) + [];
    assert PlayBody([], b) == PlayRecord(PlayBody([], b[..1]), b[1]);
  }

  lemma UndoneLeaves(hi: string, more: string, short: string)
    ensures var chunks := Undone(hi, more, short);
      Live([], chunks) == [UserTurn(hi)] && NewestChunk(chunks) == 1 && WellFormed(chunks)
  {
    var chunks := Undone(hi, more, short);
    var a, b := UserTurn(hi), BoundedTurn(more, short);
    UserTurnParts(hi);
    UserTurnIsWellFormed(hi, "a");
    BoundedTurnParts(more, short);
    hide IsUser, HasCompaction, WellFormedBody, BoundedTurn, UserTurn;
    assert chunks[..2] == [chunks[0], chunks[1]] && chunks[..2][..1] == [chunks[0]] && [chunks[0]][..0] == [];
    assert Live([], []) == [] && Live([], [chunks[0]]) == [a] && Live([], chunks[..2]) == [a, b];
    assert [a, b][..1] == [a] && [a][..0] == [];
    assert Users([]) == 0 && Users([a]) == 1 && Users([a, b]) == 2;
    assert TakeOff([a, b], 1) == TakeOff([a], 0) == [a];
    assert NewestChunk(chunks[..2]) == 1;
  }

  lemma UserTurnIsWellFormed(hi: string, id: string)
    ensures WellFormedBody(UserTurn(hi), id)
  {
    UserTurnItems(hi);
    UserSpeaks(hi);
    hide IsUserTurnBoundary, IsHistoryItem, IsDelivered, Said, AcceptanceOrder, Items, CountBoundaries, Inert;
    assert CutPoint([Said(User, hi)], 1) == 0;
  }

  lemma UndoneIsBounded(hi: string, more: string, short: string)
    ensures var chunks := Undone(hi, more, short); WellFormed(chunks) && NewestBounds(Flatten(chunks))
  {
    var chunks := Undone(hi, more, short);
    UndoneLeaves(hi, more, short);
    NewestIsChunk(chunks);
    BoundedTurnParts(more, short);
    hide Flatten, WellFormed, NewestCompaction, HasCompaction, RecordsOf;
    RecordsAtCheckpoint(chunks, 1);
  }

  /** The code starts from that compaction although its turn is undone, and finds no
      user turn in it to take off: it brings back the summary, the naive replay
      what was said before. */
  lemma UndoneDiffers(hi: string, more: string, short: string)
    ensures var chunks := Undone(hi, more, short);
      && WellFormed(chunks) && NewestBounds(Flatten(chunks))
      && RebuiltHistory(Flatten(chunks), Legacy) == Ok([Said(Assistant, short)])
      && NaiveReplay(chunks).history == [Said(User, hi)]
  {
    var chunks, a, b := Undone(hi, more, short), UserTurn(hi), BoundedTurn(more, short);
    UndoneIsBounded(hi, more, short);
    UndoneLeaves(hi, more, short);
    UserTurnParts(hi);
    BoundedTurnParts(more, short);
    NothingToDrop(short);
    hide WellFormed, Flatten, ReplayCheckpoint, RebuiltHistory, NaiveReplay, UserTurn, BoundedTurn, HasCompaction,
        IsUser, Items, PlayBody, Said, DropLastUserTurns, NewestBounds;
    BoundingIsCheckpoint(chunks);
    RebuiltFromCheckpoint(chunks, 1);
    assert chunks[2..] == [Rollback(1)] && [Rollback(1)][..0] == [];
    assert RealChunks([Said(Assistant, short)], []) == [Said(Assistant, short)];
    NaiveIsLive(chunks);
    PlayWithout([], a);
    assert [a][..0] == [] && PlayTurns([], []) == [];
  }

  lemma NothingToDrop(short: string)
    ensures DropLastUserTurns([Said(Assistant, short)], 1) == [Said(Assistant, short)]
  {
    assert [Said(Assistant, short)][..0] == [] && CountBoundaries([]) == 0;
  }
}
