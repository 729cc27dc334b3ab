/**
 What a compaction's history is: its replacement less the encrypted items, with
 the retained replies put between the user messages by the order both carry.
 Told by positions, without the merges that build it.
 */
module CodexRolloutCompacted {
  import opened Wrappers
  import opened CodexRollout

  /** The order a kept user message carries: its own, in a message a person wrote. */
  predicate HasUserOrder(e: Entry, order: int) {
    && e.item.Message? && e.item.role.User?
    && (forall i :: 0 <= i < |e.item.content| ==> !(e.item.content[i].InputText? && e.item.content[i].contextual))
    && e.meta.Some? && !e.meta.value.inherited && e.meta.value.order == Some(order)
  }

  predicate IsPersons(e: Entry) {
    && e.item.Message? && e.item.role.User?
    && forall i :: 0 <= i < |e.item.content| ==> !(e.item.content[i].InputText? && e.item.content[i].contextual)
  }

  predicate IsOrdered(e: Entry) { e.meta.Some? && !e.meta.value.inherited && e.meta.value.order.Some? }

  predicate Rising(at: seq<nat>, n: nat) {
    && (forall i, j :: 0 <= i < j < |at| ==> at[i] < at[j])
    && (forall i :: 0 <= i < |at| ==> at[i] < n)
  }

  predicate AscendingOrders(rs: seq<Retained>) { forall i, j :: 0 <= i < j < |rs| ==> rs[i].order <= rs[j].order }

  /** The user messages among `kept` carry orders that do not fall. */
  ghost predicate AscendingUsers(kept: seq<Entry>) {
    forall i, j, a, b ::
      0 <= i < j < |kept| && HasUserOrder(kept[i], a) && HasUserOrder(kept[j], b) ==> a <= b
  }

  /** `xs` stands in `h`, whole and in its order, at the positions `at`. */
  predicate StandsAt(h: seq<Entry>, xs: seq<Entry>, at: seq<nat>) {
    |at| == |xs| && Rising(at, |h|) && forall i :: 0 <= i < |at| ==> h[at[i]] == xs[i]
  }

  predicate Apart(xAt: seq<nat>, yAt: seq<nat>) {
    forall i, k :: 0 <= i < |xAt| && 0 <= k < |yAt| ==> xAt[i] != yAt[k]
  }

  /** `h` is made of the two lists and nothing else. */
  predicate Shuffles(h: seq<Entry>, xs: seq<Entry>, xAt: seq<nat>, ys: seq<Entry>, yAt: seq<nat>) {
    |h| == |xs| + |ys| && StandsAt(h, xs, xAt) && StandsAt(h, ys, yAt) && Apart(xAt, yAt)
  }

  function Shift(at: seq<nat>): (r: seq<nat>)
    ensures |r| == |at| && forall i :: 0 <= i < |r| ==> r[i] == at[i] + 1
  {
    seq(|at|, i requires 0 <= i < |at| => at[i] + 1)
  }

  function UpTo(n: nat): (r: seq<nat>)
    ensures |r| == n && forall i :: 0 <= i < n ==> r[i] == i
  {
    seq(n, i => i)
  }

  lemma StandsLater(h: seq<Entry>, xs: seq<Entry>, at: seq<nat>, z: Entry)
    requires StandsAt(h, xs, at)
    ensures StandsAt([z] + h, xs, Shift(at))
  {}

  lemma StandsFirst(h: seq<Entry>, xs: seq<Entry>, at: seq<nat>, x: Entry)
    requires StandsAt(h, xs, at)
    ensures StandsAt([x] + h, [x] + xs, [0] + Shift(at))
  {}

  lemma ShufflesLeft(h: seq<Entry>, xs: seq<Entry>, xAt: seq<nat>, ys: seq<Entry>, yAt: seq<nat>, x: Entry)
    requires Shuffles(h, xs, xAt, ys, yAt)
    ensures Shuffles([x] + h, [x] + xs, [0] + Shift(xAt), ys, Shift(yAt))
  {
    StandsFirst(h, xs, xAt, x);
    StandsLater(h, ys, yAt, x);
    hide StandsAt;
  }

  lemma ShufflesRight(h: seq<Entry>, xs: seq<Entry>, xAt: seq<nat>, ys: seq<Entry>, yAt: seq<nat>, y: Entry)
    requires Shuffles(h, xs, xAt, ys, yAt)
    ensures Shuffles([y] + h, xs, Shift(xAt), [y] + ys, [0] + Shift(yAt))
  {
    StandsLater(h, xs, xAt, y);
    StandsFirst(h, ys, yAt, y);
    hide StandsAt;
  }

  lemma ShufflesOne(xs: seq<Entry>)
    ensures Shuffles(xs, xs, UpTo(|xs|), [], []) && Shuffles(xs, [], [], xs, UpTo(|xs|))
  {}

  // ---- what is kept of the replacement -------------------------------------------------------------

  /** `kept` is what stands at the positions `from` of `h`: those without an encrypted compaction. */
  predicate KeptFrom(kept: seq<Entry>, h: seq<Entry>, from: seq<nat>) {
    && StandsAt(h, kept, from) && (forall i :: 0 <= i < |kept| ==> !kept[i].item.EncryptedCompaction?)
    && (forall p :: 0 <= p < |h| && !h[p].item.EncryptedCompaction? ==> p in from)
  }

  lemma ShiftHas(at: seq<nat>, p: nat)
    requires p in at
    ensures p + 1 in Shift(at)
  {
    var i :| 0 <= i < |at| && at[i] == p;
    assert Shift(at)[i] == p + 1;
  }

  lemma DropsFirst(kept: seq<Entry>, h: seq<Entry>, from: seq<nat>, x: Entry)
    requires KeptFrom(kept, h, from) && x.item.EncryptedCompaction?
    ensures KeptFrom(kept, [x] + h, Shift(from))
  {
    StandsLater(h, kept, from, x);
    hide StandsAt, Shift;
    var all := [x] + h;
    forall p | 0 <= p < |all| && !all[p].item.EncryptedCompaction? ensures p in Shift(from) {
      assert all[p] == h[p - 1];
      ShiftHas(from, p - 1);
    }
  }

  lemma KeepsFirst(kept: seq<Entry>, h: seq<Entry>, from: seq<nat>, x: Entry)
    requires KeptFrom(kept, h, from) && !x.item.EncryptedCompaction?
    ensures KeptFrom([x] + kept, [x] + h, [0] + Shift(from))
  {
    StandsFirst(h, kept, from, x);
    hide StandsAt, Shift;
    var all, at := [x] + h, [0] + Shift(from);
    forall p | 0 <= p < |all| && !all[p].item.EncryptedCompaction? ensures p in at {
      if p == 0 {
        assert at[0] == 0;
      } else {
        assert all[p] == h[p - 1];
        ShiftHas(from, p - 1);
        assert p in Shift(from);
      }
    }
  }

  lemma {:induction false} WithoutCompactionsKeeps(h: seq<Entry>) returns (from: seq<nat>)
    ensures KeptFrom(WithoutCompactions(h), h, from)
  {
    if h == [] { return []; }
    var rest := WithoutCompactionsKeeps(h[1..]);
    assert h == [h[0]] + h[1..];
    if h[0].item.EncryptedCompaction? {
      DropsFirst(WithoutCompactions(h[1..]), h[1..], rest, h[0]);
      assert [] + WithoutCompactions(h[1..]) == WithoutCompactions(h[1..]);
      from := Shift(rest);
    } else {
      KeepsFirst(WithoutCompactions(h[1..]), h[1..], rest, h[0]);
      from := [0] + Shift(rest);
    }
    hide KeptFrom;
  }

  // ---- replies between the user messages -----------------------------------------------------------

  /** Each reply stands before exactly the user messages accepted after it. */
  ghost predicate RepliesInPlace(kept: seq<Entry>, keptAt: seq<nat>, replies: seq<Retained>, replyAt: seq<nat>)
    requires |keptAt| == |kept| && |replyAt| == |replies|
  {
    forall i, k, order :: 0 <= i < |kept| && 0 <= k < |replies| && HasUserOrder(kept[i], order) ==>
      (replyAt[k] < keptAt[i] <==> replies[k].order < order)
  }

  lemma UserOrderIs(e: Entry, order: int)
    ensures HasUserOrder(e, order) <==> IsUserEntry(e) && AcceptanceOrder(e.meta) == Some(order)
  {}

  lemma {:induction false} InterleavePlaces(kept: seq<Entry>, replies: seq<Retained>)
    returns (keptAt: seq<nat>, replyAt: seq<nat>)
    requires AscendingOrders(replies) && AscendingUsers(kept)
    ensures Shuffles(Interleave(kept, replies), kept, keptAt, Entries(replies), replyAt)
    ensures |keptAt| == |kept| && |replyAt| == |replies|
    ensures RepliesInPlace(kept, keptAt, replies, replyAt)
    decreases |kept| + |replies|
  {
    hide Shuffles, RepliesInPlace;
    if kept == [] {
      NoneKept(replies);
      ShufflesOne(Entries(replies));
      return [], UpTo(|replies|);
    }
    var order := if IsUserEntry(kept[0]) then AcceptanceOrder(kept[0].meta) else None;
    if order.Some? { UserOrderIs(kept[0], order.value); }
    if order.Some? && replies != [] && replies[0].order < order.value {
      var a, b := InterleavePlaces(kept, replies[1..]);
      ShufflesRight(Interleave(kept, replies[1..]), kept, a, Entries(replies[1..]), b, replies[0].entry);
      assert [replies[0].entry] + Entries(replies[1..]) == Entries(replies);
      keptAt, replyAt := Shift(a), [0] + Shift(b);
      ReplyFirst(kept, a, replies, b, order.value);
    } else {
      assert AscendingUsers(kept[1..]) by { UsersTail(kept); }
      var a, b := InterleavePlaces(kept[1..], replies);
      ShufflesLeft(Interleave(kept[1..], replies), kept[1..], a, Entries(replies), b, kept[0]);
      assert [kept[0]] + kept[1..] == kept;
      keptAt, replyAt := [0] + Shift(a), Shift(b);
      KeptFirst(kept, a, replies, b);
    }
  }

  lemma NoneKept(replies: seq<Retained>)
    ensures RepliesInPlace([], [], replies, UpTo(|replies|))
  {}

  lemma UsersTail(kept: seq<Entry>)
    requires kept != [] && AscendingUsers(kept)
    ensures AscendingUsers(kept[1..])
  {
    forall i, j, a, b | 0 <= i < j < |kept[1..]| && HasUserOrder(kept[1..][i], a) && HasUserOrder(kept[1..][j], b)
      ensures a <= b
    {
      assert HasUserOrder(kept[i + 1], a) && HasUserOrder(kept[j + 1], b);
    }
  }

  lemma ReplyFirst(kept: seq<Entry>, a: seq<nat>, replies: seq<Retained>, b: seq<nat>, order: int)
    requires kept != [] && replies != [] && |a| == |kept| && |b| == |replies| - 1
    requires HasUserOrder(kept[0], order) && replies[0].order < order && AscendingUsers(kept)
    requires RepliesInPlace(kept, a, replies[1..], b)
    ensures RepliesInPlace(kept, Shift(a), replies, [0] + Shift(b))
  {
    hide HasUserOrder;
    var at := [0] + Shift(b);
    forall i, k, o | 0 <= i < |kept| && 0 <= k < |replies| && HasUserOrder(kept[i], o)
      ensures at[k] < Shift(a)[i] <==> replies[k].order < o
    {
      if k > 0 {
        assert replies[1..][k - 1] == replies[k];
      } else if i > 0 {
        assert order <= o;
      } else {
        SameOrder(kept[0], order, o);
      }
    }
  }

  lemma SameOrder(e: Entry, a: int, b: int)
    requires HasUserOrder(e, a) && HasUserOrder(e, b)
    ensures a == b
  {}

  lemma KeptFirst(kept: seq<Entry>, a: seq<nat>, replies: seq<Retained>, b: seq<nat>)
    requires kept != [] && |a| == |kept| - 1 && |b| == |replies| && AscendingOrders(replies)
    requires replies != [] ==> forall o :: HasUserOrder(kept[0], o) ==> replies[0].order >= o
    requires RepliesInPlace(kept[1..], a, replies, b)
    ensures RepliesInPlace(kept, [0] + Shift(a), replies, Shift(b))
  {
    hide HasUserOrder;
    var at := [0] + Shift(a);
    forall i, k, o | 0 <= i < |kept| && 0 <= k < |replies| && HasUserOrder(kept[i], o)
      ensures Shift(b)[k] < at[i] <==> replies[k].order < o
    {
      if i > 0 { assert kept[1..][i - 1] == kept[i]; }
      else { assert replies[0].order <= replies[k].order; }
    }
  }

  // ---- two ordered lists as one -----------------------------------------------------------------------

  /** A user message stands before exactly the replies not accepted before it. */
  predicate UsersFirst(users: seq<Retained>, userAt: seq<nat>, replies: seq<Retained>, replyAt: seq<nat>)
    requires |userAt| == |users| && |replyAt| == |replies|
  {
    forall i, k :: 0 <= i < |users| && 0 <= k < |replies| ==>
      (userAt[i] < replyAt[k] <==> users[i].order <= replies[k].order)
  }

  lemma {:induction false} MergePlaces(users: seq<Retained>, replies: seq<Retained>)
    returns (userAt: seq<nat>, replyAt: seq<nat>)
    requires AscendingOrders(users) && AscendingOrders(replies)
    ensures Shuffles(MergeRetained(users, replies), Entries(users), userAt, Entries(replies), replyAt)
    ensures |userAt| == |users| && |replyAt| == |replies| && UsersFirst(users, userAt, replies, replyAt)
    decreases |users| + |replies|
  {
    hide Shuffles, UsersFirst;
    if users == [] {
      ShufflesOne(Entries(replies));
      assert Entries(users) == [];
      userAt, replyAt := [], UpTo(|replies|);
      NoUsers(replies, replyAt);
    } else if replies == [] || users[0].order <= replies[0].order {
      var a, b := MergePlaces(users[1..], replies);
      ShufflesLeft(MergeRetained(users[1..], replies), Entries(users[1..]), a, Entries(replies), b, users[0].entry);
      assert [users[0].entry] + Entries(users[1..]) == Entries(users);
      userAt, replyAt := [0] + Shift(a), Shift(b);
      UserFirst(users, a, replies, b);
    } else {
      var a, b := MergePlaces(users, replies[1..]);
      ShufflesRight(MergeRetained(users, replies[1..]), Entries(users), a, Entries(replies[1..]), b, replies[0].entry);
      assert [replies[0].entry] + Entries(replies[1..]) == Entries(replies);
      userAt, replyAt := Shift(a), [0] + Shift(b);
      OlderReplyFirst(users, a, replies, b);
    }
  }

  lemma NoUsers(replies: seq<Retained>, replyAt: seq<nat>)
    requires |replyAt| == |replies|
    ensures UsersFirst([], [], replies, replyAt)
  {}

  lemma UserFirst(users: seq<Retained>, a: seq<nat>, replies: seq<Retained>, b: seq<nat>)
    requires users != [] && |a| == |users| - 1 && |b| == |replies| && AscendingOrders(replies)
    requires replies != [] ==> users[0].order <= replies[0].order
    requires UsersFirst(users[1..], a, replies, b)
    ensures UsersFirst(users, [0] + Shift(a), replies, Shift(b))
  {
    var at := [0] + Shift(a);
    forall i, k | 0 <= i < |users| && 0 <= k < |replies|
      ensures at[i] < Shift(b)[k] <==> users[i].order <= replies[k].order
    {
      if i > 0 { assert users[1..][i - 1] == users[i]; } else { assert replies[0].order <= replies[k].order; }
    }
  }

  lemma OlderReplyFirst(users: seq<Retained>, a: seq<nat>, replies: seq<Retained>, b: seq<nat>)
    requires users != [] && replies != [] && |a| == |users| && |b| == |replies| - 1 && AscendingOrders(users)
    requires users[0].order > replies[0].order
    requires UsersFirst(users, a, replies[1..], b)
    ensures UsersFirst(users, Shift(a), replies, [0] + Shift(b))
  {
    var at := [0] + Shift(b);
    forall i, k | 0 <= i < |users| && 0 <= k < |replies|
      ensures Shift(a)[i] < at[k] <==> users[i].order <= replies[k].order
    {
      if k > 0 { assert replies[1..][k - 1] == replies[k]; } else { assert users[0].order <= users[i].order; }
    }
  }

  // ---- the history a compaction leaves ------------------------------------------------------------------

  predicate HasEncrypted(h: seq<Entry>) { exists i :: 0 <= i < |h| && h[i].item.EncryptedCompaction? }

  /** A kept message of a person carries no order to go by. */
  predicate LacksOrder(h: seq<Entry>) {
    exists i :: 0 <= i < |h| && !h[i].item.EncryptedCompaction? && IsPersons(h[i]) && !IsOrdered(h[i])
  }

  lemma LacksOrderIs(kept: seq<Entry>, h: seq<Entry>, from: seq<nat>)
    requires KeptFrom(kept, h, from)
    ensures LacksOrder(h) <==> exists i :: 0 <= i < |kept| && IsUserEntry(kept[i]) && AcceptanceOrder(kept[i].meta).None?
  {
    if LacksOrder(h) {
      var p :| 0 <= p < |h| && !h[p].item.EncryptedCompaction? && IsPersons(h[p]) && !IsOrdered(h[p]);
      var i :| 0 <= i < |from| && from[i] == p;
      assert IsUserEntry(kept[i]) && AcceptanceOrder(kept[i].meta).None?;
    }
    if exists i :: 0 <= i < |kept| && IsUserEntry(kept[i]) && AcceptanceOrder(kept[i].meta).None? {
      var i :| 0 <= i < |kept| && IsUserEntry(kept[i]) && AcceptanceOrder(kept[i].meta).None?;
      assert IsPersons(h[from[i]]) && !IsOrdered(h[from[i]]);
    }
  }

  lemma KeptUsersAscend(kept: seq<Entry>, h: seq<Entry>, from: seq<nat>)
    requires KeptFrom(kept, h, from) && AscendingUsers(h)
    ensures AscendingUsers(kept)
  {
    hide HasUserOrder;
    forall i, j, a, b | 0 <= i < j < |kept| && HasUserOrder(kept[i], a) && HasUserOrder(kept[j], b) ensures a <= b {
      assert HasUserOrder(h[from[i]], a) && HasUserOrder(h[from[j]], b) && from[i] < from[j];
    }
  }

  /** With nothing encrypted in it, it is the replacement itself. */
  lemma PlainCompactionIsItsReplacement(c: Compaction)
    requires c.replacement.Some? && !HasEncrypted(c.replacement.value)
    ensures CheckpointHistory(c) == c.replacement.value
  {}

  /** With something encrypted, and each kept message of a person carrying its order:
      what is kept of the replacement and the retained replies, all of both and each
      in its order, a reply before exactly the messages of persons accepted after it. */
  lemma RepliesComeBetween(c: Compaction) returns (kept: seq<Entry>, from: seq<nat>, keptAt: seq<nat>, replyAt: seq<nat>)
    requires c.replacement.Some? && HasEncrypted(c.replacement.value) && !LacksOrder(c.replacement.value)
    requires AscendingOrders(c.replies) && AscendingUsers(c.replacement.value)
    ensures KeptFrom(kept, c.replacement.value, from)
    ensures Shuffles(CheckpointHistory(c), kept, keptAt, Entries(c.replies), replyAt)
    ensures RepliesInPlace(kept, keptAt, c.replies, replyAt)
  {
    hide HasUserOrder;
    kept := WithoutCompactions(c.replacement.value);
    from := WithoutCompactionsKeeps(c.replacement.value);
    LacksOrderIs(kept, c.replacement.value, from);
    KeptUsersAscend(kept, c.replacement.value, from);
    if c.replies == [] {
      ShufflesOne(kept);
      keptAt, replyAt := UpTo(|kept|), [];
      assert Entries(c.replies) == [];
    } else {
      keptAt, replyAt := InterleavePlaces(kept, c.replies);
    }
  }

  /** With a kept message of a person that carries none: only what was retained, users
      and replies by their orders, a user message first where they tie; and without a
      retained reply what is kept of the replacement. */
  lemma RetainedComeInOrder(c: Compaction) returns (userAt: seq<nat>, replyAt: seq<nat>, from: seq<nat>)
    requires c.replacement.Some? && HasEncrypted(c.replacement.value) && LacksOrder(c.replacement.value)
    requires AscendingOrders(c.replies) && AscendingOrders(c.users)
    ensures c.replies == [] ==> KeptFrom(CheckpointHistory(c), c.replacement.value, from)
    ensures c.replies != [] ==> Shuffles(CheckpointHistory(c), Entries(c.users), userAt, Entries(c.replies), replyAt)
    ensures c.replies != [] ==> UsersFirst(c.users, userAt, c.replies, replyAt)
  {
    from := WithoutCompactionsKeeps(c.replacement.value);
    LacksOrderIs(WithoutCompactions(c.replacement.value), c.replacement.value, from);
    userAt, replyAt := MergePlaces(c.users, c.replies);
  }

  // ---- what a rebuilt thread carries -------------------------------------------------------------------

  predicate IsContextual(item: Item) {
    && item.Message? && item.role.User?
    && exists i :: 0 <= i < |item.content| && item.content[i].InputText? && item.content[i].contextual
  }

  /** Messages of the user and the assistant without what was encrypted and without
      ids, tool calls and outputs without ids and encrypted arguments, and nothing
      else: no instruction, no context, no reasoning, no compaction. */
  lemma CarriesPlainConversation(item: Item)
    ensures |PlainItem(item)| <= 1
    ensures PlainItem(item) == [] <==>
      match item
      case Message(role, _, _, _) => role.Developer? || role.System? || IsContextual(item)
      case Tool(_, _, _, _, _) => false
      case Unknown(_) => false
      case _ => true
    ensures item.Message? && PlainItem(item) != [] ==>
      var m := PlainItem(item)[0];
      && m.Message? && m.role == item.role && m.id.None? && m.passthroughTurn == item.passthroughTurn
      && (forall p :: p in m.content <==> p in item.content && !p.Encrypted?)
    ensures item.Tool? ==>
      var m := PlainItem(item)[0];
      && m.Tool? && m.kind == item.kind && m.body == item.body && m.id.None? && m.encryptedArgs.None?
      && (!item.output.Parts? ==> m.output == item.output)
      && (item.output.Parts? && (item.output.parts == [] || exists p :: p in item.output.parts && !p.Encrypted?) ==>
            m.output.Parts? && forall p :: p in m.output.parts <==> p in item.output.parts && !p.Encrypted?)
      && (item.output.Parts? && item.output.parts != [] && (forall p :: p in item.output.parts ==> p.Encrypted?) ==>
            m.output == Text(WITHHELD_OUTPUT))
  {
    match item
    case Message(_, content, _, _) => WithoutEncryptedKeeps(content);
    case Tool(_, _, _, _, output) => if output.Parts? { WithoutEncryptedKeeps(output.parts); }
    case _ =>
  }

  lemma {:induction false} WithoutEncryptedKeeps(ps: seq<Part>)
    ensures forall p :: p in WithoutEncrypted(ps) <==> p in ps && !p.Encrypted?
    ensures |WithoutEncrypted(ps)| <= |ps|
    ensures WithoutEncrypted(ps) == [] <==> forall p :: p in ps ==> p.Encrypted?
  {
    if ps != [] {
      WithoutEncryptedKeeps(ps[1..]);
      assert ps == [ps[0]] + ps[1..];
      var rest := WithoutEncrypted(ps);
      if rest == [] { assert forall p :: p in ps ==> p.Encrypted?; }
      else { assert rest[0] in rest; }
    }
  }

  // ---- what a log's items are --------------------------------------------------------------------------

  /** What opens a user turn: an agent's message, a person's message with no context
      and no summary in it, or an assistant's whose one part another agent wrote. */
  lemma WhatOpensAUserTurn(item: Item)
    ensures IsUserTurnBoundary(item) <==>
      match item
      case AgentMessage(_) => true
      case Message(role, content, _, _) =>
        if role.User? then forall p :: p in content ==> !(p.InputText? && (p.contextual || p.summary))
        else role.Assistant? && |content| == 1 && !content[0].Encrypted? && !content[0].OtherPart? && content[0].interAgent
      case _ => false
  {
    if item.Message? { assert forall p :: p in item.content ==> exists i :: 0 <= i < |item.content| && item.content[i] == p; }
  }

  /** What a history keeps of the items logged: all but system messages, items of a
      type codex does not keep, and configuration that is not the harness's own. What
      was delivered from code mode is an assistant's one output text under its turn,
      marked so and with its order. */
  lemma WhatIsHistory(e: Entry)
    ensures IsHistoryItem(e) <==>
      !(e.item.Message? && e.item.role.System?) && !e.item.Unknown?
      && (e.item.Configuration? ==> e.meta.Some? && e.meta.value.harnessConfig)
    ensures IsDelivered(e) <==>
      && e.item.Message? && e.item.role.Assistant? && e.item.passthroughTurn
      && (exists part :: e.item.content == [part] && part.OutputText?)
      && e.meta.Some? && e.meta.value.delivered && e.meta.value.order.Some?
  {
    if e.item.Message? && |e.item.content| == 1 { assert e.item.content == [e.item.content[0]]; }
  }

  /** A compaction bounds a replay by itself only with its replacement and its window
      number, and in a legacy rollout only with resume metadata too. */
  lemma WhatBounds(c: Compaction)
    ensures Bounds(c, Paginated) <==> c.replacement.Some? && c.windowNumber
    ensures Bounds(c, Legacy) <==> c.replacement.Some? && c.windowNumber && c.resumeMetadata
  {}

  /** A rollback takes what stands from the message of a person it cuts at; and where
      that carries its order, also the replies and calls before it accepted no earlier. */
  lemma {:induction false} WhatARollbackTakes(h: seq<Entry>, turns: nat)
    requires turns > 0 && CountBoundaries(h) > 0
    ensures var cut := CutPoint(h, turns); var left := DropLastUserTurns(h, turns);
      && (!IsOrdered(h[cut]) ==> left == h[..cut])
      && (IsOrdered(h[cut]) ==> |left| <= cut && forall e :: e in left <==>
            e in h[..cut] &&
            !(((e.item.Message? && e.item.role.Assistant?) || (e.item.Tool? && e.item.kind == "function_call"))
              && IsOrdered(e) && e.meta.value.order.value >= h[cut].meta.value.order.value))
  {
    var cut := CutPoint(h, turns);
    if IsOrdered(h[cut]) { WithoutLate(h[..cut], h[cut].meta.value.order.value); }
  }

  lemma {:induction false} WithoutLate(h: seq<Entry>, boundary: int)
    ensures |WithoutAcceptedAfter(h, boundary)| <= |h|
    ensures forall e :: e in WithoutAcceptedAfter(h, boundary) <==>
      e in h &&
      !(((e.item.Message? && e.item.role.Assistant?) || (e.item.Tool? && e.item.kind == "function_call"))
        && IsOrdered(e) && e.meta.value.order.value >= boundary)
  {
    if h != [] {
      WithoutLate(h[1..], boundary);
      assert h == [h[0]] + h[1..];
    }
  }
}
