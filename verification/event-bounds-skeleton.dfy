/**
 What is left of a payload that is down to its skeleton, key by key.
 */
module EventBoundsSkeleton {
  import opened Wrappers
  import opened EventBounds

  /** Of an identity value: a string cut to 256 bytes, a scalar as it is, nothing else. */
  function Kept(t: Texts, v: Option<Json>): Option<Json> {
    if v.None? then None
    else match v.value
      case Str(s) => Some(Str(t.cut(s, 256)))
      case Null => v
      case Bool(_) => v
      case Num(_) => v
      case _ => None
  }

  /** What is under `key` of `fs` if only `keys` are kept. */
  function KeptOf(t: Texts, fs: seq<Field>, keys: seq<Key>, key: Key): Option<Json> {
    if key in keys then Kept(t, Lookup(fs, key)) else None
  }

  lemma {:induction false} LookupConcat(a: seq<Field>, b: seq<Field>, key: Key)
    ensures Lookup(a + b, key) == if Lookup(a, key).Some? then Lookup(a, key) else Lookup(b, key)
  {
    if a == [] {
      assert a + b == b;
    } else {
      assert (a + b)[1..] == a[1..] + b && (a + b)[0] == a[0];
      LookupConcat(a[1..], b, key);
    }
  }

  lemma {:induction false} IdentityAt(t: Texts, fs: seq<Field>, keys: seq<Key>, key: Key)
    ensures Lookup(Identity(t, fs, keys), key) == KeptOf(t, fs, keys, key)
  {
    if keys != [] {
      var v, tail := Lookup(fs, keys[0]), Identity(t, fs, keys[1..]);
      var head := if Kept(t, v).Some? then [Field(keys[0], Kept(t, v).value)] else [];
      assert Identity(t, fs, keys) == head + tail;
      IdentityAt(t, fs, keys[1..], key);
      LookupConcat(head, tail, key);
      assert key in keys <==> key == keys[0] || key in keys[1..];
      assert Lookup(head, key) == if key == keys[0] then Kept(t, v) else None by {
        if head != [] { LookupFirst(head[0], [], key); }
      }
      hide Identity, Kept;
    }
  }

  /** How many of the items are objects. */
  function Objects(items: seq<Json>): nat {
    if items == [] then 0 else Objects(items[..|items| - 1]) + if items[|items| - 1].Obj? then 1 else 0
  }

  lemma {:induction false} BlocksConcat(t: Texts, a: seq<Json>, b: seq<Json>)
    ensures Blocks(t, a + b) == Blocks(t, a) + Blocks(t, b)
  {
    if a == [] {
      assert a + b == b;
    } else {
      assert (a + b)[1..] == a[1..] + b;
      BlocksConcat(t, a[1..], b);
      hide Identity;
    }
  }

  lemma {:induction false} BlocksCount(t: Texts, items: seq<Json>)
    ensures |Blocks(t, items)| == Objects(items)
  {
    if items != [] {
      var init, last := items[..|items| - 1], items[|items| - 1..];
      BlocksCount(t, init);
      BlocksConcat(t, init, last);
      assert init + last == items && last[1..] == [];
      hide Identity;
    }
  }

  /** The object at `i` is the block after those of the objects before it. */
  lemma BlockAt(t: Texts, items: seq<Json>, i: nat, key: Key)
    requires i < |items| && items[i].Obj?
    ensures var block := Objects(items[..i]);
      block < |Blocks(t, items)| && Blocks(t, items)[block].Obj? &&
      Lookup(Blocks(t, items)[block].fields, key) ==
        KeptOf(t, items[i].fields, [Type, Id, ToolUseId, Name, IsError], key)
  {
    var before, here, after := items[..i], items[i..i + 1], items[i + 1..];
    assert items == before + (here + after);
    BlocksConcat(t, before, here + after);
    BlocksConcat(t, here, after);
    BlocksCount(t, before);
    assert Blocks(t, here) == [Obj(Identity(t, items[i].fields, BLOCK_KEYS))] by { assert here[1..] == []; }
    IdentityAt(t, items[i].fields, BLOCK_KEYS, key);
    hide Identity, Blocks, KeptOf, Lookup;
  }

  /** The content of a message keeps, of its first hundred items, the objects, each with
      its identity only, and says how many items it had more. */
  lemma ContentOfSkeleton(t: Texts, fs: seq<Field>, i: nat, key: Key)
    ensures var content, kept := Lookup(fs, Content), Lookup(MessageSkeleton(t, fs), Content);
      if content.None? || !content.value.Arr? then kept == None
      else
        var items := content.value.items;
        var head := if |items| > 100 then items[..100] else items;
        kept.Some? && kept.value.Arr? && |kept.value.items| == Objects(head) + (if |items| > 100 then 1 else 0) &&
        (|items| > 100 ==>
           kept.value.items[Objects(head)] ==
             Obj([Field(Type, Str("zwrm_omitted")), Field(OmittedItems, Num(t.digits(|items| - 100)))])) &&
        (i < |head| && head[i].Obj? ==>
           Objects(head[..i]) < Objects(head) && kept.value.items[Objects(head[..i])].Obj? &&
           Lookup(kept.value.items[Objects(head[..i])].fields, key) ==
             KeptOf(t, head[i].fields, [Type, Id, ToolUseId, Name, IsError], key))
  {
    var content := Lookup(fs, Content);
    IdentityAt(t, fs, MESSAGE_KEYS, Content);
    var ids := Identity(t, fs, MESSAGE_KEYS);
    var rest := MessageSkeleton(t, fs)[|ids|..];
    assert MessageSkeleton(t, fs) == ids + rest;
    LookupConcat(ids, rest, Content);
    if content.Some? && content.value.Arr? {
      var items := content.value.items;
      var head := if |items| > 100 then items[..100] else items;
      BlocksCount(t, head);
      if i < |head| && head[i].Obj? { BlockAt(t, head, i, key); }
      LookupFirst(rest[0], [], Content);
      assert rest == [rest[0]];
      hide Blocks, Identity, KeptOf, Objects;
    }
  }

  /** Of a message its id, type, role and model stay, and what is said of its content. */
  lemma MessageOfSkeleton(t: Texts, fs: seq<Field>, key: Key)
    requires key != Content
    ensures Lookup(MessageSkeleton(t, fs), key) == KeptOf(t, fs, [Id, Type, Role, Model], key)
  {
    IdentityAt(t, fs, MESSAGE_KEYS, key);
    var ids := Identity(t, fs, MESSAGE_KEYS);
    var rest := MessageSkeleton(t, fs)[|ids|..];
    assert MessageSkeleton(t, fs) == ids + rest;
    LookupConcat(ids, rest, key);
    if rest != [] {
      LookupFirst(rest[0], [], key);
      assert rest == [rest[0]];
    }
    hide Blocks, Identity, KeptOf;
  }

  lemma NotKept(t: Texts, fs: seq<Field>, keys: seq<Key>, key: Key)
    ensures key !in keys ==> KeptOf(t, fs, keys, key) == None
  {}

  lemma SkeletonAt(t: Texts, payload: Json, key: Key)
    requires payload.Obj?
    ensures var got, message := Lookup(Skeleton(t, payload), key), Lookup(payload.fields, Message);
      got ==
        if key == Message && message.Some? && message.value.Obj? then
          Some(Obj(MessageSkeleton(t, message.value.fields)))
        else KeptOf(t, payload.fields, IDENTITY_KEYS, key)
  {
    hide KeptOf, MessageSkeleton, Identity;
    var ids, message := Identity(t, payload.fields, IDENTITY_KEYS), Lookup(payload.fields, Message);
    var rest :=
      if message.Some? && message.value.Obj? then [Field(Message, Obj(MessageSkeleton(t, message.value.fields)))] else [];
    assert Skeleton(t, payload) == ids + rest;
    IdentityAt(t, payload.fields, IDENTITY_KEYS, key);
    NotKept(t, payload.fields, IDENTITY_KEYS, key);
    LookupConcat(ids, rest, key);
    assert Lookup(rest, key) == if rest != [] && key == Message then Some(rest[0].value) else None;
  }

  /** A skeleton holds the marks of the cut, the payload's identity, the skeleton of its
      message if that is an object, and nothing else. */
  lemma SkeletonHolds(t: Texts, payload: Json, key: Key)
    ensures var out := SkeletonOnly(t, payload);
      out.Obj? &&
      var got, fs := Lookup(out.fields, key), if payload.Obj? then payload.fields else [];
      var message := Lookup(fs, Message);
      if key == ZwrmTruncated then got == Some(Bool(true))
      else if key == OriginalBytes then got == Some(Num(t.digits(Size(t, payload))))
      else if key == Message && message.Some? && message.value.Obj? then
        got == Some(Obj(MessageSkeleton(t, message.value.fields)))
      else
        got == KeptOf(t, fs,
                 [Type, Subtype, Uuid, SessionId, RequestId, ToolName, ToolUseId, Kind, State, ParentToolUseId, Id, Name],
                 key)
  {
    hide With, Size, MessageSkeleton, Identity, Skeleton;
    var skeleton, marked := Skeleton(t, payload), With(Skeleton(t, payload), ZwrmTruncated, Bool(true));
    WithHas(skeleton, ZwrmTruncated, Bool(true), key);
    WithHas(marked, OriginalBytes, Count(t, Size(t, payload)), key);
    if payload.Obj? {
      SkeletonAt(t, payload, key);
      hide KeptOf, Lookup;
    } else {
      NoSkeleton(t, payload);
    }
  }

  lemma NoSkeleton(t: Texts, payload: Json)
    ensures !payload.Obj? ==> Skeleton(t, payload) == []
  {}
}
