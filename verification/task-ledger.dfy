/**
 The background-task ledger of `agent-base/agentd/drivers/claude-tasks.mjs`: which
 tasks of the CLI are alive, from its messages, and for how long they count.
 Times are milliseconds. Descriptions are not part of this model.
 */
module TaskLedger {
  import opened Wrappers

  const BACKGROUND_TASK_TTL_MS := 7200000
  const CLI_TIMEOUT_CAP_MS := 2147483647
  const HOUR_MS := 3600000

  // ---- ceilings -------------------------------------------------------------------------

  /** An environment value: unset or blank, a plain integer, or anything else. */
  datatype EnvValue = Unset | Digits(n: nat) | Garbled

  function ReadMs(v: EnvValue): Option<nat> {
    match v
    case Unset => None
    case Digits(n) => if n > 0 then Some(n) else None
    case Garbled => Some(CLI_TIMEOUT_CAP_MS)
  }

  function Max(a: nat, b: nat): nat { if a < b then b else a }
  function Min(a: nat, b: nat): nat { if a < b then a else b }

  /** The longest a background command may run: its defaults raised by either
      variable, at least two hours and at most the cap. */
  function ShellCeilingMs(default: EnvValue, max: EnvValue): nat {
    var def := ReadMs(default).GetOr(2 * 60 * 1000);
    var bashMax := if ReadMs(max).None? then Max(10 * 60 * 1000, def) else Max(ReadMs(max).value, def);
    Min(Max(2 * HOUR_MS, bashMax), CLI_TIMEOUT_CAP_MS)
  }

  function LevelTaskTtlMs(default: EnvValue, max: EnvValue): nat { ShellCeilingMs(default, max) + HOUR_MS }

  // ---- the ledger -------------------------------------------------------------------------

  datatype Ledger = Ledger(tasks: map<string, int>, level: bool, levelTtlMs: nat)

  datatype Listed = Listed(id: string, ambient: bool)

  /** The messages the ledger reads. A level whose list is malformed, and any other
      message, is `Other`. `Settled` is a terminal `task_updated` or a `task_notification`,
      `Alive` a `task_progress` or any other `task_updated`. */
  datatype Message = Level(tasks: seq<Listed>) | Started(id: string, ambient: bool) | Alive(id: string) | Settled(id: string) | Other

  function Listing(tasks: seq<Listed>, now: int): (m: map<string, int>)
    ensures m.Keys == NonAmbient(tasks)
    ensures forall id :: id in m ==> m[id] == now
  {
    if tasks == [] then map[]
    else
      var last := tasks[|tasks| - 1];
      var m := Listing(tasks[..|tasks| - 1], now);
      if last.ambient then m else m[last.id := now]
  }

  /** The tasks a level counts: ambient ones are not activity. */
  function NonAmbient(tasks: seq<Listed>): set<string> {
    if tasks == [] then {}
    else NonAmbient(tasks[..|tasks| - 1]) + if tasks[|tasks| - 1].ambient then {} else {tasks[|tasks| - 1].id}
  }

  function Without(tasks: map<string, int>, id: string): (m: map<string, int>)
    ensures m.Keys == tasks.Keys - {id}
    ensures forall x :: x in m ==> m[x] == tasks[x]
  {
    map x | x in tasks && x != id :: tasks[x]
  }

  /** The ledger after a message, and whether the original reports a change. */
  function Apply(l: Ledger, msg: Message, now: int): (Ledger, bool) {
    match msg
    case Level(tasks) =>
      var after := Listing(tasks, now);
      (l.(level := true, tasks := after), |after.Keys| != |l.tasks.Keys| || exists id :: id in after && id !in l.tasks)
    case Started(id, ambient) =>
      if id == "" || l.level || ambient then (l, false) else (l.(tasks := l.tasks[id := now]), true)
    case Alive(id) =>
      if id in l.tasks && id != "" then (l.(tasks := l.tasks[id := now]), false) else (l, false)
    case Settled(id) =>
      if id == "" then (l, false) else (l.(tasks := Without(l.tasks, id)), id in l.tasks)
    case Other => (l, false)
  }

  function Fresh(default: EnvValue, max: EnvValue): Ledger { Ledger(map[], false, LevelTaskTtlMs(default, max)) }

  function Ttl(l: Ledger): nat { if l.level then l.levelTtlMs else BACKGROUND_TASK_TTL_MS }

  predicate Counts(l: Ledger, id: string, now: int) { id in l.tasks && now - l.tasks[id] < Ttl(l) }

  function LiveTasks(l: Ledger, now: int): set<string> { set id | id in l.tasks && Counts(l, id, now) }

  function CountBackgroundTasks(l: Ledger, now: int): nat { |LiveTasks(l, now)| }

  function ApplyAll(l: Ledger, msgs: seq<(Message, int)>): Ledger {
    if msgs == [] then l else Apply(ApplyAll(l, msgs[..|msgs| - 1]), msgs[|msgs| - 1].0, msgs[|msgs| - 1].1).0
  }

  // ---- convergence --------------------------------------------------------------------------

  function SettledIn(msgs: seq<(Message, int)>): set<string> {
    if msgs == [] then {}
    else
      var last := msgs[|msgs| - 1].0;
      SettledIn(msgs[..|msgs| - 1]) + if last.Settled? && last.id != "" then {last.id} else {}
  }

  predicate NoLevel(msgs: seq<(Message, int)>) { forall i :: 0 <= i < |msgs| ==> !msgs[i].0.Level? }

  /** Once a level came, the members are its non-ambient tasks less those settled
      since, whatever else was said before and after. */
  lemma {:induction false} MembersFollowLevel(l: Ledger, before: seq<(Message, int)>, tasks: seq<Listed>, at: int,
      after: seq<(Message, int)>)
    requires NoLevel(after)
    ensures var l' := ApplyAll(l, before + [(Level(tasks), at)] + after);
      l'.level && l'.tasks.Keys == NonAmbient(tasks) - SettledIn(after)
  {
    var all := before + [(Level(tasks), at)] + after;
    if after == [] {
      assert all[..|all| - 1] == before;
      hide Listing;
    } else {
      var init := after[..|after| - 1];
      assert all[..|all| - 1] == before + [(Level(tasks), at)] + init;
      MembersFollowLevel(l, before, tasks, at, init);
      hide Listing, NonAmbient, ApplyAll;
      assert ApplyAll(l, all) == Apply(ApplyAll(l, all[..|all| - 1]), all[|all| - 1].0, all[|all| - 1].1).0 by { LastApplied(l, all); }
      assert all[|all| - 1] == after[|after| - 1];
    }
  }

  lemma LastApplied(l: Ledger, msgs: seq<(Message, int)>)
    requires msgs != []
    ensures ApplyAll(l, msgs) == Apply(ApplyAll(l, msgs[..|msgs| - 1]), msgs[|msgs| - 1].0, msgs[|msgs| - 1].1).0
  {}

  /** A level and a settle edge of the same moment may come in either order exactly
      if the level leaves that task out. */
  lemma LevelAndSettleCommute(l: Ledger, tasks: seq<Listed>, id: string, at: int)
    requires id != ""
    ensures var levelFirst := Apply(Apply(l, Level(tasks), at).0, Settled(id), at).0;
      var settleFirst := Apply(Apply(l, Settled(id), at).0, Level(tasks), at).0;
      levelFirst == settleFirst <==> id !in NonAmbient(tasks)
  {
    var m := Listing(tasks, at);
    hide Listing, NonAmbient;
    if id !in NonAmbient(tasks) { assert Without(m, id) == m; }
  }

  // ---- entries and their times, told by the messages --------------------------------------------

  /** The message puts or keeps the task `id` in the ledger, as of its time. */
  predicate Touches(msg: Message, id: string, leveled: bool) {
    match msg
    case Level(tasks) => exists i :: 0 <= i < |tasks| && tasks[i].id == id && !tasks[i].ambient
    case Started(x, ambient) => x == id && id != "" && !ambient && !leveled
    case _ => false
  }

  /** The message takes the task out. */
  predicate Removes(msg: Message, id: string) {
    match msg
    case Level(tasks) => forall i :: 0 <= i < |tasks| && tasks[i].id == id ==> tasks[i].ambient
    case Settled(x) => x == id && id != ""
    case _ => false
  }

  lemma {:induction false} NonAmbientIs(tasks: seq<Listed>, id: string)
    ensures id in NonAmbient(tasks) <==> exists i :: 0 <= i < |tasks| && tasks[i].id == id && !tasks[i].ambient
  {
    if tasks != [] {
      var init, n := tasks[..|tasks| - 1], |tasks| - 1;
      NonAmbientIs(init, id);
      if id in NonAmbient(init) {
        var i :| 0 <= i < n && init[i].id == id && !init[i].ambient;
        assert tasks[i].id == id && !tasks[i].ambient;
      }
      if exists i :: 0 <= i < |tasks| && tasks[i].id == id && !tasks[i].ambient {
        var i :| 0 <= i < |tasks| && tasks[i].id == id && !tasks[i].ambient;
        if i < n { assert init[i].id == id && !init[i].ambient; }
      }
    }
  }

  /** One message, exactly: who is in the ledger after it, and as of when. A task that
      is touched is as of now; one said to be alive too, if it is in; every other one
      still in keeps its time. */
  lemma EntriesAfter(l: Ledger, msg: Message, now: int, id: string)
    ensures var l' := Apply(l, msg, now).0;
      && (id in l'.tasks <==> Touches(msg, id, l.level) || (id in l.tasks && !Removes(msg, id)))
      && (id in l'.tasks ==>
            l'.tasks[id] ==
              if Touches(msg, id, l.level) || (msg == Alive(id) && id != "") then now else l.tasks[id])
      && l'.level == (l.level || msg.Level?) && l'.levelTtlMs == l.levelTtlMs
  {
    if msg.Level? { NonAmbientIs(msg.tasks, id); }
    hide NonAmbient, Listing, Without;
  }

  /** Message `i` touched the task, and none since took it out. */
  predicate InBy(msgs: seq<(Message, int)>, id: string, i: nat)
    requires i < |msgs|
  {
    && msgs[i].0.Started? && Touches(msgs[i].0, id, false)
    && forall j :: i < j < |msgs| ==> !Removes(msgs[j].0, id)
  }

  lemma {:induction false} EdgesLast(msgs: seq<(Message, int)>, id: string)
    requires msgs != []
    ensures var n := |msgs| - 1;
      (exists i :: 0 <= i < |msgs| && InBy(msgs, id, i)) <==>
        (msgs[n].0.Started? && Touches(msgs[n].0, id, false)) ||
        ((exists i :: 0 <= i < n && InBy(msgs[..n], id, i)) && !Removes(msgs[n].0, id))
  {
    hide Touches, Removes;
    var n := |msgs| - 1;
    if exists i :: 0 <= i < |msgs| && InBy(msgs, id, i) {
      var i :| 0 <= i < |msgs| && InBy(msgs, id, i);
      if i < n { assert InBy(msgs[..n], id, i); }
    }
    if (exists i :: 0 <= i < n && InBy(msgs[..n], id, i)) && !Removes(msgs[n].0, id) {
      var i :| 0 <= i < n && InBy(msgs[..n], id, i);
      assert InBy(msgs, id, i);
    }
    if msgs[n].0.Started? && Touches(msgs[n].0, id, false) { assert InBy(msgs, id, n); }
  }

  /** Before any level a task is in the ledger exactly if some message said that it
      started, not as ambient, and none since that it settled. */
  lemma {:induction false} MembersFollowEdges(default: EnvValue, max: EnvValue, msgs: seq<(Message, int)>, id: string)
    requires NoLevel(msgs)
    ensures var l := ApplyAll(Fresh(default, max), msgs);
      !l.level && (id in l.tasks <==> exists i :: 0 <= i < |msgs| && InBy(msgs, id, i))
  {
    if msgs != [] {
      var init, last := msgs[..|msgs| - 1], msgs[|msgs| - 1];
      MembersFollowEdges(default, max, init, id);
      EntriesAfter(ApplyAll(Fresh(default, max), init), last.0, last.1, id);
      LastApplied(Fresh(default, max), msgs);
      EdgesLast(msgs, id);
      hide ApplyAll, Apply, Removes, InBy;
    }
  }

  /** An entry counts for two hours from its time before any level came, and for the
      shell ceiling and an hour more once one has. */
  lemma CountsUntil(l: Ledger, default: EnvValue, max: EnvValue, id: string, now: int)
    requires id in l.tasks && l.levelTtlMs == Fresh(default, max).levelTtlMs
    ensures Counts(l, id, now) <==>
      now < l.tasks[id] + if l.level then ShellCeilingMs(default, max) + 3600000 else 7200000
  {
    hide ShellCeilingMs;
  }

  // ---- what is reported ------------------------------------------------------------------------

  lemma SameSize(a: set<string>, b: set<string>)
    requires |a| == |b| && a <= b
    ensures a == b
  {
    if a != b {
      var x :| x in b && x !in a;
      assert a <= b - {x};
      Smaller(a, b - {x});
    }
  }

  lemma {:induction false} Smaller(a: set<string>, b: set<string>)
    requires a <= b
    ensures |a| <= |b|
  {
    if a != {} {
      var x :| x in a;
      Smaller(a - {x}, b - {x});
    }
  }

  /** A change is reported exactly when the members changed, but for one case: a
      `task_started` of a task already counted, before any level, is reported too. */
  lemma ReportsMembership(l: Ledger, msg: Message, now: int)
    ensures var (l', reported) := Apply(l, msg, now);
      reported <==> l'.tasks.Keys != l.tasks.Keys || (msg.Started? && !l.level && !msg.ambient && msg.id != "" && msg.id in l.tasks)
  {
    if msg.Level? {
      var after := Listing(msg.tasks, now);
      if |after.Keys| == |l.tasks.Keys| && forall id :: id in after ==> id in l.tasks { SameSize(after.Keys, l.tasks.Keys); }
      hide Listing;
      assert after.Keys == l.tasks.Keys ==> |after.Keys| == |l.tasks.Keys|;
      if after.Keys != l.tasks.Keys && |after.Keys| == |l.tasks.Keys| {
        var id :| (id in after.Keys && id !in l.tasks.Keys) || (id !in after.Keys && id in l.tasks.Keys);
      }
    }
  }

  lemma StartedTwiceIsReported(id: string, now: int)
    requires id != ""
    ensures var l := Ledger(map[id := now], false, 0);
      Apply(l, Started(id, false), now) == (l, true)
  {
    assert map[id := now][id := now] == map[id := now];
  }

  // ---- time -------------------------------------------------------------------------------------

  /** Without messages the count never rises. */
  lemma CountFalls(l: Ledger, now: int, later: int)
    requires now <= later
    ensures CountBackgroundTasks(l, later) <= CountBackgroundTasks(l, now)
  {
    assert LiveTasks(l, later) <= LiveTasks(l, now);
    Smaller(LiveTasks(l, later), LiveTasks(l, now));
  }

  lemma CeilingBounds(default: EnvValue, max: EnvValue)
    ensures 7200000 <= ShellCeilingMs(default, max) <= 2147483647
    ensures ShellCeilingMs(default, max) in {7200000, 2147483647} ||
      default == Digits(ShellCeilingMs(default, max)) || max == Digits(ShellCeilingMs(default, max))
    ensures LevelTaskTtlMs(default, max) > ShellCeilingMs(default, max)
    ensures forall v :: v in {default, max} && v.Digits? && v.n <= 2147483647 ==> v.n <= ShellCeilingMs(default, max)
    ensures Garbled in {default, max} ==> ShellCeilingMs(default, max) == 2147483647
  {}

  /** Since the time `from`, nothing settled the task and no level left it out. */
  predicate StillListed(msgs: seq<(Message, int)>, id: string, from: int) {
    forall i :: 0 <= i < |msgs| ==>
      && msgs[i].1 >= from && msgs[i].0 != Settled(id)
      && (msgs[i].0.Level? ==> id in NonAmbient(msgs[i].0.tasks))
  }

  /** A shell that a level listed after it started counts until it must have ended,
      whatever came before and whatever else is said since: it runs no longer than
      its ceiling, and its entry outlives that. */
  lemma {:induction false} ShellCountsUntilItsEnd(default: EnvValue, max: EnvValue, before: seq<(Message, int)>,
      tasks: seq<Listed>, at: int, after: seq<(Message, int)>, id: string, started: int, now: int)
    requires id in NonAmbient(tasks) && started <= at && StillListed(after, id, at)
    requires now <= started + ShellCeilingMs(default, max)
    ensures Counts(ApplyAll(Fresh(default, max), before + [(Level(tasks), at)] + after), id, now)
  {
    EntryStays(Fresh(default, max), before, tasks, at, after, id);
    CeilingBounds(default, max);
    hide ShellCeilingMs, LevelTaskTtlMs, ApplyAll;
  }

  lemma {:induction false} EntryStays(l: Ledger, before: seq<(Message, int)>, tasks: seq<Listed>, at: int,
      after: seq<(Message, int)>, id: string)
    requires id in NonAmbient(tasks) && StillListed(after, id, at)
    ensures var l' := ApplyAll(l, before + [(Level(tasks), at)] + after);
      l'.level && l'.levelTtlMs == l.levelTtlMs && id in l'.tasks && l'.tasks[id] >= at
  {
    var all := before + [(Level(tasks), at)] + after;
    LastApplied(l, all);
    if after == [] {
      assert all[..|all| - 1] == before;
      SameTtl(l, before);
      hide NonAmbient, ApplyAll;
    } else {
      var init, last := after[..|after| - 1], after[|after| - 1];
      assert all[..|all| - 1] == before + [(Level(tasks), at)] + init && all[|all| - 1] == last;
      EntryStays(l, before, tasks, at, init, id);
      hide NonAmbient, ApplyAll;
    }
  }

  lemma {:induction false} SameTtl(l: Ledger, msgs: seq<(Message, int)>)
    ensures ApplyAll(l, msgs).levelTtlMs == l.levelTtlMs
  {
    if msgs != [] {
      SameTtl(l, msgs[..|msgs| - 1]);
      hide Listing;
    }
  }

  function LiveIn(tasks: map<string, int>, ids: set<string>, now: int, ttlMs: nat): set<string>
    requires ids <= tasks.Keys
  {
    set id | id in ids && now - tasks[id] < ttlMs
  }

  lemma LiveInMore(tasks: map<string, int>, ids: set<string>, id: string, now: int, ttlMs: nat)
    requires ids <= tasks.Keys && id in tasks && id !in ids
    ensures |LiveIn(tasks, ids + {id}, now, ttlMs)| == |LiveIn(tasks, ids, now, ttlMs)| + if now - tasks[id] < ttlMs then 1 else 0
  {
    var more, live := LiveIn(tasks, ids + {id}, now, ttlMs), LiveIn(tasks, ids, now, ttlMs);
    assert more == if now - tasks[id] < ttlMs then live + {id} else live;
  }

  lemma LiveInAll(l: Ledger, now: int)
    ensures LiveIn(l.tasks, l.tasks.Keys, now, Ttl(l)) == LiveTasks(l, now)
  {}

  // ---- the object ---------------------------------------------------------------------------------

  class BackgroundTasks {
    var tasks: map<string, int>
    var level: bool
    const levelTtlMs: nat

    ghost function View(): Ledger
      reads this
    {
      Ledger(tasks, level, levelTtlMs)
    }

    constructor (default: EnvValue, max: EnvValue)
      ensures View() == Fresh(default, max)
    {
      tasks, level, levelTtlMs := map[], false, LevelTaskTtlMs(default, max);
    }

    /** `tasks.clear()` and the loop over the listed tasks. */
    method Relist(listed: seq<Listed>, now: int)
      modifies `tasks
      ensures tasks == Listing(listed, now)
    {
      tasks := map[];
      for i := 0 to |listed|
        invariant tasks == Listing(listed[..i], now)
      {
        assert listed[..i + 1][..i] == listed[..i];
        if !listed[i].ambient { tasks := tasks[listed[i].id := now]; }
      }
      assert listed[..|listed|] == listed;
    }

    method ApplyTaskMessage(msg: Message, now: int) returns (changed: bool)
      modifies this
      ensures (View(), changed) == Apply(old(View()), msg, now)
    {
      match msg {
        case Level(listed) =>
          level := true;
          var before := tasks.Keys;
          Relist(listed, now);
          changed := |tasks.Keys| != |before| || exists id :: id in tasks && id !in before;
        case Started(id, ambient) =>
          if id == "" || level || ambient { return false; }
          tasks := tasks[id := now];
          changed := true;
        case Alive(id) =>
          if id in tasks && id != "" { tasks := tasks[id := now]; }
          changed := false;
        case Settled(id) =>
          if id == "" { return false; }
          changed := id in tasks;
          tasks := Without(tasks, id);
        case Other => changed := false;
      }
    }

    method CountTasks(now: int) returns (n: nat)
      ensures n == CountBackgroundTasks(View(), now)
    {
      hide LiveIn, LiveTasks;
      var ttlMs := if level then levelTtlMs else BACKGROUND_TASK_TTL_MS;
      n := 0;
      var left := tasks.Keys;
      ghost var seen: set<string> := {};
      assert |LiveIn(tasks, {}, now, ttlMs)| == 0 by { NoneLive(tasks, now, ttlMs); }
      while left != {}
        invariant left + seen == tasks.Keys && left !! seen
        invariant n == |LiveIn(tasks, seen, now, ttlMs)|
        decreases left
      {
        var id :| id in left;
        LiveInMore(tasks, seen, id, now, ttlMs);
        if now - tasks[id] < ttlMs { n := n + 1; }
        left, seen := left - {id}, seen + {id};
      }
      assert seen == tasks.Keys;
      LiveInAll(View(), now);
    }
  }

  lemma NoneLive(tasks: map<string, int>, now: int, ttlMs: nat)
    ensures LiveIn(tasks, {}, now, ttlMs) == {}
  {}
}
