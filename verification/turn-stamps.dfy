/**
 Which turn every emitted event names, over every run and told from the log
 alone: late output keeps the draining turn, everything else is the open turn's.
 */
module TurnStamps {
  import opened Wrappers
  import opened EventKinds
  import opened TurnEvents
  import opened TurnBrackets

  /** An event a caller emitted, not one the pusher makes itself. */
  predicate IsCallers(e: Entry) { !e.kind.TurnStarted? && !e.kind.TurnCompleted? && !e.kind.FilesChanged? }

  /** What entry `j` names, where `open` is the turn open just before it. */
  predicate NamesRightly(log: seq<Entry>, j: nat, open: Option<TurnId>)
    requires j < |log|
  {
    var e := log[j];
    && (IsCallers(e) ==>
          e.turn ==
            if e.unstamped then None
            else if (e.kind.Sdk? || e.kind.TodoUpdated?) && e.draining.Some? then e.draining
            else open)
    && (e.kind.FilesChanged? ==> j > 0 && log[j - 1].kind.Sdk? && e.turn == log[j - 1].turn && e.turn.Some?)
  }

  function OpenBefore(log: seq<Entry>, j: nat): Option<TurnId>
    requires j <= |log|
  {
    if Read(log[..j]).Reading? then Read(log[..j]).open else None
  }

  predicate AllNamed(log: seq<Entry>) {
    forall j :: 0 <= j < |log| ==> NamesRightly(log, j, OpenBefore(log, j))
  }

  lemma NamedPrefix(log: seq<Entry>, e: Entry)
    requires AllNamed(log) && NamesRightly(log + [e], |log|, OpenBefore(log + [e], |log|))
    ensures AllNamed(log + [e])
  {
    var all := log + [e];
    forall j | 0 <= j < |all| ensures NamesRightly(all, j, OpenBefore(all, j)) {
      if j < |log| {
        assert all[..j] == log[..j];
        assert NamesRightly(log, j, OpenBefore(log, j));
      }
    }
  }

  lemma OpenAtEnd(log: seq<Entry>, e: Entry)
    ensures OpenBefore(log + [e], |log|) == if Read(log).Reading? then Read(log).open else None
  {
    assert (log + [e])[..|log|] == log;
  }

  /** One entry more, and one more. */
  lemma NamedTwo(log: seq<Entry>, x: Entry, y: Entry)
    requires AllNamed(log + [x]) && NamesRightly(log + [x] + [y], |log| + 1, OpenBefore(log + [x] + [y], |log| + 1))
    ensures AllNamed(log + [x, y])
  {
    NamedPrefix(log + [x], y);
    assert log + [x] + [y] == log + [x, y];
  }

  lemma NamedEmit(w: World, c: Call)
    requires Inv(w) && Enabled(w, c) && AllNamed(w.log) && c.Emit?
    ensures AllNamed(NextLog(w, c))
  {
    hide Read, AllNamed, OpenBefore;
    var items := Items(w.turns, c);
    var es := Logged(items, w.turns.draining, c.unstamped);
    assert NextLog(w, c) == w.log + es;
    assert es == [es[0]] || es == [es[0], es[1]];
    OpenAtEnd(w.log, es[0]);
    NamedPrefix(w.log, es[0]);
    if |es| == 2 {
      ReadConcat(w.log, es[0]);
      OpenAtEnd(w.log + [es[0]], es[1]);
      NamedTwo(w.log, es[0], es[1]);
    }
  }

  lemma NamedBrackets(w: World, c: Call)
    requires AllNamed(w.log) && !c.Emit?
    ensures AllNamed(NextLog(w, c))
  {
    hide Read, AllNamed, OpenBefore;
    var es := Logged(Items(w.turns, c), w.turns.draining, false);
    if |es| == 0 {
      assert w.log + es == w.log;
    } else {
      assert es == [es[0]] || es == [es[0], es[1]];
      NamedPrefix(w.log, es[0]);
      if |es| == 2 { NamedTwo(w.log, es[0], es[1]); }
    }
  }

  lemma {:induction false} RunIsNamed(w: World, calls: seq<Call>)
    requires Inv(w) && AllNamed(w.log) && Legal(w, calls)
    ensures AllNamed(Run(w, calls).log)
    decreases |calls|
  {
    if calls != [] {
      hide Inv, AllNamed, Enabled, NextLog, NextDrains;
      StepKeepsInv(w, calls[0]);
      if calls[0].Emit? { NamedEmit(w, calls[0]); } else { NamedBrackets(w, calls[0]); }
      RunIsNamed(Next(w, calls[0]), calls[1..]);
    }
  }

  /** In every run, for every entry of the log: output of the kinds "sdk." and
      "todo.updated" emitted while a turn drains names that turn; any other event a
      caller emitted names the turn open just before it, or none when none is open;
      an explicit null names none; a terminal event names none; and a file summary
      names the turn of the output it follows. */
  lemma EveryEventNamesItsTurn(calls: seq<Call>, j: nat)
    requires Legal(Initial, calls) && j < |Run(Initial, calls).log|
    ensures var log := Run(Initial, calls).log; var e := log[j];
      && (IsCallers(e) && e.unstamped ==> e.turn.None?)
      && (IsCallers(e) && !e.unstamped && (e.kind.Sdk? || e.kind.TodoUpdated?) && e.draining.Some? ==> e.turn == e.draining)
      && (IsCallers(e) && !e.unstamped && !((e.kind.Sdk? || e.kind.TodoUpdated?) && e.draining.Some?) ==>
            forall t :: e.turn == Some(t) <==> OpenAt(log, t, j))
      && (e.kind.SessionEnded? || e.kind.SessionError? ==> e.turn.None?)
      && (e.kind.FilesChanged? ==> j > 0 && log[j - 1].kind.Sdk? && e.turn.Some? && e.turn == log[j - 1].turn)
  {
    var w := Run(Initial, calls);
    RunKeepsInv(Initial, calls);
    RunIsNamed(Initial, calls);
    Met(w.log, j);
    ReadableIsPaired(w.log);
    assert NamesRightly(w.log, j, OpenBefore(w.log, j));
    hide Run, Read, Read1, Inside, ClosedBefore;
  }

  // ---- the turn that drains -----------------------------------------------------------------------

  /** None of `calls` finishes the drain of `turn`, nor starts another one with a turn open. */
  predicate StillDrains(w: World, calls: seq<Call>, turn: TurnId)
    requires Legal(w, calls)
    decreases |calls|
  {
    calls == [] ||
    (&& calls[0] != FinishDraining(Some(turn)) && !(calls[0].StartDraining? && w.turns.active.Some?)
     && StillDrains(Next(w, calls[0]), calls[1..], turn))
  }

  lemma {:induction false} DrainStays(w: World, calls: seq<Call>, turn: TurnId)
    requires Legal(w, calls) && w.turns.draining == Some(turn) && StillDrains(w, calls, turn)
    ensures Run(w, calls).turns.draining == Some(turn)
    decreases |calls|
  {
    if calls != [] {
      hide NextLog, NextDrains, Enabled;
      DrainStays(Next(w, calls[0]), calls[1..], turn);
    }
  }

  /** An interrupted turn drains from its interrupt until that drain is finished or
      another open turn is interrupted. */
  lemma InterruptedTurnDrains(w: World, calls: seq<Call>, turn: TurnId)
    requires w.turns.active == Some(turn) && Legal(w, [StartDraining] + calls)
    requires StillDrains(Next(w, StartDraining), ([StartDraining] + calls)[1..], turn)
    ensures Run(w, [StartDraining] + calls).turns.draining == Some(turn)
  {
    DrainStays(Next(w, StartDraining), ([StartDraining] + calls)[1..], turn);
    hide NextLog, NextDrains, StillDrains;
  }

  /** Of what a call queues only the caller's own event can be a partial, and it stands
      as the caller gave it; brackets and file summaries are durable, and a summary
      follows exactly a stamped event whose payload changed files. */
  lemma OnlyTheCallersEventIsPartial(t: Turns, c: Call)
    ensures var items := Items(t, c);
      if c.Emit? then
        var own := if c.kind.IsTerminal() && t.active.Some? then 1 else 0;
        && own < |items| <= own + 2
        && items[own].kind == c.kind && items[own].ephemeral == c.ephemeral && items[own].payload == Given(c.json)
        && (own == 1 ==> items[0] == Item(TurnCompleted, t.active, false, Notice))
        && (|items| == own + 2 <==> c.files && items[own].turn.Some?)
        && (|items| == own + 2 ==> items[own + 1] == Item(FilesChanged, items[own].turn, false, Notice))
      else
        forall i :: 0 <= i < |items| ==>
          !items[i].ephemeral && items[i].payload == Notice && (items[i].kind.TurnStarted? || items[i].kind.TurnCompleted?)
  {}
}
