/**
 The desktop's input lease (`agent-base/agentd/desktop.mjs`): a control file that
 says who holds input, read and rewritten by one change at a time. Times are
 milliseconds. What `Number` makes of a text is a parameter, of which only its
 answer on plain decimals is known.
 */
module DesktopLease {
  import opened Wrappers

  const CONTROL_LEASE_MS := 90000
  const LEASE_SLACK_MS := 5000

  datatype Control = Agent | User(id: string)

  /** `Number` on a text: a finite value, or none (not a number, or infinite). */
  type Reader = string -> Option<real>

  // ---- words ------------------------------------------------------------------------------

  predicate IsSpace(c: char) { c == ' ' || c == '\n' || c == '\t' || c == '\r' }

  /** The text up to its first space. */
  function FirstWord(t: string): (w: string)
    ensures |w| <= |t| && w == t[..|w|] && (|w| < |t| ==> IsSpace(t[|w|]))
    ensures forall i :: 0 <= i < |w| ==> !IsSpace(w[i])
  {
    if t == "" || IsSpace(t[0]) then "" else [t[0]] + FirstWord(t[1..])
  }

  /** `trim` and a split at runs of spaces. */
  function Words(t: string): seq<string>
    decreases |t|
  {
    if t == "" then []
    else if IsSpace(t[0]) then Words(t[1..])
    else [FirstWord(t)] + Words(t[|FirstWord(t)|..])
  }

  function Digit(d: nat): char
    requires d < 10
  {
    "0123456789"[d]
  }

  function Decimal(n: nat): (s: string)
    ensures s != "" && forall i :: 0 <= i < |s| ==> !IsSpace(s[i])
  {
    if n < 10 then [Digit(n)] else Decimal(n / 10) + [Digit(n % 10)]
  }

  const MAX_SAFE_INTEGER: nat := 9007199254740991

  /** Decimals are read exactly as far as every integer is a number. */
  ghost predicate ReadsDecimals(number: Reader) {
    forall n: nat :: n <= MAX_SAFE_INTEGER ==> number(Decimal(n)) == Some(n as real)
  }

  /** A lease taken now ends at such an integer. */
  predicate IsSafe(now: nat) { now + CONTROL_LEASE_MS <= MAX_SAFE_INTEGER }

  // ---- reading and writing --------------------------------------------------------------------

  function ParseControl(number: Reader, text: string, now: int): Control {
    var ws := Words(text);
    if |ws| < 2 || ws[0] != "user" then Agent
    else
      var until := number(ws[1]);
      if until.Some? && until.value > now as real && until.value <= (now + CONTROL_LEASE_MS + LEASE_SLACK_MS) as real
      then User(if |ws| > 2 then ws[2] else "") else Agent
  }

  function LeaseText(until: nat, id: string): string { "user " + Decimal(until) + " " + id + "\n" }

  predicate IsIdChar(c: char) { 'A' <= c <= 'Z' || 'a' <= c <= 'z' || '0' <= c <= '9' || c == '_' || c == '-' }

  predicate IsUserId(id: string) { 1 <= |id| <= 128 && forall i :: 0 <= i < |id| ==> IsIdChar(id[i]) }

  /** A change asked for: the lease for a user, by renewal or not, a hand-back, or
      one for a holder that there is not. */
  datatype Change = Take(id: string, renew: bool) | HandBack | Unknown

  datatype Answer = Now(holder: Control) | Conflict | Invalid

  /** `writeControlNow`: the file after it and its answer. The clock is read twice:
      `now` when the change is taken up, `readAt` with the file. */
  function WriteControl(number: Reader, file: string, change: Change, now: nat, readAt: int): (string, Answer) {
    if change.HandBack? then ("agent\n", Now(Agent))
    else if change.Unknown? || !IsUserId(change.id) then (file, Invalid)
    else
      var current := ParseControl(number, file, readAt);
      if change.renew && current != User(change.id) then (file, Now(current))
      else if !change.renew && current.User? && current.id != change.id then (file, Conflict)
      else (LeaseText(now + CONTROL_LEASE_MS, change.id), Now(User(change.id)))
  }

  // ---- a written lease reads back -----------------------------------------------------------------

  lemma {:induction false} WordThen(w: string, rest: string)
    requires w != "" && (forall i :: 0 <= i < |w| ==> !IsSpace(w[i])) && (rest == "" || IsSpace(rest[0]))
    ensures FirstWord(w + rest) == w && Words(w + rest) == [w] + Words(rest)
  {
    FirstWordIs(w, rest);
    assert (w + rest)[|w|..] == rest;
  }

  lemma {:induction false} FirstWordIs(w: string, rest: string)
    requires (forall i :: 0 <= i < |w| ==> !IsSpace(w[i])) && (rest == "" || IsSpace(rest[0]))
    ensures FirstWord(w + rest) == w
  {
    if w == "" {
      assert w + rest == rest;
    } else {
      assert (w + rest)[1..] == w[1..] + rest;
      FirstWordIs(w[1..], rest);
    }
  }

  lemma SpaceThen(rest: string)
    ensures Words(" " + rest) == Words(rest) && Words("\n" + rest) == Words(rest)
  {
    assert (" " + rest)[1..] == rest && ("\n" + rest)[1..] == rest;
  }

  lemma LeaseWords(until: nat, id: string)
    requires IsUserId(id)
    ensures Words(LeaseText(until, id)) == ["user", Decimal(until), id]
  {
    var d := Decimal(until);
    hide Decimal, Words;
    assert LeaseText(until, id) == "user" + (" " + (d + (" " + (id + ("\n" + "")))));
    WordThen("user", " " + (d + (" " + (id + ("\n" + "")))));
    SpaceThen(d + (" " + (id + ("\n" + ""))));
    WordThen(d, " " + (id + ("\n" + "")));
    SpaceThen(id + ("\n" + ""));
    WordThen(id, "\n" + "");
    SpaceThen("");
    NoWords();
  }

  lemma NoWords()
    ensures Words("") == []
  {}

  /** A lease written at `now` reads back to its holder exactly from its slack before then until 90 s later. */
  lemma LeaseReadsBack(number: Reader, id: string, now: nat, at: int)
    requires ReadsDecimals(number) && IsUserId(id) && now + 90000 <= 9007199254740991
    ensures ParseControl(number, LeaseText(now + 90000, id), at) ==
      if now - 5000 <= at < now + 90000 then User(id) else Agent
  {
    LeaseWords(now + 90000, id);
    hide Words, Decimal, LeaseText;
    assert number(Decimal(now + 90000)) == Some((now + 90000) as real);
  }

  // ---- what is read and written, exactly ----------------------------------------------------------

  function Spaced(words: seq<string>, gaps: seq<string>): string
    requires |gaps| == |words| + 1
  {
    if words == [] then gaps[0] else gaps[0] + (words[0] + Spaced(words[1..], gaps[1..]))
  }

  predicate IsBlank(t: string) { forall i :: 0 <= i < |t| ==> t[i] in " \t\r\n" }

  predicate IsWord(t: string) { t != "" && forall i :: 0 <= i < |t| ==> t[i] !in " \t\r\n" }

  lemma {:induction false} BlankThen(gap: string, rest: string)
    requires IsBlank(gap)
    ensures Words(gap + rest) == Words(rest)
  {
    if gap == "" {
      assert gap + rest == rest;
    } else {
      assert (gap + rest)[1..] == gap[1..] + rest && (gap + rest)[0] == gap[0];
      assert gap[0] in " \t\r\n";
      BlankThen(gap[1..], rest);
    }
  }

  /** Words with blanks between them are read as those words. */
  lemma {:induction false} WordsAreRead(words: seq<string>, gaps: seq<string>)
    requires |gaps| == |words| + 1 && (forall i :: 0 <= i < |words| ==> IsWord(words[i]))
    requires (forall i :: 0 <= i < |gaps| ==> IsBlank(gaps[i])) && forall i :: 0 < i < |words| ==> gaps[i] != ""
    ensures Words(Spaced(words, gaps)) == words
    decreases |words|
  {
    if words == [] {
      BlankThen(gaps[0], "");
      assert gaps[0] + "" == gaps[0];
      NoWords();
    } else {
      var rest := Spaced(words[1..], gaps[1..]);
      BlankThen(gaps[0], words[0] + rest);
      WordsAreRead(words[1..], gaps[1..]);
      assert IsWord(words[0]);
      assert forall i :: 0 <= i < |words[0]| ==> words[0][i] !in " \t\r\n";
      SpacedStarts(words[1..], gaps[1..]);
      WordThen(words[0], rest);
      hide Words;
    }
  }

  lemma SpacedStarts(words: seq<string>, gaps: seq<string>)
    requires |gaps| == |words| + 1 && IsBlank(gaps[0]) && (words != [] ==> gaps[0] != "")
    ensures var t := Spaced(words, gaps); t == "" || IsSpace(t[0])
  {
    if gaps[0] != "" { assert gaps[0][0] in " \t\r\n"; }
  }

  /** The file names a user exactly if its first word is "user" and its second a time
      ahead, by 95 s at most; the third is then the user's id, if there is one. */
  lemma ControlIsRead(number: Reader, words: seq<string>, gaps: seq<string>, now: int)
    requires |gaps| == |words| + 1 && (forall i :: 0 <= i < |words| ==> IsWord(words[i]))
    requires (forall i :: 0 <= i < |gaps| ==> IsBlank(gaps[i])) && forall i :: 0 < i < |words| ==> gaps[i] != ""
    ensures ParseControl(number, Spaced(words, gaps), now) ==
      if |words| >= 2 && words[0] == "user" && number(words[1]).Some? && number(words[1]).value > now as real
        && number(words[1]).value <= (now + 95000) as real
      then User(if |words| == 2 then "" else words[2])
      else Agent
  {
    WordsAreRead(words, gaps);
    hide Words, Spaced, IsWord, IsBlank;
  }

  /** What a decimal stands for. */
  function ValueOf(s: string): int {
    if s == "" then 0 else 10 * ValueOf(s[..|s| - 1]) + (s[|s| - 1] as int - '0' as int)
  }

  /** A number is written as its decimal. */
  lemma {:induction false} DecimalIsItsNumber(n: nat)
    ensures ValueOf(Decimal(n)) == n
  {
    DigitIs(n % 10);
    var d := Decimal(n);
    if n >= 10 {
      DecimalIsItsNumber(n / 10);
      assert d[..|d| - 1] == Decimal(n / 10);
    } else {
      assert d[..0] == "" && ValueOf("") == 0;
    }
  }

  lemma DigitIs(d: nat)
    requires d < 10
    ensures Digit(d) as int - '0' as int == d
  {}

  /** An id of 1 to 128 letters, digits, underscores and hyphens. */
  predicate IsAnId(id: string) {
    0 < |id| < 129 && forall i :: 0 <= i < |id| ==>
      || 'a' <= id[i] <= 'z' || 'A' <= id[i] <= 'Z' || '0' <= id[i] <= '9' || id[i] == '-' || id[i] == '_'
  }

  /** A change, exactly: a hand-back is the agent's, whoever asks; the lease is granted
      for 90 s to a user whose id is one, unless another's is live, and a renewal only
      to whose it is; anything else leaves the file as it is. */
  lemma ChangeDecides(number: Reader, file: string, id: string, now: nat, readAt: int)
    ensures WriteControl(number, file, HandBack, now, readAt) == ("agent\n", Now(Agent))
    ensures WriteControl(number, file, Unknown, now, readAt) == (file, Invalid)
    ensures var current, granted := ParseControl(number, file, readAt), "user " + Decimal(now + 90000) + " " + id + "\n";
      && WriteControl(number, file, Take(id, false), now, readAt) ==
           (if !IsAnId(id) then (file, Invalid)
            else if current == Agent || current == User(id) then (granted, Now(User(id)))
            else (file, Conflict))
      && WriteControl(number, file, Take(id, true), now, readAt) ==
           (if !IsAnId(id) then (file, Invalid)
            else if current == User(id) then (granted, Now(User(id)))
            else (file, Now(current)))
  {
    assert IsAnId(id) <==> IsUserId(id);
    hide ParseControl, Decimal;
  }

  /** No content of the file keeps the agent out more than 95 s past a read. */
  lemma NoTextLocksOut(number: Reader, text: string, at: int, later: int)
    requires later >= at + CONTROL_LEASE_MS + LEASE_SLACK_MS && ParseControl(number, text, at).User?
    ensures ParseControl(number, text, later) == Agent
  {
    hide Words;
  }

  lemma HandedBackReads(number: Reader, at: int)
    ensures ParseControl(number, "agent\n", at) == Agent
  {
    WordThen("agent", "\n" + "");
    SpaceThen("");
    NoWords();
    assert "agent" + ("\n" + "") == "agent\n";
  }

  /** Once a lapsed lease is read as the agent's it stays so, with nothing written. */
  lemma LapseIsFinal(number: Reader, text: string, a: int, b: int, c: int)
    requires a <= b <= c && ParseControl(number, text, a).User? && ParseControl(number, text, b) == Agent
    ensures ParseControl(number, text, c) == Agent
  {
    hide Words;
  }

  // ---- runs -------------------------------------------------------------------------------------

  /** One serialized change: when it was taken up, and when it read the file. */
  datatype Step = Step(change: Change, now: nat, readAt: int)

  function Run(number: Reader, file: string, steps: seq<Step>): string {
    if steps == [] then file
    else
      var last := steps[|steps| - 1];
      WriteControl(number, Run(number, file, steps[..|steps| - 1]), last.change, last.now, last.readAt).0
  }

  /** The steps follow one another, and time. */
  predicate InTime(steps: seq<Step>, from: int) {
    steps != [] ==>
      var last := steps[|steps| - 1];
      && InTime(steps[..|steps| - 1], from)
      && last.now <= last.readAt
      && End(steps[..|steps| - 1], from) <= last.now
  }

  function End(steps: seq<Step>, from: int): int { if steps == [] then from else steps[|steps| - 1].readAt }

  /** Nobody hands back, and no step finds the lease lapsed. */
  predicate NoGap(number: Reader, file: string, steps: seq<Step>) {
    steps != [] ==>
      var init, last := steps[..|steps| - 1], steps[|steps| - 1];
      && NoGap(number, file, init)
      && !last.change.HandBack?
      && ParseControl(number, Run(number, file, init), last.readAt).User?
  }

  predicate AllSafe(steps: seq<Step>) { forall i :: 0 <= i < |steps| ==> IsSafe(steps[i].now) }

  /** One change: while a user's lease is live, only that user can be holding it afterwards. */
  lemma HolderStays(number: Reader, file: string, step: Step, id: string, at: int)
    requires ReadsDecimals(number) && !step.change.HandBack? && IsSafe(step.now)
    requires ParseControl(number, file, step.readAt) == User(id) && step.readAt <= at
    ensures var c := ParseControl(number, WriteControl(number, file, step.change, step.now, step.readAt).0, at);
      c.User? ==> c.id == id
  {
    if step.change.Take? && IsUserId(step.change.id) { LeaseReadsBack(number, step.change.id, step.now, at); }
    SameHolder(number, file, step.readAt, at);
    hide Words, LeaseText;
  }

  lemma SameHolder(number: Reader, text: string, a: int, b: int)
    ensures ParseControl(number, text, a).User? && ParseControl(number, text, b).User? ==>
      ParseControl(number, text, a) == ParseControl(number, text, b)
  {
    hide Words;
  }

  /** Control passes from one user to another only through a hand-back or a lapse:
      without either, whoever held it first still does, if anyone does. */
  lemma {:induction false} ControlPassesThroughAGap(number: Reader, file: string, steps: seq<Step>, from: int,
      id: string, at: int)
    requires ReadsDecimals(number) && InTime(steps, from) && NoGap(number, file, steps) && AllSafe(steps)
    requires ParseControl(number, file, from) == User(id) && at >= End(steps, from)
    ensures var c := ParseControl(number, Run(number, file, steps), at); c.User? ==> c.id == id
    decreases |steps|
  {
    hide ParseControl, WriteControl;
    if steps == [] {
      SameHolder(number, file, from, at);
    } else {
      var init, last := steps[..|steps| - 1], steps[|steps| - 1];
      ControlPassesThroughAGap(number, file, init, from, id, last.readAt);
      HolderStays(number, Run(number, file, init), last, id, at);
    }
  }

  /** A renewal never gains control: it leaves the file as it is unless its user held the lease. */
  lemma RenewalNeverGains(number: Reader, file: string, id: string, now: nat, readAt: int)
    ensures var (file', answer) := WriteControl(number, file, Take(id, true), now, readAt);
      && (file' != file ==> ParseControl(number, file, readAt) == User(id))
      && (answer == Now(User(id)) && IsUserId(id) ==> ParseControl(number, file, readAt) == User(id))
  {
    hide ParseControl, LeaseText;
  }

  /** No one gains control by `steps`: all that ask for it renew. */
  predicate NoTake(steps: seq<Step>) {
    forall i :: 0 <= i < |steps| ==> steps[i].change.Take? ==> steps[i].change.renew
  }

  /** `file` was handed back, or its lease lapsed no later than `from`. */
  predicate Over(number: Reader, file: string, since: int, from: int) {
    file == "agent\n" ||
    (since <= from && ParseControl(number, file, since).User? && ParseControl(number, file, from) == Agent)
  }

  lemma OverReads(number: Reader, file: string, since: int, from: int, at: int)
    requires Over(number, file, since, from) && at >= from
    ensures ParseControl(number, file, at) == Agent
  {
    HandedBackReads(number, at);
    if file != "agent\n" { LapseIsFinal(number, file, since, from, at); }
    hide ParseControl;
  }

  /** After a hand-back or a lapse no run of renewals, by anyone, takes control again. */
  lemma {:induction false} RenewalsNeverGain(number: Reader, file: string, steps: seq<Step>, since: int, from: int,
      at: int)
    requires Over(number, file, since, from) && InTime(steps, from) && NoTake(steps) && at >= End(steps, from)
    ensures Run(number, file, steps) in {file, "agent\n"} && ParseControl(number, Run(number, file, steps), at) == Agent
    decreases |steps|
  {
    hide ParseControl, Over, LeaseText;
    EndsLater(steps, from);
    HandedBackReads(number, at);
    OverReads(number, file, since, from, at);
    if steps != [] {
      var init, last := steps[..|steps| - 1], steps[|steps| - 1];
      RenewalsNeverGain(number, file, init, since, from, last.readAt);
      if last.change.Take? { RenewalNeverGains(number, Run(number, file, init), last.change.id, last.now, last.readAt); }
    }
  }

  lemma {:induction false} EndsLater(steps: seq<Step>, from: int)
    requires InTime(steps, from)
    ensures End(steps, from) >= from
  {
    if steps != [] { EndsLater(steps[..|steps| - 1], from); }
  }

  /** No change of `steps` is told that its user holds control. */
  predicate NoneGranted(number: Reader, file: string, steps: seq<Step>) {
    steps != [] ==>
      var init, last := steps[..|steps| - 1], steps[|steps| - 1];
      && NoneGranted(number, file, init)
      && (last.change.Take? ==>
            WriteControl(number, Run(number, file, init), last.change, last.now, last.readAt).1 != Now(User(last.change.id)))
  }

  /** Whatever the file says and however often control is asked for in vain, a user
      read at `from` keeps the agent out for less than 95 s more. */
  lemma {:induction false} UngrantedItLapses(number: Reader, file: string, steps: seq<Step>, from: int, at: int)
    requires ParseControl(number, file, from).User? && NoneGranted(number, file, steps)
    requires at >= from + 95000
    ensures ParseControl(number, Run(number, file, steps), at) == Agent
  {
    NoneWritten(number, file, steps);
    NoTextLocksOut(number, file, from, at);
    HandedBackReads(number, at);
    hide ParseControl, Run;
  }

  lemma {:induction false} NoneWritten(number: Reader, file: string, steps: seq<Step>)
    requires NoneGranted(number, file, steps)
    ensures Run(number, file, steps) in {file, "agent\n"}
  {
    hide ParseControl, LeaseText;
    if steps != [] { NoneWritten(number, file, steps[..|steps| - 1]); }
  }

  /** A change that is told a user holds control means it from then until the lease ends. */
  lemma GrantedIsHeld(number: Reader, file: string, id: string, renew: bool, now: nat, readAt: int, at: int)
    requires ReadsDecimals(number) && now + 90000 <= 9007199254740991 && now <= at
    requires WriteControl(number, file, Take(id, renew), now, readAt).1 == Now(User(id)) && IsUserId(id)
    ensures ParseControl(number, WriteControl(number, file, Take(id, renew), now, readAt).0, at) ==
      if at < now + 90000 then User(id) else Agent
  {
    LeaseReadsBack(number, id, now, at);
    hide ParseControl, LeaseText;
  }

  // ---- the object ---------------------------------------------------------------------------------

  /** The control file, and the queue that lets one change at a time at it. */
  class Desktop {
    const number: Reader
    var controlFile: string

    constructor (number: Reader, file: string)
      ensures this.number == number && controlFile == file
    {
      this.number, controlFile := number, file;
    }

    method WriteControlNow(change: Change, now: nat, readAt: int) returns (answer: Answer)
      modifies this
      ensures (controlFile, answer) == WriteControl(number, old(controlFile), change, now, readAt)
    {
      hide ParseControl, LeaseText;
      if change.Unknown? || (change.Take? && !IsUserId(change.id)) { return Invalid; }
      var current := ParseControl(number, controlFile, readAt);
      if change.Take? {
        if change.renew && (!current.User? || current.id != change.id) { return Now(current); }
        if !change.renew && current.User? && current.id != change.id { return Conflict; }
        controlFile := LeaseText(now + CONTROL_LEASE_MS, change.id);
        return Now(User(change.id));
      }
      controlFile := "agent\n";
      return Now(Agent);
    }
  }
}
