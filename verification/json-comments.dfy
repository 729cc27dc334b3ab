/**
 `stripJsonComments` of `agent-base/agentd/drivers/pi-provider.mjs`, against a
 lexer: strings (escapes as in section 7 of RFC 8259), comments and the rest.
 */
module JsonComments {
  /** A lexeme with its text: one character of code, a string with its quotes (the
      last one missing at the end of the text), `//` up to and with its newline,
      or a block comment, to the end of the text if nothing closes it. */
  datatype Token = Code(c: char) | Str(text: string) | LineComment(text: string) | BlockComment(text: string)

  // ---- the lexer ------------------------------------------------------------------------

  /** How long the string body is that begins here, its closing quote included. */
  function StrEnd(t: string, escaped: bool): (n: nat)
    ensures n <= |t|
  {
    if t == "" then 0
    else if escaped then 1 + StrEnd(t[1..], false)
    else if t[0] == '\\' then 1 + StrEnd(t[1..], true)
    else if t[0] == '"' then 1
    else 1 + StrEnd(t[1..], false)
  }

  /** The same for what is left of a line, its newline included. */
  function LineEnd(t: string): (n: nat)
    ensures n <= |t|
  {
    if t == "" then 0 else if t[0] == '\n' then 1 else 1 + LineEnd(t[1..])
  }

  function BlockEnd(t: string): (n: nat)
    ensures n <= |t|
  {
    if t == "" then 0 else if |t| > 1 && t[0] == '*' && t[1] == '/' then 2 else 1 + BlockEnd(t[1..])
  }

  predicate Opens(t: string, c: char) { |t| > 1 && t[0] == '/' && t[1] == c }

  function First(t: string): (tok: Token)
    requires t != ""
    ensures Text(tok) != "" && Text(tok) <= t
  {
    if t[0] == '"' then Str(t[..1 + StrEnd(t[1..], false)])
    else if Opens(t, '/') then LineComment(t[..2 + LineEnd(t[2..])])
    else if Opens(t, '*') then BlockComment(t[..2 + BlockEnd(t[2..])])
    else Code(t[0])
  }

  function Text(tok: Token): string {
    match tok
    case Code(c) => [c]
    case Str(s) => s
    case LineComment(s) => s
    case BlockComment(s) => s
  }

  function Lex(t: string): seq<Token> {
    if t == "" then [] else [First(t)] + Lex(t[|Text(First(t))|..])
  }

  predicate IsComment(tok: Token) { tok.LineComment? || tok.BlockComment? }

  /** What the program writes for a lexeme. */
  function Written(tok: Token): string {
    match tok
    case LineComment(_) => "\n"
    case BlockComment(_) => ""
    case _ => Text(tok)
  }

  function WrittenAll(toks: seq<Token>): string {
    if toks == [] then "" else Written(toks[0]) + WrittenAll(toks[1..])
  }

  function Strip(t: string): string { WrittenAll(Lex(t)) }

  /** The lexemes without their comments: a line comment leaves its newline. */
  function Clean(toks: seq<Token>): seq<Token> {
    if toks == [] then [] else CleanOne(toks[0]) + Clean(toks[1..])
  }

  function CleanOne(tok: Token): seq<Token> {
    match tok
    case LineComment(_) => [Code('\n')]
    case BlockComment(_) => []
    case _ => [tok]
  }

  // ---- the program ----------------------------------------------------------------------

  lemma LexStep(t: string)
    requires t != ""
    ensures Lex(t) != [] && Lex(t)[0] == First(t) && Lex(t)[1..] == Lex(t[|Text(First(t))|..])
  {
    hide First;
  }

  lemma StripStep(t: string)
    requires t != ""
    ensures Strip(t) == Written(First(t)) + Strip(t[|Text(First(t))|..])
  {
    LexStep(t);
    hide First, Lex, Written;
  }

  /** What the loop still writes from inside a string. */
  function StripString(t: string, escaped: bool): string {
    t[..StrEnd(t, escaped)] + Strip(t[StrEnd(t, escaped)..])
  }

  lemma Assoc(a: string, b: string, c: string)
    ensures (a + b) + c == a + (b + c)
  {}

  lemma StringStep(t: string, escaped: bool)
    requires t != ""
    ensures StripString(t, escaped) ==
      [t[0]] + if !escaped && t[0] == '"' then Strip(t[1..]) else StripString(t[1..], !escaped && t[0] == '\\')
  {
    hide Strip;
    var rest := t[1..];
    if escaped || t[0] != '"' {
      var n := StrEnd(rest, !escaped && t[0] == '\\');
      assert t[..1 + n] == [t[0]] + rest[..n] && t[1 + n..] == rest[n..];
      Assoc([t[0]], rest[..n], Strip(rest[n..]));
    } else {
      assert t[..1] == [t[0]];
    }
  }

  lemma FirstIsString(t: string)
    requires t != "" && t[0] == '"'
    ensures First(t) == Str(t[..1 + StrEnd(t[1..], false)])
  {}

  lemma OpenStep(t: string)
    requires t != "" && t[0] == '"'
    ensures Strip(t) == [t[0]] + StripString(t[1..], false)
  {
    StripStep(t);
    FirstIsString(t);
    hide Strip, First, StrEnd;
    var n := StrEnd(t[1..], false);
    assert t[..1 + n] == [t[0]] + t[1..][..n] && t[1 + n..] == t[1..][n..];
    Assoc([t[0]], t[1..][..n], Strip(t[1..][n..]));
  }

  lemma Beyond(t: string, i: nat, n: nat)
    requires i + n <= |t|
    ensures t[i..][n..] == t[i + n..]
  {}

  /** What the loop still writes at index `i`. */
  function Rest(text: string, i: nat, inString: bool, escaped: bool): string
    requires i <= |text|
  {
    if inString then StripString(text[i..], escaped) else Strip(text[i..])
  }

  lemma RestInString(text: string, i: nat, escaped: bool)
    requires i < |text|
    ensures Rest(text, i, true, escaped) ==
      [text[i]] + Rest(text, i + 1, escaped || text[i] != '"', !escaped && text[i] == '\\')
  {
    hide Strip, StripString;
    StringStep(text[i..], escaped);
    Beyond(text, i, 1);
  }

  lemma RestOpens(text: string, i: nat)
    requires i < |text| && text[i] == '"'
    ensures Rest(text, i, false, false) == [text[i]] + Rest(text, i + 1, true, false)
  {
    hide Strip, StripString;
    OpenStep(text[i..]);
    Beyond(text, i, 1);
  }

  lemma RestAfterCode(text: string, i: nat)
    requires i < |text| && text[i] != '"' && !Opens(text[i..], '/') && !Opens(text[i..], '*')
    ensures Rest(text, i, false, false) == [text[i]] + Rest(text, i + 1, false, false)
  {
    StripStep(text[i..]);
    Beyond(text, i, 1);
    hide Strip, StripString;
  }

  lemma FirstIsLine(t: string)
    requires Opens(t, '/')
    ensures First(t) == LineComment(t[..2 + LineEnd(t[2..])])
  {}

  lemma FirstIsBlock(t: string)
    requires Opens(t, '*')
    ensures First(t) == BlockComment(t[..2 + BlockEnd(t[2..])])
  {}

  lemma RestAfterLine(text: string, i: nat)
    requires i + 1 < |text| && text[i] == '/' && text[i + 1] == '/'
    ensures Rest(text, i, false, false) == "\n" + Rest(text, i + 2 + LineEnd(text[i + 2..]), false, false)
  {
    StripStep(text[i..]);
    FirstIsLine(text[i..]);
    hide Strip, StripString, First, LineEnd;
    Beyond(text, i, 2);
    Beyond(text, i, 2 + LineEnd(text[i + 2..]));
  }

  lemma RestAfterBlock(text: string, i: nat)
    requires i + 1 < |text| && text[i] == '/' && text[i + 1] == '*'
    ensures Rest(text, i, false, false) == Rest(text, i + 2 + BlockEnd(text[i + 2..]), false, false)
  {
    StripStep(text[i..]);
    FirstIsBlock(text[i..]);
    hide Strip, StripString, First, BlockEnd;
    Beyond(text, i, 2);
    Beyond(text, i, 2 + BlockEnd(text[i + 2..]));
    assert "" + Strip(text[i + 2 + BlockEnd(text[i + 2..])..]) == Strip(text[i + 2 + BlockEnd(text[i + 2..])..]);
  }

  lemma RestAtEnd(text: string, inString: bool, escaped: bool)
    ensures Rest(text, 0, false, false) == Strip(text) && Rest(text, |text|, inString, escaped) == ""
  {
    assert text[0..] == text && text[|text|..] == "";
    EndOfText();
  }

  /** The loop of the original, one character a time, its two inner loops included. */
  method StripJsonComments(text: string) returns (out: string)
    ensures out == Strip(text)
  {
    hide Strip, Rest, LineEnd, BlockEnd;
    out := "";
    var inString, escaped := false, false;
    var i := 0;
    RestAtEnd(text, false, false);
    while i < |text|
      invariant 0 <= i <= |text|
      invariant escaped ==> inString
      invariant Strip(text) == out + Rest(text, i, inString, escaped)
    {
      var c := text[i];
      if inString {
        RestInString(text, i, escaped);
        Assoc(out, [c], Rest(text, i + 1, escaped || c != '"', !escaped && c == '\\'));
        out := out + [c];
        if escaped { escaped := false; } else if c == '\\' { escaped := true; } else if c == '"' { inString := false; }
        i := i + 1;
      } else if c == '"' {
        RestOpens(text, i);
        Assoc(out, [c], Rest(text, i + 1, true, false));
        inString := true;
        out := out + [c];
        i := i + 1;
      } else if c == '/' && i + 1 < |text| && text[i + 1] == '/' {
        RestAfterLine(text, i);
        i := SkipLine(text, i);
        Assoc(out, "\n", Rest(text, i, false, false));
        out := out + "\n";
      } else if c == '/' && i + 1 < |text| && text[i + 1] == '*' {
        RestAfterBlock(text, i);
        i := SkipBlock(text, i);
      } else {
        RestAfterCode(text, i);
        Assoc(out, [c], Rest(text, i + 1, false, false));
        out := out + [c];
        i := i + 1;
      }
    }
    RestAtEnd(text, inString, escaped);
  }

  lemma EndOfText()
    ensures Strip("") == "" && forall e :: StripString("", e) == ""
  {}

  /** From a line comment's slash to past its newline. */
  method SkipLine(text: string, start: nat) returns (i: nat)
    requires start + 1 < |text| && text[start] == '/' && text[start + 1] == '/'
    ensures i == start + 2 + LineEnd(text[start + 2..])
  {
    i := start + 2;
    while i < |text| && text[i] != '\n'
      invariant start + 2 <= i <= |text|
      invariant start + 2 + LineEnd(text[start + 2..]) == i + LineEnd(text[i..])
    {
      Beyond(text, i, 1);
      i := i + 1;
    }
    if i < |text| { i := i + 1; }
  }

  /** From a block comment's slash to past what closes it. */
  method SkipBlock(text: string, start: nat) returns (i: nat)
    requires start + 1 < |text|
    ensures i == start + 2 + BlockEnd(text[start + 2..])
  {
    i := start + 2;
    while i < |text| && !(text[i] == '*' && i + 1 < |text| && text[i + 1] == '/')
      invariant start + 2 <= i <= |text|
      invariant start + 2 + BlockEnd(text[start + 2..]) == i + BlockEnd(text[i..])
    {
      Beyond(text, i, 1);
      i := i + 1;
    }
    if i < |text| { i := i + 2; }
  }

  // ---- what it means ----------------------------------------------------------------------

  function TextAll(toks: seq<Token>): string {
    if toks == [] then "" else Text(toks[0]) + TextAll(toks[1..])
  }

  lemma PrefixSplits(t: string, p: string)
    requires p <= t
    ensures t == p + t[|p|..]
  {}

  /** Lexing loses nothing. */
  lemma {:induction false} LexIsLossless(t: string)
    ensures TextAll(Lex(t)) == t
  {
    if t != "" {
      hide First, Lex, Text;
      LexStep(t);
      LexIsLossless(t[|Text(First(t))|..]);
      PrefixSplits(t, Text(First(t)));
    }
  }

  lemma {:induction false} StrEndStops(t: string, rest: string, escaped: bool)
    requires StrEnd(t, escaped) == |t| && Terminated(t, escaped)
    ensures StrEnd(t + rest, escaped) == |t|
  {
    assert (t + rest)[1..] == t[1..] + rest;
    if escaped { StrEndStops(t[1..], rest, false); }
    else if t[0] == '\\' { StrEndStops(t[1..], rest, true); }
    else if t[0] != '"' { StrEndStops(t[1..], rest, false); }
  }

  /** The string body that begins here has its closing quote. */
  predicate Terminated(t: string, escaped: bool) {
    if t == "" then false
    else if escaped then Terminated(t[1..], false)
    else if t[0] == '\\' then Terminated(t[1..], true)
    else t[0] == '"' || Terminated(t[1..], false)
  }

  lemma {:induction false} BodyIsWhole(t: string, escaped: bool)
    ensures var n := StrEnd(t, escaped);
      && StrEnd(t[..n], escaped) == n
      && (Terminated(t, escaped) ==> Terminated(t[..n], escaped))
      && (!Terminated(t, escaped) ==> n == |t|)
  {
    if t != "" && (escaped || t[0] != '"') {
      var e := !escaped && t[0] == '\\';
      BodyIsWhole(t[1..], e);
      var n := StrEnd(t[1..], e);
      assert t[..1 + n][1..] == t[1..][..n];
    }
  }

  /** A string lexeme stands by itself before any text, if it is terminated. */
  lemma {:induction false} StringAgain(t: string, rest: string)
    requires t != "" && t[0] == '"'
    requires Terminated(t[1..], false) || rest == ""
    ensures var s := t[..1 + StrEnd(t[1..], false)]; First(s + rest) == Str(s)
  {
    var body := t[1..];
    var n := StrEnd(body, false);
    var s := t[..1 + n];
    assert s[1..] == body[..n];
    BodyIsWhole(body, false);
    if Terminated(body, false) {
      StrEndStops(body[..n], rest, false);
      assert (s + rest)[1..] == body[..n] + rest;
      assert (s + rest)[..1 + n] == s;
    } else {
      assert s + rest == s && s[..|s|] == s;
    }
  }

  lemma LexCons(tok: Token, rest: string)
    requires Text(tok) != "" && First(Text(tok) + rest) == tok
    ensures Lex(Text(tok) + rest) == [tok] + Lex(rest)
  {
    hide First;
    assert (Text(tok) + rest)[|Text(tok)|..] == rest;
  }

  /** After a lone slash the next lexeme is no comment, so its text still comes next. */
  lemma NoOpenerAfter(rest: string)
    requires rest == "" || (rest[0] != '/' && rest[0] != '*')
    ensures var out := Strip(rest); out == "" || (out[0] != '/' && out[0] != '*')
  {
    if rest != "" {
      StripStep(rest);
      hide Strip, StrEnd;
    } else {
      EndOfText();
    }
  }

  /** The main result: lexing the output gives the input's lexemes without their
      comments. So every string is copied verbatim, in place and in order, no
      comment is left, and taking one out never makes a new one. */
  lemma {:induction false} StripIsClean(t: string)
    ensures Lex(Strip(t)) == Clean(Lex(t))
    decreases |t|
  {
    if t == "" {
      EndOfText();
    } else {
      var tok := First(t);
      var rest := t[|Text(tok)|..];
      StripIsClean(rest);
      StripStep(t);
      CleanStep(t);
      if tok.Code? { CodeIsClean(t); } else if tok.Str? { StringIsClean(t); }
      hide Lex, Strip, First, Clean;
      if tok.LineComment? { NewlineIsClean(Strip(rest)); }
      if tok.BlockComment? { assert "" + Strip(rest) == Strip(rest) && [] + Clean(Lex(rest)) == Clean(Lex(rest)); }
    }
  }

  lemma NewlineIsClean(out: string)
    ensures Lex("\n" + out) == [Code('\n')] + Lex(out)
  {
    assert Text(Code('\n')) == "\n";
    LexCons(Code('\n'), out);
  }

  lemma StringIsClean(t: string)
    requires t != "" && t[0] == '"'
    ensures var s := t[..1 + StrEnd(t[1..], false)]; var out := Strip(t[|s|..]);
      First(t) == Str(s) && Lex(s + out) == [Str(s)] + Lex(out)
  {
    var s := t[..1 + StrEnd(t[1..], false)];
    BodyIsWhole(t[1..], false);
    EndOfText();
    StringAgain(t, Strip(t[|s|..]));
    LexCons(Str(s), Strip(t[|s|..]));
    hide Strip, Lex, StrEnd, Terminated;
    assert !Terminated(t[1..], false) ==> t[|s|..] == "";
  }

  lemma CleanStep(t: string)
    requires t != ""
    ensures Clean(Lex(t)) == CleanOne(First(t)) + Clean(Lex(t[|Text(First(t))|..]))
  {
    LexStep(t);
    hide First, Lex, CleanOne;
  }

  lemma CodeIsClean(t: string)
    requires t != "" && First(t).Code?
    ensures Lex([t[0]] + Strip(t[1..])) == [Code(t[0])] + Lex(Strip(t[1..]))
  {
    var out := Strip(t[1..]);
    if t[0] == '/' { NoOpenerAfter(t[1..]); }
    assert Text(Code(t[0])) == [t[0]];
    LexCons(Code(t[0]), out) by { hide Strip, StrEnd; assert !Opens([t[0]] + out, '/') && !Opens([t[0]] + out, '*'); }
  }

  lemma {:induction false} CleanHasNone(toks: seq<Token>)
    ensures forall i :: 0 <= i < |Clean(toks)| ==> !IsComment(Clean(toks)[i])
  {
    if toks != [] { CleanHasNone(toks[1..]); }
  }

  lemma {:induction false} NothingToWrite(toks: seq<Token>)
    requires forall i :: 0 <= i < |toks| ==> !IsComment(toks[i])
    ensures WrittenAll(toks) == TextAll(toks) && Clean(toks) == toks
  {
    if toks != [] { NothingToWrite(toks[1..]); }
  }

  /** Text without comments comes back unchanged, and no output has any: stripping
      twice is stripping once. */
  lemma {:induction false} StripTwice(t: string)
    ensures forall i :: 0 <= i < |Lex(Strip(t))| ==> !IsComment(Lex(Strip(t))[i])
    ensures Strip(Strip(t)) == Strip(t)
    ensures (forall i :: 0 <= i < |Lex(t)| ==> !IsComment(Lex(t)[i])) ==> Strip(t) == t
  {
    StripIsClean(t);
    CleanHasNone(Lex(t));
    LexIsLossless(t);
    LexIsLossless(Strip(t));
    NothingToWrite(Lex(Strip(t)));
    if forall i :: 0 <= i < |Lex(t)| ==> !IsComment(Lex(t)[i]) { NothingToWrite(Lex(t)); }
    hide Lex, Clean, TextAll;
  }
}
