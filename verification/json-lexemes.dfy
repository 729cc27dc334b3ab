/**
 What the lexer of `JsonComments` takes for a lexeme, told by how one is written: text
 made of lexemes is read as those lexemes.
 */
module JsonLexemes {
  import opened JsonComments

  /** A string's body, unclosed: no quote but behind a backslash. */
  predicate IsBody(body: string) {
    body == "" || (body[0] != '"' && body[0] != '\\' && IsBody(body[1..]))
    || (body[0] == '\\' && (body == "\\" || IsBody(body[2..])))
  }

  /** No backslash of it is left without the character it escapes. */
  predicate IsEven(body: string) {
    body == "" || (if body[0] == '\\' then |body| > 1 && IsEven(body[2..]) else IsEven(body[1..]))
  }

  /** No end of a block comment begins in it, the next two characters being `end`. */
  predicate HasNoEnd(inner: string, end: string) {
    forall i :: 0 <= i < |inner| && i + 1 < |inner + end| ==> !((inner + end)[i] == '*' && (inner + end)[i + 1] == '/')
  }

  /** `tok` is a lexeme where `rest` follows it: a string up to its closing quote, a line
      comment with its newline, a block comment up to the first `*` and `/`, each to the
      end of the text if nothing closes it; or a character that opens none of these. */
  ghost predicate IsLexeme(tok: Token, rest: string) {
    match tok
    case Str(s) =>
      exists body :: IsBody(body) && ((IsEven(body) && s == "\"" + body + "\"") || (rest == "" && s == "\"" + body))
    case LineComment(s) => exists line :: '\n' !in line && (s == "//" + line + "\n" || (rest == "" && s == "//" + line))
    case BlockComment(s) =>
      exists inner :: (HasNoEnd(inner, "*/") && s == "/*" + inner + "*/") || (rest == "" && HasNoEnd(inner, "") && s == "/*" + inner)
    case Code(c) => c != '"' && (c == '/' && rest != "" ==> rest[0] != '/' && rest[0] != '*')
  }

  ghost predicate AreLexemes(toks: seq<Token>) {
    toks == [] || (IsLexeme(toks[0], TextAll(toks[1..])) && AreLexemes(toks[1..]))
  }

  // ---- where each ends ------------------------------------------------------------------------

  lemma {:induction false} BodyEnds(body: string, rest: string)
    requires IsBody(body) && IsEven(body)
    ensures StrEnd(body + "\"" + rest, false) == |body| + 1
    decreases |body|
  {
    var t := body + "\"" + rest;
    if body == "" {
      assert t[0] == '"';
    } else if body[0] == '\\' {
      assert t[1..][1..] == body[2..] + "\"" + rest;
      BodyEnds(body[2..], rest);
    } else {
      assert t[1..] == body[1..] + "\"" + rest;
      BodyEnds(body[1..], rest);
    }
  }

  lemma {:induction false} OpenBodyEnds(body: string)
    requires IsBody(body)
    ensures StrEnd(body, false) == |body|
    decreases |body|
  {
    if body == "" || body == "\\" {
    } else if body[0] == '\\' {
      assert body[1..][1..] == body[2..];
      OpenBodyEnds(body[2..]);
    } else {
      OpenBodyEnds(body[1..]);
    }
  }

  lemma {:induction false} LineEnds(line: string, rest: string)
    requires '\n' !in line
    ensures LineEnd(line + "\n" + rest) == |line| + 1 && LineEnd(line) == |line|
  {
    var t := line + "\n" + rest;
    if line != "" {
      assert t[1..] == line[1..] + "\n" + rest;
      LineEnds(line[1..], rest);
    }
  }

  lemma {:induction false} BlockEnds(inner: string, rest: string)
    requires HasNoEnd(inner, "*/")
    ensures BlockEnd(inner + "*/" + rest) == |inner| + 2
  {
    var t := inner + "*/" + rest;
    if inner != "" {
      var whole := inner + "*/";
      assert t[0] == whole[0] && t[1] == whole[1];
      assert inner[1..] + "*/" == whole[1..];
      assert t[1..] == inner[1..] + "*/" + rest;
      BlockEnds(inner[1..], rest);
    }
  }

  lemma {:induction false} OpenBlockEnds(inner: string)
    requires HasNoEnd(inner, "")
    ensures BlockEnd(inner) == |inner|
  {
    if inner != "" {
      assert inner + "" == inner && inner[1..] + "" == inner[1..];
      OpenBlockEnds(inner[1..]);
    }
  }

  // ---- the first lexeme ---------------------------------------------------------------------------

  lemma FirstString(s: string, rest: string)
    requires IsLexeme(Str(s), rest)
    ensures s != "" && First(s + rest) == Str(s)
  {
    var body :| IsBody(body) && ((IsEven(body) && s == "\"" + body + "\"") || (rest == "" && s == "\"" + body));
    var t := s + rest;
    if IsEven(body) && s == "\"" + body + "\"" {
      BodyEnds(body, rest);
      assert t[1..] == body + "\"" + rest;
    } else {
      OpenBodyEnds(body);
      assert t[1..] == body;
    }
    assert t[..|s|] == s;
    hide StrEnd;
  }

  lemma FirstLine(s: string, rest: string)
    requires IsLexeme(LineComment(s), rest)
    ensures s != "" && First(s + rest) == LineComment(s)
  {
    var line :| '\n' !in line && (s == "//" + line + "\n" || (rest == "" && s == "//" + line));
    var t := s + rest;
    LineEnds(line, rest);
    if s == "//" + line + "\n" { assert t[2..] == line + "\n" + rest; } else { assert t[2..] == line; }
    assert t[..|s|] == s && t[0] == '/' && t[1] == '/';
    hide LineEnd;
  }

  lemma FirstBlock(s: string, rest: string)
    requires IsLexeme(BlockComment(s), rest)
    ensures s != "" && First(s + rest) == BlockComment(s)
  {
    var inner :| (HasNoEnd(inner, "*/") && s == "/*" + inner + "*/") || (rest == "" && HasNoEnd(inner, "") && s == "/*" + inner);
    var t := s + rest;
    if HasNoEnd(inner, "*/") && s == "/*" + inner + "*/" {
      BlockEnds(inner, rest);
      assert t[2..] == inner + "*/" + rest;
    } else {
      OpenBlockEnds(inner);
      assert t[2..] == inner;
    }
    assert t[..|s|] == s && t[0] == '/' && t[1] == '*';
    hide BlockEnd;
  }

  lemma FirstIsLexeme(tok: Token, rest: string)
    requires IsLexeme(tok, rest)
    ensures Text(tok) != "" && First(Text(tok) + rest) == tok
  {
    match tok
    case Str(s) => FirstString(s, rest); hide First, IsLexeme;
    case LineComment(s) => FirstLine(s, rest); hide First, IsLexeme;
    case BlockComment(s) => FirstBlock(s, rest); hide First, IsLexeme;
    case Code(c) => assert ([c] + rest)[0] == c; assert rest != "" ==> ([c] + rest)[1] == rest[0];
  }

  /** Whatever text is written as lexemes is read as them. */
  lemma {:induction false} LexemesAreRead(toks: seq<Token>)
    requires AreLexemes(toks)
    ensures Lex(TextAll(toks)) == toks
  {
    hide First, IsLexeme, Text;
    if toks != [] {
      var rest := TextAll(toks[1..]);
      var t := Text(toks[0]) + rest;
      FirstIsLexeme(toks[0], rest);
      LexemesAreRead(toks[1..]);
      LexStep(t);
      assert t[|Text(toks[0])|..] == rest;
      hide Lex;
      assert toks == [toks[0]] + toks[1..];
    }
  }

  /** So of lexemes what is written is the code and the strings as they are, and a newline
      for each line comment. */
  lemma CommentsGo(toks: seq<Token>)
    requires AreLexemes(toks)
    ensures Strip(TextAll(toks)) == TextLeft(toks)
  {
    LexemesAreRead(toks);
    LeftIsWritten(toks);
    hide Lex, TextAll, AreLexemes;
  }

  function TextLeft(toks: seq<Token>): string {
    if toks == [] then ""
    else
      (match toks[0]
       case Code(c) => [c]
       case Str(s) => s
       case LineComment(_) => "\n"
       case BlockComment(_) => "") + TextLeft(toks[1..])
  }

  lemma {:induction false} LeftIsWritten(toks: seq<Token>)
    ensures WrittenAll(toks) == TextLeft(toks)
  {
    if toks != [] { LeftIsWritten(toks[1..]); }
  }
}
