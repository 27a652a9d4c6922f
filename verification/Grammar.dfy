/** What a command line means, without an automaton: its words, made of bare, escaped and quoted pieces. The scanner of
    `internal/service/daemon_command.go` is proved to read exactly this. */
module Grammar {
  import opened Text
  import opened CommandLine

  /** Inside double quotes: a character for itself, or one after a backslash. */
  datatype Inner = Literal(c: char) | Masked(c: char)

  datatype Piece =
    | Blank(c: char)
    | Bare(c: char)
    | Escaped(c: char)
    | SingleQuoted(text: string)
    | DoubleQuoted(inner: seq<Inner>)

  predicate GoodInner(x: Inner) {
    x.Literal? ==> x.c != '"' && x.c != '\\'
  }

  predicate GoodPiece(p: Piece) {
    match p
    case Blank(c) => IsBlank(c)
    case Bare(c) => !IsBlank(c) && c != '\\' && c != '\'' && c != '"'
    case Escaped(_) => true
    case SingleQuoted(text) => '\'' !in text
    case DoubleQuoted(inner) => forall x | x in inner :: GoodInner(x)
  }

  ghost predicate Good(ps: seq<Piece>) {
    forall p | p in ps :: GoodPiece(p)
  }

  /* ----- How it is written ----- */

  function InnerText(inner: seq<Inner>): string {
    if |inner| == 0 then ""
    else (if inner[0].Literal? then [inner[0].c] else ['\\', inner[0].c]) + InnerText(inner[1..])
  }

  function PieceText(p: Piece): string {
    match p
    case Blank(c) => [c]
    case Bare(c) => [c]
    case Escaped(c) => ['\\', c]
    case SingleQuoted(text) => ['\''] + text + ['\'']
    case DoubleQuoted(inner) => ['"'] + InnerText(inner) + ['"']
  }

  function LineText(ps: seq<Piece>): string {
    if |ps| == 0 then "" else PieceText(ps[0]) + LineText(ps[1..])
  }

  /* ----- What it means ----- */

  function InnerMeaning(inner: seq<Inner>): string {
    if |inner| == 0 then "" else [inner[0].c] + InnerMeaning(inner[1..])
  }

  function PieceMeaning(p: Piece): string {
    match p
    case Blank(_) => ""
    case Bare(c) => [c]
    case Escaped(c) => [c]
    case SingleQuoted(text) => text
    case DoubleQuoted(inner) => InnerMeaning(inner)
  }

  /** The words, the first of which has already begun with `word`. Blanks end words, and empty words do not count. */
  function WordsFrom(word: string, ps: seq<Piece>): seq<string>
    decreases ps
  {
    if |ps| == 0 then if word == "" then [] else [word]
    else if ps[0].Blank? then (if word == "" then [] else [word]) + WordsFrom("", ps[1..])
    else WordsFrom(word + PieceMeaning(ps[0]), ps[1..])
  }

  function Words(ps: seq<Piece>): seq<string> {
    WordsFrom("", ps)
  }

  /* ----- The scanner reads pieces ----- */

  const SINGLE := PLAIN.(inSingle := true)
  const DOUBLE := PLAIN.(inDouble := true)

  lemma OneStep(st: Scan, c: char, rest: string)
    ensures TokenRun(st, [c] + rest) == TokenRun(TokenStep(st, c), rest)
  {
    assert ([c] + rest)[1..] == rest;
  }

  lemma {:induction false} SingleTextIsRead(word: string, args: seq<string>, text: string, rest: string)
    requires '\'' !in text
    ensures TokenRun(Scan(SINGLE, word, args), text + rest) == TokenRun(Scan(SINGLE, word + text, args), rest)
    decreases text
  {
    if text == "" {
      assert text + rest == rest && word + text == word;
    } else {
      assert text + rest == [text[0]] + (text[1..] + rest);
      assert word + [text[0]] + text[1..] == word + text;
      OneStep(Scan(SINGLE, word, args), text[0], text[1..] + rest);
      SingleTextIsRead(word + [text[0]], args, text[1..], rest);
    }
  }

  lemma InnerIsRead(word: string, args: seq<string>, x: Inner, rest: string)
    requires GoodInner(x)
    ensures TokenRun(Scan(DOUBLE, word, args), InnerText([x]) + rest)
            == TokenRun(Scan(DOUBLE, word + [x.c], args), rest)
  {
    var st := Scan(DOUBLE, word, args);
    assert InnerText([x]) == (if x.Literal? then [x.c] else ['\\', x.c]) + "";
    if x.Literal? {
      assert InnerText([x]) + rest == [x.c] + rest;
      OneStep(st, x.c, rest);
    } else {
      assert InnerText([x]) + rest == ['\\'] + ([x.c] + rest);
      OneStep(st, '\\', [x.c] + rest);
      OneStep(TokenStep(st, '\\'), x.c, rest);
    }
  }

  lemma Together(a: string, b: string, c: string)
    ensures (a + b) + c == a + (b + c)
  {
  }

  lemma InnerFirst(inner: seq<Inner>, word: string, rest: string)
    requires |inner| > 0
    ensures InnerText(inner) + rest == InnerText([inner[0]]) + (InnerText(inner[1..]) + rest)
    ensures word + InnerMeaning(inner) == word + [inner[0].c] + InnerMeaning(inner[1..])
  {
    var x := inner[0];
    var text := if x.Literal? then [x.c] else ['\\', x.c];
    assert InnerText([x]) == text + "" == text;
    Together(text, InnerText(inner[1..]), rest);
    Together(word, [x.c], InnerMeaning(inner[1..]));
  }

  lemma {:induction false} DoubleTextIsRead(word: string, args: seq<string>, inner: seq<Inner>, rest: string)
    requires forall x | x in inner :: GoodInner(x)
    ensures TokenRun(Scan(DOUBLE, word, args), InnerText(inner) + rest)
            == TokenRun(Scan(DOUBLE, word + InnerMeaning(inner), args), rest)
    decreases inner
  {
    if |inner| == 0 {
      assert InnerText(inner) + rest == rest && word + InnerMeaning(inner) == word;
    } else {
      InnerFirst(inner, word, rest);
      InnerIsRead(word, args, inner[0], InnerText(inner[1..]) + rest);
      DoubleTextIsRead(word + [inner[0].c], args, inner[1..], rest);
    }
  }

  lemma EscapedIsRead(word: string, args: seq<string>, c: char, rest: string)
    ensures TokenRun(Scan(PLAIN, word, args), PieceText(Escaped(c)) + rest) ==
            TokenRun(Scan(PLAIN, word + [c], args), rest)
  {
    var st := Scan(PLAIN, word, args);
    assert PieceText(Escaped(c)) + rest == ['\\'] + ([c] + rest);
    OneStep(st, '\\', [c] + rest);
    OneStep(TokenStep(st, '\\'), c, rest);
  }

  lemma SingleIsRead(word: string, args: seq<string>, text: string, rest: string)
    requires '\'' !in text
    ensures TokenRun(Scan(PLAIN, word, args), PieceText(SingleQuoted(text)) + rest) ==
            TokenRun(Scan(PLAIN, word + text, args), rest)
  {
    assert PieceText(SingleQuoted(text)) + rest == ['\''] + (text + (['\''] + rest));
    OneStep(Scan(PLAIN, word, args), '\'', text + (['\''] + rest));
    SingleTextIsRead(word, args, text, ['\''] + rest);
    OneStep(Scan(SINGLE, word + text, args), '\'', rest);
  }

  lemma DoubleIsRead(word: string, args: seq<string>, inner: seq<Inner>, rest: string)
    requires forall x | x in inner :: GoodInner(x)
    ensures TokenRun(Scan(PLAIN, word, args), PieceText(DoubleQuoted(inner)) + rest) ==
            TokenRun(Scan(PLAIN, word + InnerMeaning(inner), args), rest)
  {
    assert PieceText(DoubleQuoted(inner)) + rest == ['"'] + (InnerText(inner) + (['"'] + rest));
    OneStep(Scan(PLAIN, word, args), '"', InnerText(inner) + (['"'] + rest));
    DoubleTextIsRead(word, args, inner, ['"'] + rest);
    OneStep(Scan(DOUBLE, word + InnerMeaning(inner), args), '"', rest);
  }

  function AfterPiece(word: string, args: seq<string>, p: Piece): Scan {
    if p.Blank? then Scan(PLAIN, "", Pushed(word, args)) else Scan(PLAIN, word + PieceMeaning(p), args)
  }

  lemma PieceIsRead(word: string, args: seq<string>, p: Piece, rest: string)
    requires GoodPiece(p)
    ensures TokenRun(Scan(PLAIN, word, args), PieceText(p) + rest) == TokenRun(AfterPiece(word, args, p), rest)
  {
    match p
    case Blank(c) => OneStep(Scan(PLAIN, word, args), c, rest);
    case Bare(c) => OneStep(Scan(PLAIN, word, args), c, rest);
    case Escaped(c) => EscapedIsRead(word, args, c, rest);
    case SingleQuoted(text) => SingleIsRead(word, args, text, rest);
    case DoubleQuoted(inner) => DoubleIsRead(word, args, inner, rest);
  }

  lemma PushedIsAppended(word: string, args: seq<string>)
    ensures Pushed(word, args) == args + (if word == "" then [] else [word])
  {
    assert args + [] == args;
  }

  lemma WordsAfterPiece(word: string, args: seq<string>, ps: seq<Piece>)
    requires |ps| > 0
    ensures var st := AfterPiece(word, args, ps[0]);
            st.args + WordsFrom(st.current, ps[1..]) == args + WordsFrom(word, ps)
  {
    if ps[0].Blank? {
      PushedIsAppended(word, args);
      ListsAssociate(args, if word == "" then [] else [word], WordsFrom("", ps[1..]));
    }
  }

  lemma LineTextFirst(ps: seq<Piece>, rest: string)
    requires |ps| > 0
    ensures LineText(ps) + rest == PieceText(ps[0]) + (LineText(ps[1..]) + rest)
  {
    Together(PieceText(ps[0]), LineText(ps[1..]), rest);
  }

  /** The unfinished word and the finished ones, after the pieces. */
  lemma {:induction false} PiecesAreRead(word: string, args: seq<string>, ps: seq<Piece>, rest: string)
    returns (word': string, args': seq<string>)
    requires Good(ps)
    ensures TokenRun(Scan(PLAIN, word, args), LineText(ps) + rest) == TokenRun(Scan(PLAIN, word', args'), rest)
    ensures Pushed(word', args') == args + WordsFrom(word, ps)
    decreases ps
  {
    if |ps| == 0 {
      word', args' := word, args;
      assert LineText(ps) + rest == rest;
      assert args + [] == args;
    } else {
      var st := AfterPiece(word, args, ps[0]);
      LineTextFirst(ps, rest);
      PieceIsRead(word, args, ps[0], LineText(ps[1..]) + rest);
      WordsAfterPiece(word, args, ps);
      word', args' := PiecesAreRead(st.current, st.args, ps[1..], rest);
    }
  }

  /** Whatever words a line is written of, in any quoting, the scanner returns those words. */
  lemma WrittenWordsAreRead(ps: seq<Piece>)
    requires Good(ps)
    ensures Tokens(LineText(ps)) == Ok(Words(ps))
  {
    var word, args := PiecesAreRead("", [], ps, "");
    assert LineText(ps) + "" == LineText(ps);
    assert TokenRun(Scan(PLAIN, word, args), "") == Scan(PLAIN, word, args);
    assert [] + Words(ps) == Words(ps);
  }

  /* ----- Every line is written of pieces ----- */

  /** How a line can break off: not at all, after a backslash, or inside quotes. */
  datatype Tail = Done | Backslash | OpenSingle(text: string) | OpenDouble(inner: seq<Inner>, backslash: bool)

  predicate GoodTail(t: Tail) {
    match t
    case OpenSingle(text) => '\'' !in text
    case OpenDouble(inner, _) => forall x | x in inner :: GoodInner(x)
    case _ => true
  }

  function TailText(t: Tail): string {
    match t
    case Done => ""
    case Backslash => ['\\']
    case OpenSingle(text) => ['\''] + text
    case OpenDouble(inner, backslash) => ['"'] + InnerText(inner) + (if backslash then ['\\'] else "")
  }

  lemma {:induction false} TakeSingle(s: string) returns (text: string, rest: string, closed: bool)
    ensures '\'' !in text
    ensures s == if closed then text + ['\''] + rest else text
    ensures |rest| <= |s| && (closed ==> |rest| < |s|)
    decreases s
  {
    if s == "" {
      text, rest, closed := "", "", false;
    } else if s[0] == '\'' {
      text, rest, closed := "", s[1..], true;
      assert s == [s[0]] + s[1..];
    } else {
      text, rest, closed := TakeSingle(s[1..]);
      text := [s[0]] + text;
      assert s == [s[0]] + s[1..];
    }
  }

  lemma InnerTextCons(x: Inner, inner: seq<Inner>)
    ensures InnerText([x] + inner) == (if x.Literal? then [x.c] else ['\\', x.c]) + InnerText(inner)
  {
    assert ([x] + inner)[1..] == inner;
  }

  lemma {:induction false} TakeDouble(s: string)
    returns (inner: seq<Inner>, rest: string, closed: bool, backslash: bool)
    ensures forall x | x in inner :: GoodInner(x)
    ensures s == InnerText(inner) + (if closed then ['"'] + rest else if backslash then ['\\'] else "")
    ensures |rest| <= |s|
    decreases |s|
  {
    if s == "" {
      inner, rest, closed, backslash := [], "", false, false;
    } else if s[0] == '"' {
      inner, rest, closed, backslash := [], s[1..], true, false;
    } else if s[0] == '\\' && |s| == 1 {
      inner, rest, closed, backslash := [], "", false, true;
    } else {
      var x := if s[0] == '\\' then Masked(s[1]) else Literal(s[0]);
      var n := if s[0] == '\\' then 2 else 1;
      var more;
      more, rest, closed, backslash := TakeDouble(s[n..]);
      inner := [x] + more;
      InnerTextCons(x, more);
      assert s == s[..n] + s[n..];
      assert s[..n] == if x.Literal? then [x.c] else ['\\', x.c];
    }
  }

  lemma LineTextCons(p: Piece, ps: seq<Piece>)
    ensures LineText([p] + ps) == PieceText(p) + LineText(ps)
  {
    assert ([p] + ps)[1..] == ps;
  }

  /** The first piece of a line, or its tail. */
  lemma TakePiece(s: string) returns (p: Option<Piece>, rest: string, tail: Tail)
    ensures GoodTail(tail)
    ensures p.Some? ==> GoodPiece(p.value) && s == PieceText(p.value) + rest && |rest| < |s|
    ensures p.None? ==> s == TailText(tail)
  {
    p, rest, tail := None, "", Done;
    if s == "" {
      return;
    }
    assert s == [s[0]] + s[1..];
    if s[0] == '\\' {
      if |s| == 1 {
        tail := Backslash;
      } else {
        p, rest := Some(Escaped(s[1])), s[2..];
      }
    } else if s[0] == '\'' {
      var text, more, closed := TakeSingle(s[1..]);
      if closed {
        p, rest := Some(SingleQuoted(text)), more;
      } else {
        tail := OpenSingle(text);
      }
    } else if s[0] == '"' {
      var inner, more, closed, backslash := TakeDouble(s[1..]);
      if closed {
        p, rest := Some(DoubleQuoted(inner)), more;
      } else {
        tail := OpenDouble(inner, backslash);
      }
    } else {
      p, rest := Some(if IsBlank(s[0]) then Blank(s[0]) else Bare(s[0])), s[1..];
    }
  }

  lemma {:induction false} TakeLine(s: string) returns (ps: seq<Piece>, tail: Tail)
    ensures Good(ps) && GoodTail(tail) && s == LineText(ps) + TailText(tail)
    decreases |s|
  {
    var p, rest, t := TakePiece(s);
    if p.None? {
      ps, tail := [], t;
    } else {
      ps, tail := TakeLine(rest);
      LineTextCons(p.value, ps);
      ps := [p.value] + ps;
    }
  }

  lemma TailIsRead(word: string, args: seq<string>, tail: Tail)
    requires GoodTail(tail) && tail != Done
    ensures Verdict(TokenRun(Scan(PLAIN, word, args), TailText(tail)).mode) ==
            Some(if tail.Backslash? || (tail.OpenDouble? && tail.backslash) then UnfinishedEscape else UnclosedQuote)
  {
    var st := Scan(PLAIN, word, args);
    match tail
    case Backslash =>
      assert ['\\'] + "" == ['\\'];
      OneStep(st, '\\', "");
    case OpenSingle(text) =>
      OneStep(st, '\'', text);
      SingleTextIsRead(word, args, text, "");
      assert text + "" == text;
    case OpenDouble(inner, backslash) =>
      var more := if backslash then ['\\'] else "";
      assert TailText(tail) == ['"'] + (InnerText(inner) + more);
      OneStep(st, '"', InnerText(inner) + more);
      DoubleTextIsRead(word, args, inner, more);
      if backslash {
        assert ['\\'] + "" == ['\\'];
        OneStep(Scan(DOUBLE, word + InnerMeaning(inner), args), '\\', "");
      }
  }

  ghost predicate WrittenAs(s: string, ps: seq<Piece>, tail: Tail) {
    Good(ps) && GoodTail(tail) && s == LineText(ps) + TailText(tail)
  }

  /** What the scanner says of a line that is written so. */
  lemma WrittenLineIsRead(s: string, ps: seq<Piece>, tail: Tail)
    requires WrittenAs(s, ps, tail)
    ensures Tokens(s) ==
            match tail
            case Done => Ok(Words(ps))
            case Backslash => Err(UnfinishedEscape)
            case OpenSingle(_) => Err(UnclosedQuote)
            case OpenDouble(_, backslash) => Err(if backslash then UnfinishedEscape else UnclosedQuote)
  {
    if tail == Done {
      assert s == LineText(ps);
      WrittenWordsAreRead(ps);
    } else {
      var word, args := PiecesAreRead("", [], ps, TailText(tail));
      TailIsRead(word, args, tail);
    }
  }

  /** The scanner is exact: it returns words exactly when the line is written of them, with blanks between them and any
      quoting; it reports an unfinished escape exactly when the line breaks off after a backslash that stands outside
      single quotes, and an unclosed quote exactly when it breaks off inside quotes. */
  lemma ScannerIsExact(s: string, args: seq<string>)
    ensures Tokens(s) == Ok(args) <==> exists ps :: WrittenAs(s, ps, Done) && Words(ps) == args
    ensures Tokens(s) == Err(UnfinishedEscape) <==>
            exists ps, tail :: WrittenAs(s, ps, tail) && (tail.Backslash? || (tail.OpenDouble? && tail.backslash))
    ensures Tokens(s) == Err(UnclosedQuote) <==>
            exists ps, tail :: WrittenAs(s, ps, tail) && (tail.OpenSingle? || (tail.OpenDouble? && !tail.backslash))
  {
    var ps, tail := TakeLine(s);
    assert WrittenAs(s, ps, tail);
    WrittenLineIsRead(s, ps, tail);
    forall qs, end | WrittenAs(s, qs, end)
      ensures Tokens(s) ==
              match end
              case Done => Ok(Words(qs))
              case Backslash => Err(UnfinishedEscape)
              case OpenSingle(_) => Err(UnclosedQuote)
              case OpenDouble(_, backslash) => Err(if backslash then UnfinishedEscape else UnclosedQuote)
    {
      WrittenLineIsRead(s, qs, end);
    }
  }

  /* ----- The printer ----- */

  lemma {:induction false} EscapedIsNotShorter(arg: string)
    ensures |EscapeSingleQuotes(arg)| >= |arg|
  {
    if arg != "" {
      EscapedIsNotShorter(arg[1..]);
    }
  }

  /** An argument is printed as it is exactly when it is not empty and no character of it needs quoting. */
  lemma QuotingIsExact(arg: string)
    ensures ShellQuoteArg(arg) == arg <==>
            arg != "" && forall c | c in arg :: c !in " \t\n\r\"'\\$`!&|;<>*?()[]{}"
  {
    EscapedIsNotShorter(arg);
    if i :| 0 <= i < |arg| && IsShellSpecial(arg[i]) {
      assert arg[i] in arg && arg[i] in " \t\n\r\"'\\$`!&|;<>*?()[]{}";
    } else if arg != "" {
      forall c | c in arg
        ensures !IsShellSpecial(c)
      {
        var i :| 0 <= i < |arg| && arg[i] == c;
      }
    }
  }

  lemma {:induction false} JoinedAppend(parts: seq<string>, last: string, sep: string)
    ensures Joined(parts + [last], sep) == if |parts| == 0 then last else Joined(parts, sep) + sep + last
  {
    if |parts| == 0 {
      assert parts + [last] == [last];
    } else {
      var more := parts[1..];
      assert (parts + [last])[1..] == more + [last];
      JoinedAppend(more, last, sep);
      if |more| > 0 {
        assert parts[0] + sep + (Joined(more, sep) + sep + last) == parts[0] + sep + Joined(more, sep) + sep + last;
      }
    }
  }

  /** One more argument is printed after a space, and one more stage after a bar. */
  lemma PrintedAppend(args: seq<string>, arg: string, commands: seq<seq<string>>)
    requires |args| > 0 && |commands| > 0
    ensures Printed(args + [arg]) == Printed(args) + " " + ShellQuoteArg(arg)
    ensures PrintedPipeline(commands + [args]) == PrintedPipeline(commands) + " | " + Printed(args)
  {
    assert QuotedAll(args + [arg]) == QuotedAll(args) + [ShellQuoteArg(arg)];
    JoinedAppend(QuotedAll(args), ShellQuoteArg(arg), " ");
    assert PrintedAll(commands + [args]) == PrintedAll(commands) + [Printed(args)];
    JoinedAppend(PrintedAll(commands), Printed(args), " | ");
  }
}
