/** The command-line texts of the daemon: the printer of `internal/core/command_log.go` and the three
    hand-written scanners of `internal/service/daemon_command.go` and `daemon_task.go`.
    A text is a sequence of characters; the scanners of the program loop over characters too. */
module CommandLine {
  import opened Text

  datatype ScanError = UnfinishedEscape | UnclosedQuote | EmptyStage

  datatype Result<+T> = Ok(value: T) | Err(error: ScanError)

  /* ----- The quote and escape automaton ----- */

  datatype Mode = Mode(inSingle: bool, inDouble: bool, escaped: bool)

  const PLAIN := Mode(false, false, false)

  predicate IsBlank(c: char) {
    c == ' ' || c == '\t' || c == '\n' || c == '\r'
  }

  function Advance(m: Mode, c: char): Mode {
    if m.escaped then m.(escaped := false)
    else if c == '\\' && !m.inSingle then m.(escaped := true)
    else if m.inSingle then m.(inSingle := c != '\'')
    else if m.inDouble then m.(inDouble := c != '"')
    else if c == '\'' then m.(inSingle := true)
    else if c == '"' then m.(inDouble := true)
    else m
  }

  function AdvanceAll(m: Mode, s: string): Mode
    decreases s
  {
    if s == "" then m else AdvanceAll(Advance(m, s[0]), s[1..])
  }

  function Verdict(m: Mode): Option<ScanError> {
    if m.escaped then Some(UnfinishedEscape)
    else if m.inSingle || m.inDouble then Some(UnclosedQuote)
    else None
  }

  lemma {:induction false} AdvanceAllConcat(m: Mode, a: string, b: string)
    ensures AdvanceAll(m, a + b) == AdvanceAll(AdvanceAll(m, a), b)
    decreases a
  {
    if a == "" {
      assert a + b == b;
    } else {
      assert (a + b)[1..] == a[1..] + b;
      AdvanceAllConcat(Advance(m, a[0]), a[1..], b);
    }
  }

  lemma AdvanceAllSnoc(m: Mode, a: string, c: char)
    ensures AdvanceAll(m, a + [c]) == Advance(AdvanceAll(m, a), c)
  {
    AdvanceAllConcat(m, a, [c]);
    assert AdvanceAll(AdvanceAll(m, a), [c]) == AdvanceAll(Advance(AdvanceAll(m, a), c), [c][1..]);
  }

  /** Single and double quotes never nest. */
  lemma {:induction false} AdvanceAllExclusive(m: Mode, s: string)
    requires !(m.inSingle && m.inDouble)
    requires m.escaped ==> !m.inSingle
    ensures !(AdvanceAll(m, s).inSingle && AdvanceAll(m, s).inDouble)
    ensures AdvanceAll(m, s).escaped ==> !AdvanceAll(m, s).inSingle
    decreases s
  {
    if s != "" {
      AdvanceAllExclusive(Advance(m, s[0]), s[1..]);
    }
  }

  /* ----- The tokenizer ----- */

  datatype Scan = Scan(mode: Mode, current: string, args: seq<string>)

  const START := Scan(PLAIN, "", [])

  /** The characters that become part of a token. */
  predicate Emits(m: Mode, c: char) {
    if m.escaped then true
    else if c == '\\' && !m.inSingle then false
    else if m.inSingle then c != '\''
    else if m.inDouble then c != '"'
    else c != '\'' && c != '"' && !IsBlank(c)
  }

  /** The characters that end a token. */
  predicate Separates(m: Mode, c: char) {
    m == PLAIN && IsBlank(c)
  }

  function Pushed(current: string, args: seq<string>): seq<string> {
    if current == "" then args else args + [current]
  }

  function TokenStep(st: Scan, c: char): Scan {
    var mode := Advance(st.mode, c);
    if Emits(st.mode, c) then Scan(mode, st.current + [c], st.args)
    else if Separates(st.mode, c) then Scan(mode, "", Pushed(st.current, st.args))
    else st.(mode := mode)
  }

  function TokenRun(st: Scan, s: string): Scan
    decreases s
  {
    if s == "" then st else TokenRun(TokenStep(st, s[0]), s[1..])
  }

  /** What tokenizing a whole line means. */
  function Tokens(s: string): Result<seq<string>> {
    var st := TokenRun(START, s);
    match Verdict(st.mode)
    case Some(e) => Err(e)
    case None => Ok(Pushed(st.current, st.args))
  }

  lemma {:induction false} TokenRunConcat(st: Scan, a: string, b: string)
    ensures TokenRun(st, a + b) == TokenRun(TokenRun(st, a), b)
    decreases a
  {
    if a == "" {
      assert a + b == b;
    } else {
      assert (a + b)[1..] == a[1..] + b;
      TokenRunConcat(TokenStep(st, a[0]), a[1..], b);
    }
  }

  lemma TokenRunSnoc(st: Scan, a: string, c: char)
    ensures TokenRun(st, a + [c]) == TokenStep(TokenRun(st, a), c)
  {
    TokenRunConcat(st, a, [c]);
    assert TokenRun(TokenRun(st, a), [c]) == TokenRun(TokenStep(TokenRun(st, a), c), [c][1..]);
  }

  lemma {:induction false} TokenRunMode(st: Scan, s: string)
    ensures TokenRun(st, s).mode == AdvanceAll(st.mode, s)
    decreases s
  {
    if s != "" {
      TokenRunMode(TokenStep(st, s[0]), s[1..]);
    }
  }

  /** The tokenizer accepts exactly the texts that bring the automaton back to its plain mode. */
  lemma TokensAccepts(s: string)
    ensures Tokens(s).Ok? <==> AdvanceAll(PLAIN, s) == PLAIN
    ensures Tokens(s).Err? ==> Verdict(AdvanceAll(PLAIN, s)) == Some(Tokens(s).error)
  {
    TokenRunMode(START, s);
  }

  /** Tokens already found stay in front of those still to come. */
  lemma {:induction false} TokenRunShift(mode: Mode, current: string, args: seq<string>, s: string)
    ensures var st := TokenRun(Scan(mode, current, []), s);
            TokenRun(Scan(mode, current, args), s) == Scan(st.mode, st.current, args + st.args)
    decreases s
  {
    if s == "" {
      assert args + [] == args;
    } else {
      var one := TokenStep(Scan(mode, current, []), s[0]);
      var two := TokenStep(Scan(mode, current, args), s[0]);
      assert two.args == args + one.args;
      TokenRunShift(one.mode, one.current, one.args, s[1..]);
      TokenRunShift(one.mode, one.current, two.args, s[1..]);
      var st := TokenRun(Scan(one.mode, one.current, []), s[1..]);
      assert (args + one.args) + st.args == args + (one.args + st.args);
    }
  }

  ghost predicate NoneEmpty(args: seq<string>) {
    forall i | 0 <= i < |args| :: args[i] != ""
  }

  lemma {:induction false} TokenRunNoneEmpty(st: Scan, s: string)
    requires NoneEmpty(st.args)
    ensures NoneEmpty(TokenRun(st, s).args)
    decreases s
  {
    if s != "" {
      TokenRunNoneEmpty(TokenStep(st, s[0]), s[1..]);
    }
  }

  /** The tokenizer never returns an empty token. */
  lemma TokensNoneEmpty(s: string)
    requires Tokens(s).Ok?
    ensures NoneEmpty(Tokens(s).value)
  {
    TokenRunNoneEmpty(START, s);
  }

  method ParseCommandLine(input: string) returns (r: Result<seq<string>>)
    ensures r == Tokens(input)
  {
    var args: seq<string> := [];
    var current := "";
    var inSingle, inDouble, escaped := false, false, false;
    for i := 0 to |input|
      invariant Scan(Mode(inSingle, inDouble, escaped), current, args) == TokenRun(START, input[..i])
      invariant !(inSingle && inDouble) && (escaped ==> !inSingle)
    {
      assert input[..i + 1] == input[..i] + [input[i]];
      TokenRunSnoc(START, input[..i], input[i]);
      var c := input[i];
      if escaped {
        current := current + [c];
        escaped := false;
        continue;
      }
      if c == '\\' && !inSingle {
        escaped := true;
        continue;
      }
      if inSingle {
        if c == '\'' {
          inSingle := false;
        } else {
          current := current + [c];
        }
        continue;
      }
      if inDouble {
        if c == '"' {
          inDouble := false;
        } else {
          current := current + [c];
        }
        continue;
      }
      if c == '\'' {
        inSingle := true;
      } else if c == '"' {
        inDouble := true;
      } else if c == ' ' || c == '\t' || c == '\n' || c == '\r' {
        if |current| != 0 {
          args := args + [current];
          current := "";
        }
      } else {
        current := current + [c];
      }
    }
    assert input[..|input|] == input;
    if escaped {
      return Err(UnfinishedEscape);
    }
    if inSingle || inDouble {
      return Err(UnclosedQuote);
    }
    if |current| != 0 {
      args := args + [current];
    }
    return Ok(args);
  }

  /* ----- The printer ----- */

  /** The characters that make the printer quote an argument. */
  predicate IsShellSpecial(c: char) {
    c in " \t\n\r\"'\\$`!&|;<>*?()[]{}"
  }

  predicate NeedsShellQuote(arg: string) {
    exists i | 0 <= i < |arg| :: IsShellSpecial(arg[i])
  }

  /** Every single quote replaced by `'"'"'`. */
  function EscapeSingleQuotes(arg: string): string {
    if arg == "" then ""
    else (if arg[0] == '\'' then "'\"'\"'" else [arg[0]]) + EscapeSingleQuotes(arg[1..])
  }

  function ShellQuoteArg(arg: string): string {
    if arg == "" then "''"
    else if !NeedsShellQuote(arg) then arg
    else "'" + EscapeSingleQuotes(arg) + "'"
  }

  function Joined(parts: seq<string>, sep: string): string {
    if |parts| == 0 then ""
    else if |parts| == 1 then parts[0]
    else parts[0] + sep + Joined(parts[1..], sep)
  }

  function QuotedAll(args: seq<string>): (r: seq<string>)
    ensures |r| == |args|
    ensures forall i | 0 <= i < |args| :: r[i] == ShellQuoteArg(args[i])
  {
    if |args| == 0 then [] else [ShellQuoteArg(args[0])] + QuotedAll(args[1..])
  }

  function Printed(args: seq<string>): string {
    Joined(QuotedAll(args), " ")
  }

  lemma PrefixGrows<T>(s: seq<T>, i: nat)
    requires i < |s|
    ensures s[..i + 1] == s[..i] + [s[i]]
  {
  }

  method FormatCommandLine(rawArgs: seq<string>) returns (line: string)
    ensures line == Printed(rawArgs)
  {
    if |rawArgs| == 0 {
      return "";
    }
    var parts: seq<string> := [];
    ghost var quoted := QuotedAll(rawArgs);
    for i := 0 to |rawArgs|
      invariant parts == quoted[..i]
    {
      var part := ShellQuoteArg(rawArgs[i]);
      assert part == quoted[i];
      PrefixGrows(quoted, i);
      parts := parts + [part];
    }
    assert parts == quoted;
    return Joined(parts, " ");
  }

  function PrintedAll(commands: seq<seq<string>>): (r: seq<string>)
    ensures |r| == |commands|
    ensures forall i | 0 <= i < |commands| :: r[i] == Printed(commands[i])
  {
    if |commands| == 0 then [] else [Printed(commands[0])] + PrintedAll(commands[1..])
  }

  function PrintedPipeline(commands: seq<seq<string>>): string {
    Joined(PrintedAll(commands), " | ")
  }

  method FormatPipelineCommands(commands: seq<seq<string>>) returns (line: string)
    ensures line == PrintedPipeline(commands)
  {
    if |commands| == 0 {
      return "";
    }
    var parts: seq<string> := [];
    ghost var printed := PrintedAll(commands);
    for i := 0 to |commands|
      invariant parts == printed[..i]
    {
      var part := FormatCommandLine(commands[i]);
      parts := parts + [part];
    }
    assert parts == printed;
    return Joined(parts, " | ");
  }

  /* ----- One command: printing then tokenizing drops the empty arguments and nothing else ----- */

  function NonEmptyArgs(args: seq<string>): seq<string> {
    if |args| == 0 then []
    else (if args[0] == "" then [] else [args[0]]) + NonEmptyArgs(args[1..])
  }

  lemma {:induction false} ScanPlainText(arg: string, current: string, args: seq<string>)
    requires !NeedsShellQuote(arg)
    ensures TokenRun(Scan(PLAIN, current, args), arg) == Scan(PLAIN, current + arg, args)
  {
    if arg == "" {
      assert current + arg == current;
    } else {
      assert !IsShellSpecial(arg[0]);
      assert !NeedsShellQuote(arg[1..]) by {
        assert forall i | 0 <= i < |arg[1..]| :: !IsShellSpecial(arg[1..][i]) by {
          assert forall i | 0 <= i < |arg[1..]| :: arg[1..][i] == arg[i + 1];
        }
      }
      ScanPlainText(arg[1..], current + [arg[0]], args);
      assert current + [arg[0]] + arg[1..] == current + arg;
    }
  }

  lemma {:induction false} ScanQuotedText(arg: string, current: string, args: seq<string>)
    ensures TokenRun(Scan(PLAIN.(inSingle := true), current, args), EscapeSingleQuotes(arg) + "'")
            == Scan(PLAIN, current + arg, args)
  {
    var st := Scan(PLAIN.(inSingle := true), current, args);
    if arg == "" {
      assert EscapeSingleQuotes(arg) + "'" == "'";
      assert TokenRun(st, "'") == TokenRun(TokenStep(st, '\''), "");
      assert current + arg == current;
    } else {
      var head := if arg[0] == '\'' then "'\"'\"'" else [arg[0]];
      assert EscapeSingleQuotes(arg) + "'" == head + (EscapeSingleQuotes(arg[1..]) + "'");
      TokenRunConcat(st, head, EscapeSingleQuotes(arg[1..]) + "'");
      ScanHead(st, arg[0]);
      ScanQuotedText(arg[1..], current + [arg[0]], args);
      assert current + [arg[0]] + arg[1..] == current + arg;
    }
  }

  lemma ScanHead(st: Scan, c: char)
    requires st.mode == PLAIN.(inSingle := true)
    ensures TokenRun(st, if c == '\'' then "'\"'\"'" else [c]) == st.(current := st.current + [c])
  {
    if c == '\'' {
      var s1 := TokenStep(st, '\'');
      var s2 := TokenStep(s1, '"');
      var s3 := TokenStep(s2, '\'');
      var s4 := TokenStep(s3, '"');
      var s5 := TokenStep(s4, '\'');
      assert s5 == st.(current := st.current + [c]);
      var t := "'\"'\"'";
      assert t[1..] == "\"'\"'" && t[1..][1..] == "'\"'" && t[1..][1..][1..] == "\"'" && t[1..][1..][1..][1..] == "'";
      assert TokenRun(s4, "'") == TokenRun(s5, "");
      assert TokenRun(s3, "\"'") == TokenRun(s4, "'");
      assert TokenRun(s2, "'\"'") == TokenRun(s3, "\"'");
      assert TokenRun(s1, "\"'\"'") == TokenRun(s2, "'\"'");
    } else {
      assert TokenRun(st, [c]) == TokenRun(TokenStep(st, c), [c][1..]);
    }
  }

  lemma ScanQuotedArg(arg: string, args: seq<string>)
    ensures TokenRun(Scan(PLAIN, "", args), ShellQuoteArg(arg)) == Scan(PLAIN, arg, args)
  {
    assert "" + arg == arg;
    if arg == "" {
      ScanEmptyQuotes(args);
    } else if NeedsShellQuote(arg) {
      ScanInQuotes(EscapeSingleQuotes(arg), args);
      ScanQuotedText(arg, "", args);
    } else {
      ScanPlainText(arg, "", args);
    }
  }

  lemma ScanEmptyQuotes(args: seq<string>)
    ensures TokenRun(Scan(PLAIN, "", args), "''") == Scan(PLAIN, "", args)
  {
    var st := Scan(PLAIN, "", args);
    assert TokenRun(TokenStep(st, '\''), "'") == TokenRun(TokenStep(TokenStep(st, '\''), '\''), "");
    assert "''"[1..] == "'";
  }

  lemma ScanInQuotes(body: string, args: seq<string>)
    ensures TokenRun(Scan(PLAIN, "", args), "'" + body + "'") ==
            TokenRun(Scan(PLAIN.(inSingle := true), "", args), body + "'")
  {
    var quoted := "'" + body + "'";
    assert quoted[0] == '\'' && quoted[1..] == body + "'";
  }

  lemma ScanNextArg(rest: seq<string>, args: seq<string>)
    requires |rest| > 1
    ensures TokenRun(Scan(PLAIN, "", args), Printed(rest)) ==
            TokenRun(Scan(PLAIN, "", Pushed(rest[0], args)), Printed(rest[1..]))
  {
    var q, tail := ShellQuoteArg(rest[0]), " " + Printed(rest[1..]);
    assert QuotedAll(rest)[1..] == QuotedAll(rest[1..]);
    assert Printed(rest) == q + tail;
    ScanQuotedArg(rest[0], args);
    TokenRunConcat(Scan(PLAIN, "", args), q, tail);
    assert tail[1..] == Printed(rest[1..]);
  }

  lemma {:induction false} ScanPrinted(rest: seq<string>, args: seq<string>)
    ensures var st := TokenRun(Scan(PLAIN, "", args), Printed(rest));
            st.mode == PLAIN && Pushed(st.current, st.args) == args + NonEmptyArgs(rest)
  {
    if |rest| == 0 {
      assert args + [] == args;
    } else if |rest| == 1 {
      ScanQuotedArg(rest[0], args);
      PrintedOne(rest[0]);
      PushedFirst(rest, args);
      assert NonEmptyArgs(rest[1..]) == [];
    } else {
      ScanNextArg(rest, args);
      ScanPrinted(rest[1..], Pushed(rest[0], args));
      PushedFirst(rest, args);
    }
  }

  lemma PrintedOne(arg: string)
    ensures Printed([arg]) == ShellQuoteArg(arg)
  {
    assert QuotedAll([arg]) == [ShellQuoteArg(arg)];
  }

  lemma PushedFirst(rest: seq<string>, args: seq<string>)
    requires |rest| > 0
    ensures Pushed(rest[0], args) + NonEmptyArgs(rest[1..]) == args + NonEmptyArgs(rest)
  {
    var head: seq<string> := if rest[0] == "" then [] else [rest[0]];
    assert Pushed(rest[0], args) == args + head;
    ListsAssociate(args, head, NonEmptyArgs(rest[1..]));
  }

  lemma ListsAssociate(a: seq<string>, b: seq<string>, c: seq<string>)
    ensures (a + b) + c == a + (b + c)
  {
  }

  /** For every list of arguments: tokenizing the printed line gives back the arguments that are not empty. */
  lemma PrintThenTokenize(args: seq<string>)
    ensures Tokens(Printed(args)) == Ok(NonEmptyArgs(args))
  {
    ScanPrinted(args, []);
    assert [] + NonEmptyArgs(args) == NonEmptyArgs(args);
  }

  lemma {:induction false} NonEmptyArgsFixed(args: seq<string>)
    ensures NonEmptyArgs(args) == args <==> NoneEmpty(args)
  {
    if |args| != 0 {
      NonEmptyArgsFixed(args[1..]);
      NonEmptyArgsShorter(args[1..]);
      if args[0] != "" {
        assert NonEmptyArgs(args)[1..] == NonEmptyArgs(args[1..]);
        assert args == [args[0]] + args[1..];
        assert NoneEmpty(args) ==> NoneEmpty(args[1..]);
        assert NoneEmpty(args[1..]) ==> NoneEmpty(args) by {
          assert forall i | 0 < i < |args| :: args[i] == args[1..][i - 1];
        }
      }
    }
  }

  lemma NonEmptyArgsShorter(args: seq<string>)
    ensures |NonEmptyArgs(args)| <= |args|
  {
  }
}
