/** How `task add ... -- <command line>` finds its command: the separator scan of
    `internal/service/daemon_task.go`, next to the tokenizer that the same line goes through. */
module TaskCommand {
  import opened Text
  import opened CommandLine
  import Pipeline

  /** The text between positions p - 2 and p is a whole word `--`, bare of quotes and escapes. */
  ghost predicate SeparatorAt(line: string, p: nat) {
    && 2 <= p <= |line|
    && line[p - 2] == '-' && line[p - 1] == '-'
    && AdvanceAll(PLAIN, line[..p - 2]) == PLAIN
    && (p == 2 || Separates(AdvanceAll(PLAIN, line[..p - 3]), line[p - 3]))
    && (p == |line| || IsBlank(line[p]))
  }

  ghost predicate FirstSeparatorAt(line: string, p: nat) {
    SeparatorAt(line, p) && forall q: nat | SeparatorAt(line, q) :: p <= q
  }

  /** Where the word that reaches position i began, or -1 between words. */
  ghost function WordStart(line: string, i: nat): (start: int)
    requires i <= |line|
    ensures -1 <= start < i || start == -1
  {
    if i == 0 || Separates(AdvanceAll(PLAIN, line[..i - 1]), line[i - 1]) then -1
    else if WordStart(line, i - 1) == -1 then i - 1
    else WordStart(line, i - 1)
  }

  lemma ModeStep(line: string, i: nat)
    requires i < |line|
    ensures AdvanceAll(PLAIN, line[..i + 1]) == Advance(AdvanceAll(PLAIN, line[..i]), line[i])
  {
    assert line[..i + 1] == line[..i] + [line[i]];
    AdvanceAllSnoc(PLAIN, line[..i], line[i]);
  }

  lemma {:induction false} BetweenWordsIsPlain(line: string, i: nat)
    requires i <= |line| && WordStart(line, i) == -1
    ensures AdvanceAll(PLAIN, line[..i]) == PLAIN
  {
    if i > 0 {
      ModeStep(line, i - 1);
    }
  }

  lemma BareDashes(line: string, p: nat)
    requires 2 <= p <= |line|
    requires line[p - 2] == '-' && line[p - 1] == '-'
    ensures WordStart(line, p) == p - 2 <==>
            AdvanceAll(PLAIN, line[..p - 2]) == PLAIN &&
            (p == 2 || Separates(AdvanceAll(PLAIN, line[..p - 3]), line[p - 3]))
    ensures WordStart(line, p) == p - 2 ==> AdvanceAll(PLAIN, line[..p]) == PLAIN
  {
    assert WordStart(line, p) == p - 2 <==> WordStart(line, p - 2) == -1;
    if WordStart(line, p - 2) == -1 {
      BetweenWordsIsPlain(line, p - 2);
      ModeStep(line, p - 2);
      ModeStep(line, p - 1);
    }
  }

  method FindTaskCommandSeparator(line: string) returns (r: Result<Option<nat>>)
    ensures r.Ok? && r.value.Some? ==> FirstSeparatorAt(line, r.value.value)
    ensures (exists q: nat :: SeparatorAt(line, q)) ==> r.Ok? && r.value.Some?
    ensures r.Ok? && r.value.None? ==> Tokens(line).Ok?
    ensures r.Err? ==> Tokens(line) == Err(r.error)
  {
    var inSingle, inDouble, escaped := false, false, false;
    var tokenStart := -1;
    for index := 0 to |line|
      invariant !(inSingle && inDouble) && (escaped ==> !inSingle)
      invariant Mode(inSingle, inDouble, escaped) == AdvanceAll(PLAIN, line[..index])
      invariant tokenStart == WordStart(line, index)
      invariant tokenStart == -1 ==> !inSingle && !inDouble && !escaped
      invariant forall q: nat | q < index :: !SeparatorAt(line, q)
    {
      ModeStep(line, index);
      SeparatorNeedsBlank(line, index);
      var c := line[index];
      if escaped {
        escaped := false;
        continue;
      }
      if c == '\\' && !inSingle {
        escaped := true;
        if tokenStart == -1 {
          tokenStart := index;
        }
        continue;
      }
      if inSingle {
        if c == '\'' {
          inSingle := false;
        }
        continue;
      }
      if inDouble {
        if c == '"' {
          inDouble := false;
        }
        continue;
      }
      if c == '\'' {
        if tokenStart == -1 {
          tokenStart := index;
        }
        inSingle := true;
        continue;
      }
      if c == '"' {
        if tokenStart == -1 {
          tokenStart := index;
        }
        inDouble := true;
        continue;
      }
      if c == ' ' || c == '\t' || c == '\n' || c == '\r' {
        if tokenStart >= 0 {
          WordIsSeparator(line, tokenStart, index);
          if line[tokenStart..index] == "--" {
            return Ok(Some(index));
          }
          tokenStart := -1;
        }
        continue;
      }
      if tokenStart == -1 {
        tokenStart := index;
      }
    }
    assert line[..|line|] == line;
    TokensAccepts(line);
    SeparatorNeedsBlank(line, |line|);
    if escaped {
      return Err(UnfinishedEscape);
    }
    if inSingle || inDouble {
      return Err(UnclosedQuote);
    }
    if tokenStart >= 0 {
      WordIsSeparator(line, tokenStart, |line|);
      if line[tokenStart..] == "--" {
        assert line[tokenStart..|line|] == "--";
        return Ok(Some(|line|));
      }
      assert line[tokenStart..|line|] == line[tokenStart..];
    }
    return Ok(None);
  }

  lemma TwoDashes(line: string, start: nat, p: nat)
    requires start < p <= |line|
    ensures line[start..p] == "--" <==> p == start + 2 && line[start] == '-' && line[start + 1] == '-'
  {
    if p == start + 2 {
      assert line[start..p] == [line[start], line[start + 1]];
    } else {
      assert |line[start..p]| != |"--"|;
    }
  }

  lemma WordIsSeparator(line: string, start: nat, p: nat)
    requires start < p <= |line| && WordStart(line, p) == start
    requires p == |line| || IsBlank(line[p])
    ensures line[start..p] == "--" <==> SeparatorAt(line, p)
    ensures SeparatorAt(line, p) ==> AdvanceAll(PLAIN, line[..p]) == PLAIN
  {
    TwoDashes(line, start, p);
    if p >= 2 && line[p - 2] == '-' && line[p - 1] == '-' {
      BareDashes(line, p);
    }
  }

  lemma SeparatorNeedsBlank(line: string, p: nat)
    requires p <= |line|
    ensures SeparatorAt(line, p) ==>
              && WordStart(line, p) == p - 2
              && AdvanceAll(PLAIN, line[..p]) == PLAIN
              && (p < |line| ==> IsBlank(line[p]))
  {
    if SeparatorAt(line, p) {
      BareDashes(line, p);
    }
  }

  lemma TokenRunBeforeSeparator(line: string, p: nat)
    requires SeparatorAt(line, p)
    ensures var st := TokenRun(START, line[..p - 2]); st.mode == PLAIN && st.current == ""
  {
    TokenRunMode(START, line[..p - 2]);
    if p > 2 {
      assert line[..p - 2] == line[..p - 3] + [line[p - 3]];
      TokenRunSnoc(START, line[..p - 3], line[p - 3]);
      TokenRunMode(START, line[..p - 3]);
    }
  }

  lemma DashesAreScanned(args: seq<string>)
    ensures TokenRun(Scan(PLAIN, "", args), "--") == Scan(PLAIN, "--", args)
  {
    var st := Scan(PLAIN, "", args);
    assert "--"[1..] == "-" && "-"[1..] == "";
    assert TokenRun(TokenStep(st, '-'), "-") == TokenRun(TokenStep(TokenStep(st, '-'), '-'), "");
    assert "" + ['-'] + ['-'] == "--";
  }

  /** What follows the separator is scanned as a line of its own. */
  lemma ScannedAfterDashes(args: seq<string>, after: string)
    requires after == "" || IsBlank(after[0])
    ensures var end, own := TokenRun(Scan(PLAIN, "--", args), after), TokenRun(START, after);
            end.mode == own.mode &&
            Pushed(end.current, end.args) == args + ["--"] + Pushed(own.current, own.args)
  {
    if after == "" {
      assert args + ["--"] + [] == args + ["--"];
    } else {
      var all := args + ["--"];
      assert TokenStep(START, after[0]) == START;
      assert TokenStep(Scan(PLAIN, "--", args), after[0]) == Scan(PLAIN, "", all);
      TokenRunShift(PLAIN, "", all, after[1..]);
      var own := TokenRun(START, after[1..]);
      assert Pushed(own.current, all + own.args) == all + Pushed(own.current, own.args);
    }
  }

  /** The separator cuts the tokens of the line: those before it, the separator itself, and those after it. */
  lemma SeparatorDecomposition(line: string, p: nat)
    requires SeparatorAt(line, p)
    ensures Tokens(line[..p - 2]).Ok?
    ensures Tokens(line) == match Tokens(line[p..])
                            case Err(e) => Err(e)
                            case Ok(rest) => Ok(Tokens(line[..p - 2]).value + ["--"] + rest)
  {
    var before, after := line[..p - 2], line[p..];
    var st := TokenRun(START, before);
    TokenRunBeforeSeparator(line, p);
    assert line == before + ("--" + after);
    TokenRunConcat(START, before, "--" + after);
    TokenRunConcat(st, "--", after);
    DashesAreScanned(st.args);
    ScannedAfterDashes(st.args, after);
  }

  /** Go's `slices.Index`. */
  function IndexOf(args: seq<string>, x: string): (i: int)
    ensures -1 <= i < |args|
    ensures i >= 0 ==> args[i] == x && x !in args[..i]
    ensures i < 0 ==> x !in args
  {
    if |args| == 0 then -1
    else if args[0] == x then 0
    else
      var i := IndexOf(args[1..], x);
      assert i >= 0 ==> args[..i + 1] == [args[0]] + args[1..][..i];
      if i < 0 then -1 else i + 1
  }

  /** The option parser, which looks for the first token `--`, stops at the separator the scan found exactly
      when no token before it reads `--`; otherwise it stops earlier, at a quoted or escaped one. */
  lemma OptionsAndScanAgree(line: string, p: nat)
    requires SeparatorAt(line, p) && Tokens(line).Ok?
    ensures Tokens(line[..p - 2]).Ok?
    ensures var before := Tokens(line[..p - 2]).value;
            && (IndexOf(Tokens(line).value, "--") == |before| <==> "--" !in before)
            && 0 <= IndexOf(Tokens(line).value, "--") <= |before|
  {
    SeparatorDecomposition(line, p);
    var before := Tokens(line[..p - 2]).value;
    var args := Tokens(line).value;
    assert args[|before|] == "--";
    assert args[..|before|] == before;
    IndexOfIs(args, "--", |before|);
  }

  lemma IndexOfIs(args: seq<string>, x: string, n: nat)
    requires n < |args| && args[n] == x
    ensures 0 <= IndexOf(args, x) <= n
    ensures IndexOf(args, x) == n <==> x !in args[..n]
  {
    var i := IndexOf(args, x);
    assert 0 <= i < n ==> args[..n][i] == x;
  }

  /** A quoted `--` before the separator makes the two disagree. */
  lemma QuotedDashesDisagree()
    ensures SeparatorAt("'--' --", 7)
    ensures Tokens("'--' --") == Ok(["--", "--"]) && Tokens("'--' --"[..5]) == Ok(["--"]) &&
            IndexOf(["--", "--"], "--") == 0
  {
    var line := "'--' --";
    var q := "'--'";
    QuotedDashesTokens();
    assert line[..5] == q + " ";
    assert line[..4] == q;
    TokenRunSnoc(START, q, ' ');
    assert TokenRun(START, q + " ") == Scan(PLAIN, "", ["--"]);
    TokenRunMode(START, q);
    TokenRunMode(START, q + " ");
    assert SeparatorAt(line, 7);
    SeparatorDecomposition(line, 7);
    assert line[7..] == "" && Tokens("") == Ok([]);
    assert ["--"] + ["--"] + [] == ["--", "--"];
  }

  lemma QuotedDashesTokens()
    ensures TokenRun(START, "'--'") == Scan(PLAIN, "--", [])
  {
    assert "'--'"[1..] == "--'" && "--'"[1..] == "-'" && "-'"[1..] == "'" && "'"[1..] == "";
    var s1 := TokenStep(START, '\'');
    var s2 := TokenStep(s1, '-');
    var s3 := TokenStep(s2, '-');
    var s4 := TokenStep(s3, '\'');
    assert s3.current == "--" by {
      assert "" + ['-'] + ['-'] == "--";
    }
    assert TokenRun(s3, "'") == TokenRun(s4, "");
    assert TokenRun(s2, "-'") == TokenRun(s3, "'");
    assert TokenRun(s1, "--'") == TokenRun(s2, "-'");
  }

  datatype AddError = Scanner(e: ScanError) | MissingSeparator | EmptyCommand | ForbiddenCommand

  datatype Extracted = Line(line: string) | Refused(error: AddError)

  predicate ForbiddenFirst(name: string) {
    name in {"exit", "quit", "daemon", "d", "task"}
  }

  /** Commands a task may hold: no stage ends or re-enters the daemon, or schedules another task. */
  predicate AllowedCommands(commands: seq<seq<string>>) {
    forall i | 0 <= i < |commands| :: |commands[i]| > 0 && !ForbiddenFirst(FoldKey(commands[i][0]))
  }

  /** A stage that begins with one of these words is refused, at any place in the pipeline, in upper or lower case,
      and with spaces quoted into the word. */
  lemma ForbiddenIsRefused(commands: seq<seq<string>>, i: nat, a: string, w: string, b: string)
    requires i < |commands| && |commands[i]| > 0 && commands[i][0] == a + w + b
    requires AllSpaces(a) && AllSpaces(b)
    requires Lower(w) == "exit" || Lower(w) == "quit" || Lower(w) == "daemon" || Lower(w) == "d" || Lower(w) == "task"
    ensures !AllowedCommands(commands)
  {
    LowerIsNotBlank(w);
    FoldKeyIgnores(a, w, b);
  }

  /** The lines a task can be created with, which are also the lines a restart accepts from the state file. */
  predicate TaskLine(line: string) {
    && line != ""
    && Trim(line) == line
    && Pipeline.ParsedPipeline(line).Ok?
    && AllowedCommands(Pipeline.ParsedPipeline(line).value)
  }

  method ExtractTaskCommandLine(line: string) returns (r: Extracted)
    ensures r.Line? ==> r.line != "" && Trim(r.line) == r.line
    ensures r.Line? <==> exists p: nat :: FirstSeparatorAt(line, p) && Trim(line[p..]) != ""
    ensures r.Line? ==> exists p: nat :: FirstSeparatorAt(line, p) && r.line == Trim(line[p..])
  {
    var found := FindTaskCommandSeparator(line);
    match found
    case Err(e) => return Refused(Scanner(e));
    case Ok(None) => return Refused(MissingSeparator);
    case Ok(Some(p)) =>
      var commandLine := Trim(line[p..]);
      if commandLine == "" {
        return Refused(EmptyCommand);
      }
      TrimIdempotent(line[p..]);
      return Line(commandLine);
  }

  method ValidateTaskCommands(commands: seq<seq<string>>) returns (ok: bool)
    ensures ok == AllowedCommands(commands)
  {
    for i := 0 to |commands|
      invariant forall k | 0 <= k < i :: |commands[k]| > 0 && !ForbiddenFirst(FoldKey(commands[k][0]))
    {
      if |commands[i]| == 0 {
        return false;
      }
      var first := Lower(Trim(commands[i][0]));
      if first == "exit" || first == "quit" || first == "daemon" || first == "d" || first == "task" {
        return false;
      }
    }
    return true;
  }

  /** The command part of `task add`: what it accepts is a line that a restart will load again. */
  method PlanTask(line: string) returns (r: Extracted)
    ensures r.Line? ==> TaskLine(r.line) && exists p: nat :: FirstSeparatorAt(line, p) && r.line == Trim(line[p..])
    ensures !r.Line? ==> forall p: nat | FirstSeparatorAt(line, p) :: !TaskLine(Trim(line[p..]))
  {
    r := ExtractTaskCommandLine(line);
    if r.Line? {
      var parsed := Pipeline.ParsePipelineCommandLine(r.line);
      match parsed
      case Err(e) => r := Refused(Scanner(e));
      case Ok(commands) =>
        var ok := ValidateTaskCommands(commands);
        if !ok {
          r := Refused(ForbiddenCommand);
        }
    }
  }
}
