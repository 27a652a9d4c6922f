/** The pipeline splitter of `internal/service/daemon_command.go`, against the tokenizer it feeds and the
    printer whose output it has to read back when monitors and tasks are restored. */
module Pipeline {
  import opened Text
  import opened CommandLine

  /* ----- Splitting at the bars that stand outside quotes and escapes ----- */

  function RawStages(m: Mode, current: string, s: string): (stages: seq<string>)
    ensures |stages| >= 1
    decreases s
  {
    if s == "" then [current]
    else if m == PLAIN && s[0] == '|' then [current] + RawStages(PLAIN, "", s[1..])
    else RawStages(Advance(m, s[0]), current + [s[0]], s[1..])
  }

  /** The untrimmed stages of a line. */
  function Stages(s: string): (stages: seq<string>)
    ensures |stages| >= 1
  {
    RawStages(PLAIN, "", s)
  }

  function TrimAll(parts: seq<string>): seq<string> {
    seq(|parts|, i requires 0 <= i < |parts| => Trim(parts[i]))
  }

  predicate SomeBlank(parts: seq<string>) {
    exists i | 0 <= i < |parts| :: Trim(parts[i]) == ""
  }

  /** What splitting a whole line means: a blank stage before a bar is reported before an unfinished quote,
      a blank last stage after it. */
  function Segments(s: string): Result<seq<string>> {
    var stages := Stages(s);
    if SomeBlank(stages[..|stages| - 1]) then Err(ScanError.EmptyStage)
    else match Verdict(AdvanceAll(PLAIN, s))
      case Some(e) => Err(e)
      case None => if Trim(stages[|stages| - 1]) == "" then Err(ScanError.EmptyStage) else Ok(TrimAll(stages))
  }

  method SplitPipelineSegments(input: string) returns (r: Result<seq<string>>)
    ensures r == Segments(input)
  {
    var segments: seq<string> := [];
    ghost var raw: seq<string> := [];
    var current := "";
    var inSingle, inDouble, escaped := false, false, false;
    assert input[0..] == input;
    assert raw + Stages(input) == Stages(input);
    for i := 0 to |input|
      invariant !(inSingle && inDouble) && (escaped ==> !inSingle)
      invariant Mode(inSingle, inDouble, escaped) == AdvanceAll(PLAIN, input[..i])
      invariant Stages(input) == raw + RawStages(Mode(inSingle, inDouble, escaped), current, input[i..])
      invariant segments == TrimAll(raw) && !SomeBlank(raw)
    {
      assert input[..i + 1] == input[..i] + [input[i]];
      AdvanceAllSnoc(PLAIN, input[..i], input[i]);
      assert input[i..][1..] == input[i + 1..];
      var c := input[i];
      if escaped {
        current := current + [c];
        escaped := false;
        continue;
      }
      if c == '\\' && !inSingle {
        escaped := true;
        current := current + [c];
        continue;
      }
      if inSingle {
        if c == '\'' {
          inSingle := false;
        }
        current := current + [c];
        continue;
      }
      if inDouble {
        if c == '"' {
          inDouble := false;
        }
        current := current + [c];
        continue;
      }
      if c == '\'' {
        inSingle := true;
        current := current + [c];
      } else if c == '"' {
        inDouble := true;
        current := current + [c];
      } else if c == '|' {
        var segment := Trim(current);
        ghost var rest := RawStages(PLAIN, "", input[i + 1..]);
        assert Stages(input) == (raw + [current]) + rest;
        if segment == "" {
          assert Stages(input)[..|Stages(input)| - 1][|raw|] == current;
          return Err(ScanError.EmptyStage);
        }
        TrimAllSnoc(raw, current);
        segments := segments + [segment];
        raw := raw + [current];
        current := "";
      } else {
        current := current + [c];
      }
    }
    assert input[..|input|] == input;
    assert Stages(input) == raw + [current];
    assert Stages(input)[..|Stages(input)| - 1] == raw;
    if escaped {
      return Err(UnfinishedEscape);
    }
    if inSingle || inDouble {
      return Err(UnclosedQuote);
    }
    var segment := Trim(current);
    if segment == "" {
      return Err(ScanError.EmptyStage);
    }
    TrimAllSnoc(raw, current);
    return Ok(segments + [segment]);
  }

  lemma TrimAllSnoc(parts: seq<string>, last: string)
    ensures TrimAll(parts + [last]) == TrimAll(parts) + [Trim(last)]
  {
  }

  /** Scanning the text from the given mode meets no bar outside quotes and escapes. */
  predicate NoBarFrom(m: Mode, t: string)
    decreases t
  {
    t == "" || (!(m == PLAIN && t[0] == '|') && NoBarFrom(Advance(m, t[0]), t[1..]))
  }

  predicate NoPlainBar(t: string) {
    NoBarFrom(PLAIN, t)
  }

  lemma {:induction false} NoBarConcat(m: Mode, a: string, b: string)
    ensures NoBarFrom(m, a + b) <==> NoBarFrom(m, a) && NoBarFrom(AdvanceAll(m, a), b)
    decreases a
  {
    if a == "" {
      assert a + b == b;
    } else {
      assert (a + b)[1..] == a[1..] + b;
      NoBarConcat(Advance(m, a[0]), a[1..], b);
    }
  }

  /** A cutting of a line at bars outside quotes and escapes, and at all of them. */
  ghost predicate ProperCut(parts: seq<string>) {
    && |parts| >= 1
    && (forall i | 0 <= i < |parts| :: NoPlainBar(parts[i]))
    && (forall i | 0 <= i < |parts| - 1 :: AdvanceAll(PLAIN, parts[i]) == PLAIN)
  }

  lemma {:induction false} RawStagesPrefix(m: Mode, done: string, t: string, rest: string)
    requires NoBarFrom(m, t)
    ensures RawStages(m, done, t + rest) == RawStages(AdvanceAll(m, t), done + t, rest)
    decreases t
  {
    if t == "" {
      assert t + rest == rest && done + t == done;
    } else {
      assert (t + rest)[1..] == t[1..] + rest;
      assert done + [t[0]] + t[1..] == done + t;
      RawStagesPrefix(Advance(m, t[0]), done + [t[0]], t[1..], rest);
    }
  }

  /** A line joined from a proper cutting is split into that cutting. */
  lemma {:induction false} StagesOfCut(parts: seq<string>)
    requires ProperCut(parts)
    ensures Stages(Joined(parts, "|")) == parts
  {
    assert "" + parts[0] == parts[0];
    if |parts| == 1 {
      RawStagesPrefix(PLAIN, "", parts[0], "");
      assert parts[0] + "" == parts[0];
    } else {
      var rest := Joined(parts[1..], "|");
      var tail := "|" + rest;
      Associates(parts[0], "|", rest);
      assert Joined(parts, "|") == parts[0] + tail;
      RawStagesPrefix(PLAIN, "", parts[0], tail);
      assert tail[0] == '|' && tail[1..] == rest;
      StagesOfCut(parts[1..]);
      assert [parts[0]] + parts[1..] == parts;
    }
  }

  lemma {:induction false} RawStagesCut(current: string, s: string)
    requires NoPlainBar(current)
    ensures var stages := RawStages(AdvanceAll(PLAIN, current), current, s);
            && ProperCut(stages)
            && Joined(stages, "|") == current + s
            && AdvanceAll(PLAIN, stages[|stages| - 1]) == AdvanceAll(AdvanceAll(PLAIN, current), s)
    decreases s
  {
    var m := AdvanceAll(PLAIN, current);
    if s == "" {
      assert current + s == current;
    } else if m == PLAIN && s[0] == '|' {
      RawStagesCut("", s[1..]);
      var rest := RawStages(PLAIN, "", s[1..]);
      var stages := [current] + rest;
      assert stages[1..] == rest;
      assert "" + s[1..] == s[1..];
      Reassembles(current, s);
      assert [s[0]] == "|";
      assert forall i | 1 <= i < |stages| :: stages[i] == rest[i - 1];
    } else {
      AdvanceAllSnoc(PLAIN, current, s[0]);
      NoBarConcat(PLAIN, current, [s[0]]);
      assert NoBarFrom(m, [s[0]]);
      RawStagesCut(current + [s[0]], s[1..]);
      Reassembles(current, s);
    }
  }

  lemma Reassembles(current: string, s: string)
    requires s != ""
    ensures current + [s[0]] + s[1..] == current + s
  {
  }

  /** The splitter cuts exactly at the bars outside quotes and escapes: its stages are the one proper cutting
      of the line, and the last stage leaves the automaton where the whole line leaves it. */
  lemma StagesAreTheProperCut(s: string, parts: seq<string>)
    requires |parts| >= 1
    ensures Stages(s) == parts <==> ProperCut(parts) && Joined(parts, "|") == s
    ensures AdvanceAll(PLAIN, Stages(s)[|Stages(s)| - 1]) == AdvanceAll(PLAIN, s)
  {
    RawStagesCut("", s);
    assert "" + s == s;
    if ProperCut(parts) {
      StagesOfCut(parts);
    }
  }

  /* ----- Which segments the tokenizer accepts ----- */

  function TrailingBackslashes(s: string): (n: nat)
    ensures n <= |s|
  {
    if s == "" || s[|s| - 1] != '\\' then 0 else 1 + TrailingBackslashes(s[..|s| - 1])
  }

  /** The white space that ends the text begins with a blank under a backslash that is not itself escaped. */
  predicate EndsInEscapedBlank(s: string) {
    TrimRight(s) != s && TrailingBackslashes(TrimRight(s)) % 2 == 1
  }

  lemma {:induction false} SpacesKeepPlain(s: string)
    requires AllSpaces(s)
    ensures AdvanceAll(PLAIN, s) == PLAIN
  {
    if s != "" {
      SpacesKeepPlain(s[1..]);
    }
  }

  lemma {:induction false} SpacesToPlain(m: Mode, s: string)
    requires AllSpaces(s) && s != ""
    requires AdvanceAll(m, s) == PLAIN
    ensures m == PLAIN || m == PLAIN.(escaped := true)
    decreases s
  {
    var next := Advance(m, s[0]);
    if |s| > 1 {
      SpacesToPlain(next, s[1..]);
    } else {
      assert s[1..] == "";
    }
  }

  /** After balanced text, a run of backslashes leaves an escape open exactly when its length is odd. */
  lemma {:induction false} OddBackslashesEscape(t: string)
    requires var m := AdvanceAll(PLAIN, t); !m.inSingle && !m.inDouble
    ensures AdvanceAll(PLAIN, t).escaped <==> TrailingBackslashes(t) % 2 == 1
  {
    if t != "" {
      var u := t[..|t| - 1];
      var c := t[|t| - 1];
      assert t == u + [c];
      AdvanceAllSnoc(PLAIN, u, c);
      AdvanceAllExclusive(PLAIN, u);
      if c == '\\' {
        OddBackslashesEscape(u);
      }
    }
  }

  /** Trimming keeps a balanced stage balanced, unless it cuts off a blank that a backslash had escaped. */
  lemma TrimmedStageAccepted(raw: string)
    requires AdvanceAll(PLAIN, raw) == PLAIN
    ensures Tokens(Trim(raw)).Ok? <==> !EndsInEscapedBlank(raw)
    ensures EndsInEscapedBlank(raw) ==> Tokens(Trim(raw)) == Err(UnfinishedEscape)
  {
    var b := TrimRightCuts(raw);
    var t := TrimRight(raw);
    AdvanceAllConcat(PLAIN, t, b);
    if b != "" {
      SpacesToPlain(AdvanceAll(PLAIN, t), b);
    } else {
      assert t == raw;
    }
    OddBackslashesEscape(t);
    TrimBothOrders(raw);
    var a := TrimLeftCuts(t);
    AdvanceAllConcat(PLAIN, a, TrimLeft(t));
    SpacesKeepPlain(a);
    TokensAccepts(TrimLeft(t));
  }

  lemma TrimBothOrders(s: string)
    ensures Trim(s) == TrimLeft(TrimRight(s))
  {
    var b := TrimRightCuts(s);
    var t := TrimRight(s);
    var a := TrimLeftCuts(t);
    var l := TrimLeft(t);
    assert s == a + l + b;
    TrimPadded(a, l, b);
    if l != "" {
      assert l[|l| - 1] == t[|t| - 1];
    }
    TrimFixed(l);
  }

  /** For a line the splitter accepts, the tokenizer accepts each returned segment exactly when the stage it
      comes from does not end in a backslash-escaped blank; the only other outcome is an unfinished escape. */
  lemma SegmentsAndTokenizer(s: string, i: nat)
    requires Segments(s).Ok? && i < |Segments(s).value|
    ensures |Segments(s).value| == |Stages(s)| && Segments(s).value[i] == Trim(Stages(s)[i])
    ensures Tokens(Segments(s).value[i]).Ok? <==> !EndsInEscapedBlank(Stages(s)[i])
    ensures EndsInEscapedBlank(Stages(s)[i]) ==> Tokens(Segments(s).value[i]) == Err(UnfinishedEscape)
  {
    RawStagesCut("", s);
    assert "" + s == s;
    AdvanceAllExclusive(PLAIN, s);
    TrimmedStageAccepted(Stages(s)[i]);
  }

  /** Such lines: any plain text followed by an escaped blank. */
  lemma EscapedBlankIsLost(t: string)
    requires t != "" && !IsSpace(t[0]) && NoPlainBar(t) && AdvanceAll(PLAIN, t) == PLAIN
    ensures Segments(t + ['\\', ' ']) == Ok([t + ['\\']])
    ensures Tokens(t + ['\\']) == Err(UnfinishedEscape)
  {
    var cut, raw := t + ['\\'], t + ['\\', ' '];
    assert raw == cut + [' '] && raw[..|raw| - 1] == cut;
    AdvanceAllSnoc(PLAIN, t, '\\');
    AdvanceAllSnoc(PLAIN, cut, ' ');
    OneMoreCharacter(t, '\\');
    OneMoreCharacter(cut, ' ');
    OneStage(raw);
    assert TrimRight(cut) == cut && TrimRight(raw) == cut && TrimLeft(raw) == raw;
    assert TrimAll([raw]) == [cut];
    TokensAccepts(cut);
  }

  lemma OneMoreCharacter(t: string, c: char)
    requires NoPlainBar(t) && c != '|'
    ensures NoPlainBar(t + [c])
  {
    NoBarConcat(PLAIN, t, [c]);
    assert [c][1..] == "";
  }

  lemma OneStage(raw: string)
    requires NoPlainBar(raw)
    ensures Stages(raw) == [raw]
  {
    assert Joined([raw], "|") == raw && ProperCut([raw]);
    StagesOfCut([raw]);
  }

  /* ----- Parsing a pipeline ----- */

  function TokensOfAll(segments: seq<string>): Result<seq<seq<string>>> {
    if |segments| == 0 then Ok([])
    else match Tokens(segments[0])
      case Err(e) => Err(e)
      case Ok(args) =>
        if |args| == 0 then Err(ScanError.EmptyStage)
        else match TokensOfAll(segments[1..])
          case Err(e) => Err(e)
          case Ok(rest) => Ok([args] + rest)
  }

  function ParsedPipeline(s: string): Result<seq<seq<string>>> {
    match Segments(s)
    case Err(e) => Err(e)
    case Ok(segments) => TokensOfAll(segments)
  }

  method ParsePipelineCommandLine(input: string) returns (r: Result<seq<seq<string>>>)
    ensures r == ParsedPipeline(input)
  {
    var split := SplitPipelineSegments(input);
    match split
    case Err(e) => return Err(e);
    case Ok(segments) =>
      var commands: seq<seq<string>> := [];
      assert segments[0..] == segments;
      if TokensOfAll(segments).Ok? {
        assert commands + TokensOfAll(segments).value == TokensOfAll(segments).value;
      }
      for i := 0 to |segments|
        invariant TokensOfAll(segments) == match TokensOfAll(segments[i..])
                                             case Err(e) => Err(e)
                                             case Ok(rest) => Ok(commands + rest)
      {
        var args := ParseCommandLine(segments[i]);
        assert segments[i..][1..] == segments[i + 1..];
        match args
        case Err(e) => return Err(e);
        case Ok(tokens) =>
          if |tokens| == 0 {
            return Err(ScanError.EmptyStage);
          }
          if TokensOfAll(segments[i + 1..]).Ok? {
            ghost var rest := TokensOfAll(segments[i + 1..]).value;
            assert commands + ([tokens] + rest) == (commands + [tokens]) + rest;
          }
          commands := commands + [tokens];
      }
      assert commands + [] == commands;
      return Ok(commands);
  }

  lemma {:induction false} TokensOfAllIs(segments: seq<string>, commands: seq<seq<string>>)
    ensures TokensOfAll(segments) == Ok(commands) <==>
            |commands| == |segments| &&
            forall i | 0 <= i < |segments| :: Tokens(segments[i]) == Ok(commands[i]) && |commands[i]| > 0
  {
    if |segments| != 0 {
      if |commands| != 0 {
        TokensOfAllIs(segments[1..], commands[1..]);
        assert commands == [commands[0]] + commands[1..];
        assert forall i | 1 <= i < |segments| :: segments[i] == segments[1..][i - 1];
        assert |commands| == |segments| ==> forall i | 1 <= i < |segments| :: commands[i] == commands[1..][i - 1];
      }
      match TokensOfAll(segments[1..])
      case Err(_) =>
      case Ok(rest) =>
        if TokensOfAll(segments).Ok? {
          var all := TokensOfAll(segments).value;
          assert all[1..] == rest;
        }
    }
  }

  /* ----- Printing a pipeline and parsing it again ----- */

  /** An argument that is printed without quotes and begins with white space other than space, tab, LF and CR. */
  predicate StartsExposed(arg: string) {
    arg != "" && !NeedsShellQuote(arg) && IsSpace(arg[0])
  }

  predicate EndsExposed(arg: string) {
    arg != "" && !NeedsShellQuote(arg) && IsSpace(arg[|arg| - 1])
  }

  predicate Survives(command: seq<string>) {
    && |command| > 0
    && (forall i | 0 <= i < |command| :: command[i] != "")
    && !StartsExposed(command[0])
    && !EndsExposed(command[|command| - 1])
  }

  function EmittedCount(m: Mode, s: string): nat
    decreases s
  {
    if s == "" then 0 else (if Emits(m, s[0]) then 1 else 0) + EmittedCount(Advance(m, s[0]), s[1..])
  }

  lemma {:induction false} EmittedCountConcat(m: Mode, a: string, b: string)
    ensures EmittedCount(m, a + b) == EmittedCount(m, a) + EmittedCount(AdvanceAll(m, a), b)
    decreases a
  {
    if a == "" {
      assert a + b == b;
    } else {
      assert (a + b)[1..] == a[1..] + b;
      EmittedCountConcat(Advance(m, a[0]), a[1..], b);
    }
  }

  function TotalLength(args: seq<string>): nat {
    if |args| == 0 then 0 else TotalLength(args[..|args| - 1]) + |args[|args| - 1]|
  }

  lemma TotalLengthPushed(current: string, args: seq<string>)
    ensures TotalLength(Pushed(current, args)) == TotalLength(args) + |current|
  {
    assert (args + [current])[..|args|] == args;
  }

  /** Every character the automaton emits ends up in exactly one token. */
  lemma {:induction false} TokensLength(st: Scan, s: string)
    ensures var end := TokenRun(st, s);
            TotalLength(end.args) + |end.current| == TotalLength(st.args) + |st.current| + EmittedCount(st.mode, s)
    decreases s
  {
    if s != "" {
      TotalLengthPushed(st.current, st.args);
      TokensLength(TokenStep(st, s[0]), s[1..]);
    }
  }

  lemma AcceptedLength(s: string)
    requires Tokens(s).Ok?
    ensures TotalLength(Tokens(s).value) == EmittedCount(PLAIN, s)
  {
    TokensLength(START, s);
    var end := TokenRun(START, s);
    TotalLengthPushed(end.current, end.args);
  }

  lemma TrimCuts(s: string) returns (a: string, b: string)
    ensures s == a + Trim(s) + b
    ensures AllSpaces(a) && AllSpaces(b)
    ensures Trim(s) != "" ==> !IsSpace(Trim(s)[0]) && !IsSpace(Trim(s)[|Trim(s)| - 1])
  {
    a := TrimLeftCuts(s);
    b := TrimRightCuts(TrimLeft(s));
    assert Trim(s) != "" ==> Trim(s)[0] == TrimLeft(s)[0];
  }

  lemma EmittedCountCuts(a: string, t: string, b: string)
    requires AllSpaces(a)
    ensures EmittedCount(PLAIN, a + t + b) ==
            EmittedCount(PLAIN, a) + EmittedCount(PLAIN, t) + EmittedCount(AdvanceAll(PLAIN, t), b)
  {
    var tb := t + b;
    SpacesKeepPlain(a);
    EmittedCountConcat(PLAIN, a, tb);
    EmittedCountConcat(PLAIN, t, b);
    Associates(a, t, b);
  }

  lemma Associates(a: string, b: string, c: string)
    ensures a + b + c == a + (b + c)
  {
  }

  lemma LastEmitted(m: Mode, b: string)
    requires b != "" && IsSpace(b[|b| - 1]) && !IsBlank(b[|b| - 1])
    ensures EmittedCount(m, b) >= 1
  {
    var c := b[|b| - 1];
    assert b == b[..|b| - 1] + [c];
    EmittedCountConcat(m, b[..|b| - 1], [c]);
  }

  /** White space beyond space, tab, LF and CR always belongs to a token, so trimming it loses text. */
  lemma TrimmingLosesText(s: string)
    requires s != ""
    requires IsSpace(s[0]) ==> !IsBlank(s[0])
    requires IsSpace(s[|s| - 1]) ==> !IsBlank(s[|s| - 1])
    requires Trim(s) != s
    ensures EmittedCount(PLAIN, Trim(s)) < EmittedCount(PLAIN, s)
  {
    var a, b := TrimCuts(s);
    EmittedCountCuts(a, Trim(s), b);
    if a != "" {
      assert s[0] == a[0];
      assert EmittedCount(PLAIN, a) >= 1;
    } else {
      assert b != "";
      assert s[|s| - 1] == b[|b| - 1];
      LastEmitted(AdvanceAll(PLAIN, Trim(s)), b);
    }
  }

  lemma {:induction false} JoinedEnds(parts: seq<string>, sep: string)
    requires |parts| > 0 && NoneEmpty(parts)
    ensures var s := Joined(parts, sep);
            var last := parts[|parts| - 1];
            s != "" && s[0] == parts[0][0] && s[|s| - 1] == last[|last| - 1]
  {
    if |parts| > 1 {
      var rest := parts[1..];
      assert rest[|rest| - 1] == parts[|parts| - 1];
      assert forall i | 0 <= i < |rest| :: rest[i] == parts[i + 1];
      JoinedEnds(rest, sep);
    }
  }

  lemma PrintedEnds(command: seq<string>)
    requires |command| > 0
    ensures Printed(command) != ""
    ensures Printed(command)[0] == ShellQuoteArg(command[0])[0]
    ensures var last := ShellQuoteArg(command[|command| - 1]);
            Printed(command)[|Printed(command)| - 1] == last[|last| - 1]
  {
    JoinedEnds(QuotedAll(command), " ");
  }

  lemma PrintedExposure(command: seq<string>)
    requires |command| > 0 && NoneEmpty(command)
    ensures var p := Printed(command);
            && p != ""
            && (IsSpace(p[0]) <==> StartsExposed(command[0]))
            && (IsSpace(p[|p| - 1]) <==> EndsExposed(command[|command| - 1]))
            && (IsSpace(p[0]) ==> !IsBlank(p[0]))
            && (IsSpace(p[|p| - 1]) ==> !IsBlank(p[|p| - 1]))
  {
    PrintedEnds(command);
    UnquotedHasNoBlank(command[0]);
    UnquotedHasNoBlank(command[|command| - 1]);
  }

  lemma UnquotedHasNoBlank(arg: string)
    requires arg != ""
    ensures !NeedsShellQuote(arg) ==> !IsBlank(arg[0]) && !IsBlank(arg[|arg| - 1])
  {
    assert IsBlank(arg[0]) ==> IsShellSpecial(arg[0]);
    assert IsBlank(arg[|arg| - 1]) ==> IsShellSpecial(arg[|arg| - 1]);
  }

  /** The fate of one stage: the padded printed command comes back exactly when the command survives. */
  lemma StageComesBack(command: seq<string>)
    ensures Tokens(Trim(Printed(command))) == Ok(command) && |command| > 0 <==> Survives(command)
  {
    var p := Printed(command);
    PrintThenTokenize(command);
    NonEmptyArgsFixed(command);
    TrimFixed(p);
    if |command| > 0 && NoneEmpty(command) {
      PrintedExposure(command);
      if Trim(p) != p {
        TrimmingLosesText(p);
        AcceptedLength(p);
        if Tokens(Trim(p)).Ok? {
          AcceptedLength(Trim(p));
        }
      }
    } else if |command| > 0 && Tokens(Trim(p)).Ok? {
      TokensNoneEmpty(Trim(p));
    }
  }

  /** Printed commands never hold a bar outside quotes, so the splitter does not cut them. */
  lemma {:induction false} PrintedHasNoPlainBar(command: seq<string>)
    ensures NoPlainBar(Printed(command)) && AdvanceAll(PLAIN, Printed(command)) == PLAIN
  {
    if |command| > 0 {
      var q := ShellQuoteArg(command[0]);
      QuotedArgHasNoPlainBar(command[0]);
      if |command| > 1 {
        PrintedHasNoPlainBar(command[1..]);
        assert QuotedAll(command)[1..] == QuotedAll(command[1..]);
        var rest := Printed(command[1..]);
        assert Printed(command) == q + (" " + rest);
        SpaceKeepsNoPlainBar(rest);
        NoBarConcat(PLAIN, q, " " + rest);
        AdvanceAllConcat(PLAIN, q, " " + rest);
      }
    }
  }

  lemma SpaceKeepsNoPlainBar(t: string)
    requires NoPlainBar(t)
    ensures NoPlainBar(" " + t)
    ensures AdvanceAll(PLAIN, " " + t) == AdvanceAll(PLAIN, t)
  {
    assert AdvanceAll(PLAIN, " ") == PLAIN by {
      assert " "[1..] == "";
    }
    assert NoPlainBar(" ");
    NoBarConcat(PLAIN, " ", t);
    AdvanceAllConcat(PLAIN, " ", t);
  }

  lemma QuotedArgHasNoPlainBar(arg: string)
    ensures NoPlainBar(ShellQuoteArg(arg)) && AdvanceAll(PLAIN, ShellQuoteArg(arg)) == PLAIN
  {
    ScanQuotedArg(arg, []);
    var q := ShellQuoteArg(arg);
    TokenRunMode(Scan(PLAIN, "", []), q);
    if arg != "" && NeedsShellQuote(arg) {
      QuotedBodyHasNoBar(arg);
      assert AdvanceAll(PLAIN, "'") == PLAIN.(inSingle := true) by {
        assert "'"[1..] == "";
      }
      NoBarConcat(PLAIN, "'", EscapeSingleQuotes(arg) + "'");
      assert q == "'" + (EscapeSingleQuotes(arg) + "'");
    } else if arg != "" {
      PlainTextHasNoBar(arg);
    }
  }

  lemma PlainTextHasNoBar(arg: string)
    requires !NeedsShellQuote(arg)
    ensures NoPlainBar(arg)
  {
    assert forall i | 0 <= i < |arg| :: !IsShellSpecial(arg[i]);
    NoBarWithoutBars(PLAIN, arg);
  }

  lemma {:induction false} NoBarWithoutBars(m: Mode, t: string)
    requires forall i | 0 <= i < |t| :: t[i] != '|'
    ensures NoBarFrom(m, t)
    decreases t
  {
    if t != "" {
      NoBarWithoutBars(Advance(m, t[0]), t[1..]);
    }
  }

  /** Inside the quotes the printer opens, a bar is never met in the plain mode. */
  lemma {:induction false} QuotedBodyHasNoBar(arg: string)
    ensures NoBarFrom(PLAIN.(inSingle := true), EscapeSingleQuotes(arg) + "'")
  {
    var quoted := PLAIN.(inSingle := true);
    if arg == "" {
      assert EscapeSingleQuotes(arg) + "'" == "'";
    } else {
      var head := if arg[0] == '\'' then "'\"'\"'" else [arg[0]];
      var rest := EscapeSingleQuotes(arg[1..]) + "'";
      assert EscapeSingleQuotes(arg) + "'" == head + rest;
      QuotedBodyHasNoBar(arg[1..]);
      ScanHead(Scan(quoted, "", []), arg[0]);
      TokenRunMode(Scan(quoted, "", []), head);
      if arg[0] == '\'' {
        NoBarWithoutBars(quoted, head);
      }
      NoBarConcat(quoted, head, rest);
    }
  }

  /** The printed stages with the blanks that the separator ` | ` puts around them. */
  function Padded(commands: seq<seq<string>>, first: bool): seq<string> {
    seq(|commands|, i requires 0 <= i < |commands| =>
      (if first && i == 0 then "" else " ") + Printed(commands[i]) + (if i == |commands| - 1 then "" else " "))
  }

  lemma {:induction false} PrintedIsPadded(commands: seq<seq<string>>, first: bool)
    requires |commands| > 0
    ensures (if first then "" else " ") + PrintedPipeline(commands) == Joined(Padded(commands, first), "|")
  {
    var lead := if first then "" else " ";
    var padded := Padded(commands, first);
    assert padded[1..] == Padded(commands[1..], false);
    if |commands| == 1 {
      assert lead + Printed(commands[0]) + "" == lead + Printed(commands[0]);
    } else {
      PrintedIsPadded(commands[1..], false);
      var all := PrintedAll(commands);
      assert all[1..] == PrintedAll(commands[1..]);
      var rest := PrintedPipeline(commands[1..]);
      assert PrintedPipeline(commands) == Printed(commands[0]) + " | " + rest;
      Regroup(lead, Printed(commands[0]), rest);
      assert padded[0] == lead + Printed(commands[0]) + " ";
    }
  }

  lemma Regroup(lead: string, p: string, rest: string)
    ensures lead + (p + " | " + rest) == (lead + p + " ") + "|" + (" " + rest)
  {
  }

  lemma PaddedText(a: string, p: string, b: string)
    requires a in {"", " "} && b in {"", " "}
    requires NoPlainBar(p) && AdvanceAll(PLAIN, p) == PLAIN
    ensures var s := a + p + b;
            NoPlainBar(s) && AdvanceAll(PLAIN, s) == PLAIN && Trim(s) == Trim(p)
  {
    TrimPadded(a, p, b);
    assert "" + p == p;
    SpaceKeepsNoPlainBar(p);
    assert AdvanceAll(PLAIN, b) == PLAIN by {
      assert " "[1..] == "";
    }
    NoBarConcat(PLAIN, a + p, b);
    AdvanceAllConcat(PLAIN, a + p, b);
  }

  lemma PaddedStage(commands: seq<seq<string>>, i: nat)
    requires i < |commands|
    ensures var s := Padded(commands, true)[i];
            NoPlainBar(s) && AdvanceAll(PLAIN, s) == PLAIN && Trim(s) == Trim(Printed(commands[i]))
  {
    PrintedHasNoPlainBar(commands[i]);
    PaddedText(if i == 0 then "" else " ", Printed(commands[i]), if i == |commands| - 1 then "" else " ");
  }

  lemma PaddedIsProperCut(commands: seq<seq<string>>)
    requires |commands| > 0
    ensures ProperCut(Padded(commands, true))
    ensures forall i | 0 <= i < |commands| :: AdvanceAll(PLAIN, Padded(commands, true)[i]) == PLAIN
  {
    forall i | 0 <= i < |commands|
      ensures NoPlainBar(Padded(commands, true)[i]) && AdvanceAll(PLAIN, Padded(commands, true)[i]) == PLAIN
    {
      PaddedStage(commands, i);
    }
  }

  lemma {:induction false} JoinedMode(parts: seq<string>)
    requires |parts| >= 1
    requires forall i | 0 <= i < |parts| :: AdvanceAll(PLAIN, parts[i]) == PLAIN
    ensures AdvanceAll(PLAIN, Joined(parts, "|")) == PLAIN
  {
    if |parts| > 1 {
      var rest := Joined(parts[1..], "|");
      assert forall i | 0 <= i < |parts[1..]| :: parts[1..][i] == parts[i + 1];
      JoinedMode(parts[1..]);
      assert Joined(parts, "|") == parts[0] + ("|" + rest);
      AdvanceAllConcat(PLAIN, parts[0], "|" + rest);
      assert ("|" + rest)[1..] == rest;
    }
  }

  lemma PaddedIsStages(commands: seq<seq<string>>)
    requires |commands| > 0
    ensures Stages(PrintedPipeline(commands)) == Padded(commands, true)
    ensures AdvanceAll(PLAIN, PrintedPipeline(commands)) == PLAIN
  {
    PrintedIsPadded(commands, true);
    var line := PrintedPipeline(commands);
    assert "" + line == line;
    PaddedIsProperCut(commands);
    StagesOfCut(Padded(commands, true));
    JoinedMode(Padded(commands, true));
  }

  lemma SegmentsOfBalanced(s: string)
    requires AdvanceAll(PLAIN, s) == PLAIN
    ensures Segments(s) == if SomeBlank(Stages(s)) then Err(ScanError.EmptyStage) else Ok(TrimAll(Stages(s)))
  {
    var stages := Stages(s);
    var last := |stages| - 1;
    assert stages == stages[..last] + [stages[last]];
    SomeBlankSnoc(stages[..last], stages[last]);
  }

  lemma SomeBlankSnoc(parts: seq<string>, last: string)
    ensures SomeBlank(parts + [last]) <==> SomeBlank(parts) || Trim(last) == ""
  {
    var all := parts + [last];
    if SomeBlank(parts) {
      var i :| 0 <= i < |parts| && Trim(parts[i]) == "";
      assert all[i] == parts[i];
    }
    assert all[|parts|] == last;
    assert forall i | 0 <= i < |parts| :: all[i] == parts[i];
  }

  /** Printing a pipeline and parsing it gives the pipeline back exactly when there is a stage and every stage
      has arguments, none of them empty, with no exposed white space at either end. */
  lemma PrintThenParsePipeline(commands: seq<seq<string>>)
    ensures ParsedPipeline(PrintedPipeline(commands)) == Ok(commands) <==>
            |commands| > 0 && forall i | 0 <= i < |commands| :: Survives(commands[i])
  {
    if |commands| > 0 {
      var stages := Padded(commands, true);
      PaddedIsStages(commands);
      SegmentsOfBalanced(PrintedPipeline(commands));
      forall i | 0 <= i < |commands|
        ensures Tokens(Trim(stages[i])) == Ok(commands[i]) && |commands[i]| > 0 <==> Survives(commands[i])
      {
        PaddedStage(commands, i);
        StageComesBack(commands[i]);
      }
      if SomeBlank(stages) {
        var i :| 0 <= i < |stages| && Trim(stages[i]) == "";
        BlankStageIsLost(stages[i], commands[i]);
      } else {
        StagesThatSurvive(TrimAll(stages), commands);
      }
    }
  }

  lemma BlankStageIsLost(stage: string, command: seq<string>)
    requires Trim(stage) == ""
    requires Tokens(Trim(stage)) == Ok(command) && |command| > 0 <==> Survives(command)
    ensures !Survives(command)
  {
    assert Tokens("") == Ok([]);
  }

  lemma StagesThatSurvive(segments: seq<string>, commands: seq<seq<string>>)
    requires |segments| == |commands|
    requires forall i | 0 <= i < |commands| ::
               Tokens(segments[i]) == Ok(commands[i]) && |commands[i]| > 0 <==> Survives(commands[i])
    ensures TokensOfAll(segments) == Ok(commands) <==> forall i | 0 <= i < |commands| :: Survives(commands[i])
  {
    TokensOfAllIs(segments, commands);
  }

  /** An argument list that came out of the tokenizer holds no empty argument, so a restored monitor can only
      be changed by exposed white space at the ends of a stage. */
  lemma ReparsedPipeline(line: string)
    requires ParsedPipeline(line).Ok?
    ensures var commands := ParsedPipeline(line).value;
            ParsedPipeline(PrintedPipeline(commands)) == Ok(commands) <==>
            forall i | 0 <= i < |commands| ::
              |commands[i]| > 0 && !StartsExposed(commands[i][0]) && !EndsExposed(commands[i][|commands[i]| - 1])
  {
    var segments := Segments(line).value;
    var commands := ParsedPipeline(line).value;
    TokensOfAllIs(segments, commands);
    forall i | 0 <= i < |commands|
      ensures NoneEmpty(commands[i])
    {
      TokensNoneEmpty(segments[i]);
    }
    PrintThenParsePipeline(commands);
  }

  /** A pipeline that does not survive: a vertical tab typed in quotes is printed bare and then trimmed away. */
  lemma ExposedVerticalTabIsLost()
    ensures ParsedPipeline(PrintedPipeline([["echo", "x\U{0B}"]])) != Ok([["echo", "x\U{0B}"]])
  {
    var arg := "x\U{0B}";
    assert !NeedsShellQuote(arg) by {
      assert forall i | 0 <= i < |arg| :: arg[i] == 'x' || arg[i] == '\U{0B}';
    }
    assert EndsExposed(arg);
    var commands := [["echo", arg]];
    assert !Survives(commands[0]);
    PrintThenParsePipeline(commands);
  }
}
