/** What a pipeline means, without its splitter: a cutting at the bars outside quotes and escapes, each stage written of
    its words (internal/service/daemon_command.go). */
module PipelineGrammar {
  import opened Text
  import opened CommandLine
  import opened Grammar
  import opened Pipeline
  import T = TaskCommand

  /** The line is joined from these parts by bars, and no part has a bar outside quotes and escapes. */
  ghost predicate CutAs(line: string, parts: seq<string>) {
    ProperCut(parts) && Joined(parts, "|") == line
  }

  /** What the splitter answers, for the one proper cutting of a line and the way in which it is written: a blank stage
      before a bar is reported first, then how the line breaks off, then a blank last stage; else the stages come back
      trimmed. */
  lemma SplitterIsExact(line: string, parts: seq<string>, ps: seq<Piece>, tail: Tail)
    requires CutAs(line, parts) && WrittenAs(line, ps, tail)
    ensures Segments(line) ==
            if exists i :: 0 <= i < |parts| - 1 && Trim(parts[i]) == "" then Err(ScanError.EmptyStage)
            else if tail.Backslash? || (tail.OpenDouble? && tail.backslash) then Err(UnfinishedEscape)
            else if tail != Done then Err(UnclosedQuote)
            else if Trim(parts[|parts| - 1]) == "" then Err(ScanError.EmptyStage)
            else Ok(TrimAll(parts))
  {
    StagesAreTheProperCut(line, parts);
    TokensAccepts(line);
    WrittenLineIsRead(line, ps, tail);
    SomeBlankInFront(parts);
  }

  lemma SomeBlankInFront(parts: seq<string>)
    requires |parts| > 0
    ensures SomeBlank(parts[..|parts| - 1]) <==> exists i :: 0 <= i < |parts| - 1 && Trim(parts[i]) == ""
  {
    var front := parts[..|parts| - 1];
    if i :| 0 <= i < |parts| - 1 && Trim(parts[i]) == "" {
      assert front[i] == parts[i];
    }
  }

  /** The trimmed part is written of the words of the command. */
  ghost predicate StageOf(part: string, command: seq<string>) {
    |command| > 0 && exists ps :: WrittenAs(Trim(part), ps, Done) && Words(ps) == command
  }

  lemma StageIsExact(part: string, command: seq<string>)
    ensures StageOf(part, command) <==> Tokens(Trim(part)) == Ok(command) && |command| > 0
  {
    ScannerIsExact(Trim(part), command);
  }

  lemma StageIsNotBlank(part: string, command: seq<string>)
    requires StageOf(part, command)
    ensures Trim(part) != ""
  {
    StageIsExact(part, command);
    assert Tokens("") == Ok([]);
  }

  /** The line is finished, and cut into one stage for each command. */
  ghost predicate PipelineOf(line: string, parts: seq<string>, commands: seq<seq<string>>) {
    && CutAs(line, parts) && (exists ps :: WrittenAs(line, ps, Done))
    && |parts| == |commands| && forall i | 0 <= i < |parts| :: StageOf(parts[i], commands[i])
  }

  lemma PipelineIsRead(line: string, parts: seq<string>, commands: seq<seq<string>>)
    requires PipelineOf(line, parts, commands)
    ensures ParsedPipeline(line) == Ok(commands)
  {
    var ps :| WrittenAs(line, ps, Done);
    forall i | 0 <= i < |parts|
      ensures Trim(parts[i]) != "" && Tokens(Trim(parts[i])) == Ok(commands[i]) && |commands[i]| > 0
    {
      StageIsNotBlank(parts[i], commands[i]);
      StageIsExact(parts[i], commands[i]);
    }
    SplitterIsExact(line, parts, ps, Done);
    TokensOfAllIs(TrimAll(parts), commands);
  }

  lemma ParsedIsWritten(line: string, commands: seq<seq<string>>)
    requires ParsedPipeline(line) == Ok(commands)
    ensures PipelineOf(line, Stages(line), commands)
  {
    var parts := Stages(line);
    StagesAreTheProperCut(line, parts);
    var ps, tail := TakeLine(line);
    SplitterIsExact(line, parts, ps, tail);
    assert tail == Done;
    assert WrittenAs(line, ps, Done);
    TokensOfAllIs(TrimAll(parts), commands);
    forall i | 0 <= i < |parts|
      ensures StageOf(parts[i], commands[i])
    {
      assert TrimAll(parts)[i] == Trim(parts[i]);
      StageIsExact(parts[i], commands[i]);
    }
  }

  /** The parser is exact: it returns commands exactly when the line is a pipeline of them. */
  lemma ParserIsExact(line: string, commands: seq<seq<string>>)
    ensures ParsedPipeline(line) == Ok(commands) <==> exists parts :: PipelineOf(line, parts, commands)
  {
    if ParsedPipeline(line) == Ok(commands) {
      ParsedIsWritten(line, commands);
    }
    if parts :| PipelineOf(line, parts, commands) {
      PipelineIsRead(line, parts, commands);
    }
  }

  /** The words that no stage of a task may begin with. */
  predicate ControlsDaemon(word: string) {
    word == "exit" || word == "quit" || word == "daemon" || word == "d" || word == "task"
  }

  ghost predicate HarmlessPipeline(line: string, commands: seq<seq<string>>) {
    && (exists parts :: PipelineOf(line, parts, commands))
    && forall i | 0 <= i < |commands| :: |commands[i]| > 0 && !ControlsDaemon(FoldKey(commands[i][0]))
  }

  /** A task can have a line exactly when it is a trimmed pipeline none of whose stages begins with such a word. */
  lemma TaskLineIsExact(line: string)
    ensures T.TaskLine(line) <==> Trim(line) == line && exists commands :: HarmlessPipeline(line, commands)
  {
    if ParsedPipeline(line).Ok? {
      var commands := ParsedPipeline(line).value;
      ParserIsExact(line, commands);
      HarmlessMeansAllowed(commands);
      EmptyIsNoPipeline(line);
      assert T.AllowedCommands(commands) <==> HarmlessPipeline(line, commands);
    }
    forall commands | HarmlessPipeline(line, commands)
      ensures ParsedPipeline(line) == Ok(commands)
    {
      ParserIsExact(line, commands);
    }
  }

  lemma HarmlessMeansAllowed(commands: seq<seq<string>>)
    ensures T.AllowedCommands(commands) <==>
            forall i | 0 <= i < |commands| :: |commands[i]| > 0 && !ControlsDaemon(FoldKey(commands[i][0]))
  {
    forall i | 0 <= i < |commands| && |commands[i]| > 0
      ensures T.ForbiddenFirst(FoldKey(commands[i][0])) <==> ControlsDaemon(FoldKey(commands[i][0]))
    {
    }
  }

  lemma EmptyIsNoPipeline(line: string)
    requires ParsedPipeline(line).Ok?
    ensures line != ""
  {
    assert Stages("") == [""];
  }
}
