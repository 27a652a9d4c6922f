/** Length-prefixed frames on a byte stream (internal/service/booking_mcp_command.go, `readMCPFrame`,
    `writeMCPResponse` and the loop of `serve`).  A byte is a character; header lines are ASCII. */
module McpFrames {
  import opened Text

  const HEADER_LINE_LIMIT := 8 * 1024

  datatype FrameError = LineTooLong | BadLength | MissingLength | CutInsideBody

  datatype ReadResult =
    | Frame(body: string, rest: string)
    | EndOfInput
    | Failed(error: FrameError)

  /** The position just after the first line feed, or 0 if there is none. */
  function LineEnd(s: string): (n: nat)
    ensures n <= |s|
  {
    if s == "" then 0
    else if s[0] == '\n' then 1
    else
      var n := LineEnd(s[1..]);
      if n == 0 then 0 else n + 1
  }

  /** Without the carriage returns and line feeds at the end. */
  function StripEol(line: string): string {
    if line != "" && (line[|line| - 1] == '\r' || line[|line| - 1] == '\n') then StripEol(line[..|line| - 1]) else line
  }

  /** The position of the first colon, or -1. */
  function ColonAt(line: string): (i: int)
    ensures -1 <= i < |line|
    ensures i >= 0 ==> line[i] == ':'
  {
    if line == "" then -1
    else if line[0] == ':' then 0
    else
      var i := ColonAt(line[1..]);
      if i < 0 then -1 else i + 1
  }

  predicate IsLengthHeader(line: string) {
    ColonAt(line) >= 0 && FoldKey(line[..ColonAt(line)]) == "content-length"
  }

  function HeaderValue(line: string): string
    requires ColonAt(line) >= 0
  {
    Trim(line[ColonAt(line) + 1..])
  }

  function ReadBody(s: string, contentLength: int): ReadResult {
    if contentLength < 0 then Failed(MissingLength)
    else if contentLength <= |s| then Frame(s[..contentLength], s[contentLength..])
    else if s == "" then EndOfInput
    else Failed(CutInsideBody)
  }

  /** Reading on with the length found so far, -1 for none.  A stream that ends in the middle of the header
      is an ordinary end. */
  function ReadFrom(s: string, contentLength: int): (r: ReadResult)
    decreases |s|
  {
    var n := LineEnd(s);
    var line := StripEol(s[..n]);
    if n == 0 then EndOfInput
    else if n > HEADER_LINE_LIMIT then Failed(LineTooLong)
    else if Trim(line) == "" then ReadBody(s[n..], contentLength)
    else if !IsLengthHeader(line) then ReadFrom(s[n..], contentLength)
    else
      match ParseInt(HeaderValue(line))
      case None => Failed(BadLength)
      case Some(length) => if length < 0 then Failed(BadLength) else ReadFrom(s[n..], length)
  }

  function ReadFrame(s: string): ReadResult {
    ReadFrom(s, -1)
  }

  lemma {:induction false} ReadShortens(s: string, contentLength: int)
    ensures ReadFrom(s, contentLength).Frame? ==>
              |ReadFrom(s, contentLength).rest| < |s|
    decreases |s|
  {
    var n := LineEnd(s);
    var line := StripEol(s[..n]);
    if n != 0 && n <= HEADER_LINE_LIMIT && Trim(line) != "" {
      if !IsLengthHeader(line) {
        ReadShortens(s[n..], contentLength);
      } else {
        match ParseInt(HeaderValue(line))
        case None =>
        case Some(length) => ReadShortens(s[n..], length);
      }
    }
  }

  /* ----- The reader ----- */

  class FrameReader {
    var input: string

    constructor (input: string)
      ensures this.input == input
    {
      this.input := input;
    }

    /** Up to and including the next line feed; nothing if there is none any more. */
    method ReadLine() returns (line: string)
      modifies this
      ensures line == old(input)[..LineEnd(old(input))]
      ensures input == if line == "" then "" else old(input)[LineEnd(old(input))..]
    {
      var n := 0;
      while n < |input| && input[n] != '\n'
        invariant n <= |input| && input == old(input)
        invariant LineEnd(input) == if LineEnd(input[n..]) == 0 then 0 else n + LineEnd(input[n..])
      {
        n := n + 1;
      }
      if n == |input| {
        line, input := "", "";
      } else {
        assert LineEnd(input[n..]) == 1;
        line, input := input[..n + 1], input[n + 1..];
      }
    }

    method ReadMcpFrame() returns (result: ReadResult)
      modifies this
      ensures result == ReadFrame(old(input))
      ensures result.Frame? ==> input == result.rest
    {
      var contentLength := -1;
      while true
        invariant ReadFrom(input, contentLength) == ReadFrame(old(input))
        decreases |input|
      {
        var line := ReadLine();
        if line == "" {
          return EndOfInput;
        }
        if |line| > HEADER_LINE_LIMIT {
          return Failed(LineTooLong);
        }
        var trimmedLine := StripEol(line);
        if Trim(trimmedLine) == "" {
          break;
        }
        var colon := ColonAt(trimmedLine);
        if colon < 0 {
          continue;
        }
        if FoldKey(trimmedLine[..colon]) != "content-length" {
          continue;
        }
        var length := ParseInt(Trim(trimmedLine[colon + 1..]));
        if length.None? || length.value < 0 {
          return Failed(BadLength);
        }
        contentLength := length.value;
      }
      if contentLength < 0 {
        return Failed(MissingLength);
      }
      if |input| < contentLength {
        return if input == "" then EndOfInput else Failed(CutInsideBody);
      }
      result := Frame(input[..contentLength], input[contentLength..]);
      input := input[contentLength..];
    }
  }

  /* ----- The writer and the loop of the server ----- */

  function LengthLine(n: nat): string {
    "Content-Length: " + Decimal(n)
  }

  function FrameHeader(n: nat): string {
    LengthLine(n) + "\r\n" + "\r\n"
  }

  function WriteFrame(body: string): string {
    FrameHeader(|body|) + body
  }

  function WriteAll(bodies: seq<string>): string {
    if |bodies| == 0 then "" else WriteFrame(bodies[0]) + WriteAll(bodies[1..])
  }

  datatype Served = Served(frames: seq<string>, error: Option<FrameError>)

  /** The frames that are handled, in order, and how the stream ends. Blank frames are passed over. */
  function Serve(s: string): Served
    decreases |s|
  {
    match ReadFrame(s)
    case EndOfInput => Served([], None)
    case Failed(e) => Served([], Some(e))
    case Frame(body, rest) =>
      ReadShortens(s, -1);
      var later := Serve(rest);
      if Trim(body) == "" then later else Served([body] + later.frames, later.error)
  }

  method ServeFrames(input: string) returns (frames: seq<string>, error: Option<FrameError>)
    ensures Served(frames, error) == Serve(input)
  {
    var reader := new FrameReader(input);
    frames := [];
    while true
      invariant var later := Serve(reader.input);
                Served(frames + later.frames, later.error) == Serve(input)
      decreases |reader.input|
    {
      ReadShortens(reader.input, -1);
      var frame := reader.ReadMcpFrame();
      match frame {
        case EndOfInput =>
          assert frames + [] == frames;
          return frames, None;
        case Failed(e) =>
          assert frames + [] == frames;
          return frames, Some(e);
        case Frame(body, rest) =>
          if Trim(body) == "" {
            continue;
          }
          assert frames + ([body] + Serve(rest).frames) == frames + [body] + Serve(rest).frames;
          frames := frames + [body];
      }
    }
  }

  /* ----- One frame ----- */

  /** A line of the header: no line feed inside, and within the limit once its end is added. */
  predicate HeaderLine(line: string) {
    '\n' !in line && |line| + 2 <= HEADER_LINE_LIMIT
  }

  lemma {:induction false} LineEndOf(line: string, rest: string)
    requires '\n' !in line
    ensures LineEnd(line + "\n" + rest) == |line| + 1
  {
    var s := line + "\n" + rest;
    if line == "" {
      assert s[0] == '\n';
    } else {
      assert s[1..] == line[1..] + "\n" + rest;
      LineEndOf(line[1..], rest);
    }
  }

  lemma {:induction false} NoLineEnd(s: string)
    requires '\n' !in s
    ensures LineEnd(s) == 0
  {
    if s != "" {
      NoLineEnd(s[1..]);
    }
  }

  lemma StripCrLf(line: string)
    ensures StripEol(line + "\r\n") == StripEol(line)
  {
    var s := line + "\r\n";
    assert s[..|s| - 1] == line + "\r";
    assert (line + "\r")[..|line|] == line;
  }

  lemma StripPlain(line: string)
    requires line != "" && line[|line| - 1] != '\r' && line[|line| - 1] != '\n'
    ensures StripEol(line) == line
  {
  }

  /** Reading one header line and going on. */
  lemma ReadLineStep(line: string, rest: string, contentLength: int)
    requires HeaderLine(line)
    ensures var s := line + "\r\n" + rest;
            var text := StripEol(line);
            ReadFrom(s, contentLength) ==
            if Trim(text) == "" then ReadBody(rest, contentLength)
            else if !IsLengthHeader(text) then ReadFrom(rest, contentLength)
            else
              match ParseInt(HeaderValue(text))
              case None => Failed(BadLength)
              case Some(length) => if length < 0 then Failed(BadLength) else ReadFrom(rest, length)
  {
    var s := line + "\r\n" + rest;
    assert s == (line + "\r") + "\n" + rest;
    LineEndOf(line + "\r", rest);
    assert s[..|line| + 2] == line + "\r\n" && s[|line| + 2..] == rest;
    StripCrLf(line);
  }

  /** A header that is not Content-Length does not change what is read, wherever it stands. */
  lemma OtherHeaderIsIgnored(line: string, rest: string, contentLength: int)
    requires HeaderLine(line) && Trim(StripEol(line)) != "" && !IsLengthHeader(StripEol(line))
    ensures ReadFrom(line + "\r\n" + rest, contentLength) == ReadFrom(rest, contentLength)
  {
    ReadLineStep(line, rest, contentLength);
  }

  function HeaderBlock(lines: seq<string>): string {
    if |lines| == 0 then "" else lines[0] + "\r\n" + HeaderBlock(lines[1..])
  }

  predicate OtherHeader(line: string) {
    HeaderLine(line) && Trim(StripEol(line)) != "" && !IsLengthHeader(StripEol(line))
  }

  lemma {:induction false} OtherHeadersAreIgnored(lines: seq<string>, rest: string, contentLength: int)
    requires forall i | 0 <= i < |lines| :: OtherHeader(lines[i])
    ensures ReadFrom(HeaderBlock(lines) + rest, contentLength) == ReadFrom(rest, contentLength)
    decreases |lines|
  {
    if |lines| == 0 {
      assert HeaderBlock(lines) + rest == rest;
    } else {
      var tail := lines[1..];
      assert HeaderBlock(lines) + rest == lines[0] + "\r\n" + (HeaderBlock(tail) + rest);
      OtherHeaderIsIgnored(lines[0], HeaderBlock(tail) + rest, contentLength);
      OtherHeadersAreIgnored(tail, rest, contentLength);
    }
  }

  lemma ColonOfLengthLine(n: nat)
    ensures ColonAt(LengthLine(n)) == 14
  {
    var s := LengthLine(n);
    ColonSkips(s, 14);
    assert s[14..][0] == ':';
  }

  lemma {:induction false} ColonSkips(s: string, k: nat)
    requires k <= |s| && forall i | 0 <= i < k :: s[i] != ':'
    ensures ColonAt(s) == if ColonAt(s[k..]) < 0 then -1 else k + ColonAt(s[k..])
  {
    if k == 0 {
      assert s[0..] == s;
    } else {
      ColonSkips(s[1..], k - 1);
      assert s[1..][k - 1..] == s[k..];
    }
  }

  lemma FoldedTo(s: string, r: string)
    requires |s| == |r| > 0 && !IsSpace(s[0]) && !IsSpace(s[|s| - 1])
    requires forall i | 0 <= i < |s| :: LowerChar(s[i]) == r[i]
    ensures FoldKey(s) == r
  {
    TrimFixed(s);
  }

  lemma LengthName()
    ensures FoldKey("Content-Length") == "content-length"
  {
    FoldedTo("Content-Length", "content-length");
  }

  lemma LengthLineIsHeader(n: nat)
    ensures IsLengthHeader(LengthLine(n))
  {
    ColonOfLengthLine(n);
    LengthName();
    LengthLineName(n);
  }

  lemma LengthLineName(n: nat)
    ensures LengthLine(n)[..14] == "Content-Length"
  {
    var name, digits := "Content-Length", Decimal(n);
    assert "Content-Length: " == name + ": ";
    Beginning(name, ": ", digits);
  }

  lemma Beginning(a: string, b: string, c: string)
    ensures (a + b + c)[..|a|] == a
  {
  }

  lemma LengthLineIsPlain(n: nat)
    ensures '\n' !in LengthLine(n) && StripEol(LengthLine(n)) == LengthLine(n) && Trim(LengthLine(n)) != ""
  {
    var s, d := LengthLine(n), Decimal(n);
    assert s[|s| - 1] == d[|d| - 1];
    StripPlain(s);
    TrimFixed(s);
    forall i | 0 <= i < |s|
      ensures s[i] != '\n'
    {
      assert i >= 16 ==> s[i] == d[i - 16];
    }
  }

  lemma LengthLineValue(n: nat)
    ensures ColonAt(LengthLine(n)) >= 0 && ParseInt(HeaderValue(LengthLine(n))) == Some(n)
  {
    var s, d := LengthLine(n), Decimal(n);
    ColonOfLengthLine(n);
    assert s[15..] == " " + d + "";
    TrimFixed(d);
    TrimPadded(" ", d, "");
    ParseIntOfDecimal(n);
  }

  lemma LengthLineIsRead(n: nat)
    ensures '\n' !in LengthLine(n) && StripEol(LengthLine(n)) == LengthLine(n) && Trim(LengthLine(n)) != ""
    ensures IsLengthHeader(LengthLine(n)) && ParseInt(HeaderValue(LengthLine(n))) == Some(n)
  {
    LengthLineIsPlain(n);
    LengthLineIsHeader(n);
    LengthLineValue(n);
  }

  /** The length's digits fit into a header line, as they do for any length below ten to the 8000. */
  predicate Writable(body: string) {
    |Decimal(|body|)| <= 8000
  }

  lemma HeaderEndIsRead(body: string, rest: string)
    ensures ReadFrom("\r\n" + body + rest, |body|) == Frame(body, rest)
  {
    var s := "\r\n" + body + rest;
    assert s == "" + "\r\n" + (body + rest);
    ReadLineStep("", body + rest, |body|);
    assert Trim(StripEol("")) == "";
    assert (body + rest)[..|body|] == body && (body + rest)[|body|..] == rest;
  }

  lemma LengthIsRead(n: nat, rest: string, contentLength: int)
    requires |Decimal(n)| <= 8000
    ensures ReadFrom(LengthLine(n) + "\r\n" + rest, contentLength) == ReadFrom(rest, n)
  {
    LengthLineIsRead(n);
    ReadLineStep(LengthLine(n), rest, contentLength);
  }

  /** A frame with any other headers before and after its length is read back, and what follows it is
      left exactly as it was. */
  lemma FrameIsRead(before: seq<string>, body: string, after: seq<string>, rest: string)
    requires Writable(body)
    requires forall i | 0 <= i < |before| :: OtherHeader(before[i])
    requires forall i | 0 <= i < |after| :: OtherHeader(after[i])
    ensures ReadFrame(HeaderBlock(before) +
                      (LengthLine(|body|) + "\r\n" + (HeaderBlock(after) + ("\r\n" + body + rest))))
            == Frame(body, rest)
  {
    var tail := "\r\n" + body + rest;
    OtherHeadersAreIgnored(before, LengthLine(|body|) + "\r\n" + (HeaderBlock(after) + tail), -1);
    LengthIsRead(|body|, HeaderBlock(after) + tail, -1);
    OtherHeadersAreIgnored(after, tail, |body|);
    HeaderEndIsRead(body, rest);
  }

  lemma WrittenFrameIsRead(body: string, rest: string)
    requires Writable(body)
    ensures ReadFrame(WriteFrame(body) + rest) == Frame(body, rest)
  {
    LengthIsRead(|body|, "\r\n" + body + rest, -1);
    HeaderEndIsRead(body, rest);
    Regroup(LengthLine(|body|), "\r\n", body, rest);
  }

  lemma Regroup(a: string, eol: string, b: string, rest: string)
    ensures (a + eol + eol) + b + rest == a + eol + (eol + b + rest)
  {
  }

  /* ----- Any header ----- */

  /** A header line that is not blank. */
  predicate TextLine(line: string) {
    HeaderLine(line) && Trim(StripEol(line)) != ""
  }

  predicate IsLengthLine(line: string) {
    IsLengthHeader(StripEol(line))
  }

  /** The length that a line gives: none if it is not a number or is negative. */
  function LengthOf(line: string): Option<nat>
    requires IsLengthLine(line)
  {
    var n := ParseInt(HeaderValue(StripEol(line)));
    if n.Some? && n.value >= 0 then Some(n.value as nat) else None
  }

  predicate IsBadLength(line: string) {
    IsLengthLine(line) && LengthOf(line).None?
  }

  predicate IsGoodLength(line: string, n: nat) {
    IsLengthLine(line) && LengthOf(line) == Some(n)
  }

  /** The length in force after a line. */
  function AfterLine(line: string, contentLength: int): int {
    if IsLengthLine(line) && LengthOf(line).Some? then LengthOf(line).value else contentLength
  }

  function AfterLines(lines: seq<string>, contentLength: int): int {
    if |lines| == 0 then contentLength else AfterLines(lines[1..], AfterLine(lines[0], contentLength))
  }

  ghost predicate Blanks(s: string) {
    forall i | 0 <= i < |s| :: s[i] == ' ' || s[i] == '\t'
  }

  lemma HeaderParts(name: string, value: string)
    requires ':' !in name
    ensures var line := name + ":" + value;
            ColonAt(line) == |name| && line[..|name|] == name && line[|name| + 1..] == value
  {
    var line := name + ":" + value;
    assert forall i | 0 <= i < |name| :: line[i] == name[i];
    ColonSkips(line, |name|);
    assert line[|name|..][0] == ':';
  }

  lemma PaddedNumber(before: string, n: nat, after: string)
    requires Blanks(before) && Blanks(after)
    ensures var value := before + Decimal(n) + after;
            && ParseInt(Trim(value)) == Some(n)
            && value != "" && value[|value| - 1] != '\r' && value[|value| - 1] != '\n'
  {
    TrimPadded(before, Decimal(n), after);
    TrimFixed(Decimal(n));
    ParseIntOfDecimal(n);
  }

  /** A length may be written with its name in any case, and with blanks around name and digits. */
  lemma LengthFormsAreRead(name: string, before: string, n: nat, after: string)
    requires FoldKey(name) == "content-length" && ':' !in name && '\n' !in name
    requires Blanks(before) && Blanks(after)
    ensures IsGoodLength(name + ":" + (before + Decimal(n) + after), n)
  {
    var value := before + Decimal(n) + after;
    PaddedNumber(before, n, after);
    HeaderParts(name, value);
    StripPlain(name + ":" + value);
  }

  lemma TextLineStep(line: string, rest: string, contentLength: int)
    requires TextLine(line)
    ensures ReadFrom(line + "\r\n" + rest, contentLength) ==
            if IsBadLength(line) then Failed(BadLength) else ReadFrom(rest, AfterLine(line, contentLength))
  {
    ReadLineStep(line, rest, contentLength);
  }

  lemma {:induction false} HeadersAreRead(lines: seq<string>, rest: string, contentLength: int)
    requires forall i | 0 <= i < |lines| :: TextLine(lines[i]) && !IsBadLength(lines[i])
    ensures ReadFrom(HeaderBlock(lines) + rest, contentLength) == ReadFrom(rest, AfterLines(lines, contentLength))
    decreases |lines|
  {
    if |lines| == 0 {
      assert HeaderBlock(lines) + rest == rest;
    } else {
      var tail := lines[1..];
      assert HeaderBlock(lines) + rest == lines[0] + "\r\n" + (HeaderBlock(tail) + rest);
      TextLineStep(lines[0], HeaderBlock(tail) + rest, contentLength);
      HeadersAreRead(tail, rest, AfterLine(lines[0], contentLength));
    }
  }

  lemma {:induction false} BadLengthIsRead(lines: seq<string>, k: nat, rest: string, contentLength: int)
    requires forall i | 0 <= i < |lines| :: TextLine(lines[i])
    requires k < |lines| && IsBadLength(lines[k])
    ensures ReadFrom(HeaderBlock(lines) + rest, contentLength) == Failed(BadLength)
    decreases |lines|
  {
    var tail := lines[1..];
    assert HeaderBlock(lines) + rest == lines[0] + "\r\n" + (HeaderBlock(tail) + rest);
    TextLineStep(lines[0], HeaderBlock(tail) + rest, contentLength);
    if !IsBadLength(lines[0]) {
      BadLengthIsRead(tail, k - 1, rest, AfterLine(lines[0], contentLength));
    }
  }

  lemma {:induction false} NoLengthAfter(lines: seq<string>, contentLength: int)
    requires forall i | 0 <= i < |lines| :: !IsLengthLine(lines[i])
    ensures AfterLines(lines, contentLength) == contentLength
    decreases |lines|
  {
    if |lines| > 0 {
      NoLengthAfter(lines[1..], contentLength);
    }
  }

  lemma {:induction false} LastLengthCounts(lines: seq<string>, contentLength: int, k: nat, n: nat)
    requires k < |lines| && IsGoodLength(lines[k], n)
    requires forall i | k < i < |lines| :: !IsLengthLine(lines[i])
    ensures AfterLines(lines, contentLength) == n
    decreases |lines|
  {
    if k == 0 {
      NoLengthAfter(lines[1..], n);
    } else {
      LastLengthCounts(lines[1..], AfterLine(lines[0], contentLength), k - 1, n);
    }
  }

  /** Of several lengths the last one counts; the body is as long as it says, or the stream was cut. */
  lemma LastLengthDecides(lines: seq<string>, k: nat, n: nat, rest: string)
    requires forall i | 0 <= i < |lines| :: TextLine(lines[i]) && !IsBadLength(lines[i])
    requires k < |lines| && IsGoodLength(lines[k], n) && forall i | k < i < |lines| :: !IsLengthLine(lines[i])
    ensures ReadFrame(HeaderBlock(lines) + ("\r\n" + rest)) ==
            if n <= |rest| then Frame(rest[..n], rest[n..])
            else if rest == "" then EndOfInput
            else Failed(CutInsideBody)
  {
    HeadersAreRead(lines, "\r\n" + rest, -1);
    LastLengthCounts(lines, -1, k, n);
    HeaderEndStep(rest, n);
  }

  lemma HeaderEndStep(rest: string, contentLength: int)
    ensures ReadFrom("\r\n" + rest, contentLength) == ReadBody(rest, contentLength)
  {
    assert "\r\n" + rest == "" + "\r\n" + rest;
    ReadLineStep("", rest, contentLength);
    assert Trim(StripEol("")) == "";
  }

  /** A header without a length is refused, and so is one with a length that is no number or is negative, whatever
      other lengths it gives. */
  lemma BadHeadersAreRefused(lines: seq<string>, rest: string)
    requires forall i | 0 <= i < |lines| :: TextLine(lines[i])
    ensures (exists i :: 0 <= i < |lines| && IsBadLength(lines[i])) ==>
              ReadFrame(HeaderBlock(lines) + rest) == Failed(BadLength)
    ensures (forall i | 0 <= i < |lines| :: !IsLengthLine(lines[i])) ==>
              ReadFrame(HeaderBlock(lines) + ("\r\n" + rest)) == Failed(MissingLength)
  {
    if k: nat :| 0 <= k < |lines| && IsBadLength(lines[k]) {
      BadLengthIsRead(lines, k, rest, -1);
    } else if forall i | 0 <= i < |lines| :: !IsLengthLine(lines[i]) {
      HeadersAreRead(lines, "\r\n" + rest, -1);
      NoLengthAfter(lines, -1);
      HeaderEndStep(rest, -1);
    }
  }

  /** A line longer than 8192 bytes, its end included, is refused wherever it stands in the header. */
  lemma LongLineIsRefused(lines: seq<string>, line: string, rest: string)
    requires forall i | 0 <= i < |lines| :: TextLine(lines[i]) && !IsBadLength(lines[i])
    requires '\n' !in line && |line| + 1 > 8192
    ensures ReadFrame(HeaderBlock(lines) + (line + "\n" + rest)) == Failed(LineTooLong)
  {
    HeadersAreRead(lines, line + "\n" + rest, -1);
    LineEndOf(line, rest);
  }

  /* ----- A stream of frames ----- */

  function NonBlankFrames(bodies: seq<string>): seq<string> {
    if |bodies| == 0 then []
    else (if Trim(bodies[0]) == "" then [] else [bodies[0]]) + NonBlankFrames(bodies[1..])
  }

  /** Serving what was written handles every body that is not blank, in order, and then whatever follows. */
  lemma {:induction false} ServeWritten(bodies: seq<string>, rest: string)
    requires forall i | 0 <= i < |bodies| :: Writable(bodies[i])
    ensures Serve(WriteAll(bodies) + rest) == Served(NonBlankFrames(bodies) + Serve(rest).frames, Serve(rest).error)
    decreases |bodies|
  {
    if |bodies| == 0 {
      assert WriteAll(bodies) + rest == rest;
      assert [] + Serve(rest).frames == Serve(rest).frames;
    } else {
      var tail := bodies[1..];
      assert WriteAll(bodies) + rest == WriteFrame(bodies[0]) + (WriteAll(tail) + rest);
      WrittenFrameIsRead(bodies[0], WriteAll(tail) + rest);
      ServeWritten(tail, rest);
      assert [bodies[0]] + (NonBlankFrames(tail) + Serve(rest).frames) ==
             [bodies[0]] + NonBlankFrames(tail) + Serve(rest).frames;
      assert [] + NonBlankFrames(tail) == NonBlankFrames(tail);
    }
  }

  /** Reading the frames written for any bodies gives exactly those bodies and then the end. */
  lemma StreamRoundTrip(bodies: seq<string>)
    requires forall i | 0 <= i < |bodies| :: Writable(bodies[i]) && Trim(bodies[i]) != ""
    ensures Serve(WriteAll(bodies)) == Served(bodies, None)
  {
    var none: string := [];
    ServeWritten(bodies, none);
    NothingToServe(none);
    AppendNothing(WriteAll(bodies));
    AppendNothing(bodies);
    NoneBlank(bodies);
  }

  lemma NothingToServe(s: string)
    requires |s| == 0
    ensures Serve(s) == Served([], None)
  {
  }

  lemma AppendNothing<T>(s: seq<T>)
    ensures s + [] == s
  {
  }

  lemma {:induction false} NoneBlank(bodies: seq<string>)
    requires forall i | 0 <= i < |bodies| :: Trim(bodies[i]) != ""
    ensures NonBlankFrames(bodies) == bodies
  {
    if |bodies| > 0 {
      NoneBlank(bodies[1..]);
    }
  }

  /* ----- A stream that is cut ----- */

  lemma CutFirstLine(n: nat, k: nat)
    requires k < |LengthLine(n)| + 2
    ensures ReadFrame(FrameHeader(n)[..k]) == EndOfInput
  {
    LengthLineIsRead(n);
    assert FrameHeader(n) == LengthLine(n) + "\r\n" + "\r\n";
    NoLineEnd(FrameHeader(n)[..k]);
  }

  lemma CutHeader(n: nat, k: nat)
    requires |Decimal(n)| <= 8000 && k < |FrameHeader(n)|
    ensures ReadFrame(FrameHeader(n)[..k]) == EndOfInput
  {
    var line := LengthLine(n);
    assert FrameHeader(n) == line + "\r\n" + "\r\n";
    if k < |line| + 2 {
      CutFirstLine(n, k);
    } else {
      var more := "\r\n"[..k - |line| - 2];
      assert FrameHeader(n)[..k] == line + "\r\n" + more;
      LengthIsRead(n, more, -1);
      NoLineEnd(more);
    }
  }

  lemma CutBody(body: string, m: nat)
    requires Writable(body) && m < |body|
    ensures ReadFrame(FrameHeader(|body|) + body[..m]) == if m == 0 then EndOfInput else Failed(CutInsideBody)
  {
    var n := |body|;
    var part := body[..m];
    assert FrameHeader(n) + part == LengthLine(n) + "\r\n" + ("" + "\r\n" + part);
    LengthIsRead(n, "" + "\r\n" + part, -1);
    ReadLineStep("", part, n);
    assert Trim(StripEol("")) == "";
  }

  lemma CutFrame(body: string, k: nat)
    requires Writable(body) && k < |WriteFrame(body)|
    ensures ReadFrame(WriteFrame(body)[..k]) == if k > |FrameHeader(|body|)| then Failed(CutInsideBody) else EndOfInput
  {
    var header := FrameHeader(|body|);
    if k < |header| {
      assert WriteFrame(body)[..k] == header[..k];
      CutHeader(|body|, k);
    } else {
      assert WriteFrame(body)[..k] == header + body[..k - |header|];
      CutBody(body, k - |header|);
    }
  }

  /** A stream cut in the middle of a frame is reported only when the cut falls inside the body; a cut in
      the header, or just after it, looks like the ordinary end. */
  lemma CutIsReported(bodies: seq<string>, body: string, k: nat)
    requires (forall i | 0 <= i < |bodies| :: Writable(bodies[i])) && Writable(body)
    requires k < |WriteFrame(body)|
    ensures var served := Serve(WriteAll(bodies) + WriteFrame(body)[..k]);
            && served.frames == NonBlankFrames(bodies)
            && (served.error == if k > |FrameHeader(|body|)| then Some(CutInsideBody) else None)
  {
    var cut := WriteFrame(body)[..k];
    ServeWritten(bodies, cut);
    CutFrame(body, k);
    assert NonBlankFrames(bodies) + [] == NonBlankFrames(bodies);
  }
}
