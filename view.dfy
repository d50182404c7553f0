/**
 * The view tool: shows a window of a file's lines, each prefixed with its
 * 1-based line number. The file is what a line scanner yields: its lines,
 * and the error that stopped the scan early, if any.
 */
module View {

  import opened Text
  import opened Tools

  datatype ViewParams = ViewParams(filePath: string, offset: int, limit: int)

  /** What the scanner yields for an opened file */
  datatype Scan = Scan(lines: seq<string>, err: Option<string>)

  const DefaultLimit := 2000
  const MaxLineLength := 2000
  const EmptyMessage := "(empty file or offset beyond end of file)"

  /** An offset of zero or less starts at the first line */
  function StartLine(offset: int): (r: int)
    ensures r >= 1
    ensures offset >= 1 ==> r == offset
  {
    if offset <= 0 then 1 else offset
  }

  /** A limit of zero or less shows up to 2000 lines */
  function LineLimit(limit: int): (r: int)
    ensures r >= 1
    ensures limit >= 1 ==> r == limit
    ensures limit <= 0 ==> r == DefaultLimit
  {
    if limit <= 0 then DefaultLimit else limit
  }

  /** A line longer than 2000 characters is cut there and marked */
  function ShownLine(line: string): (r: string)
    ensures |line| <= MaxLineLength ==> r == line
    ensures |line| > MaxLineLength ==>
      |r| == MaxLineLength + 15 && r[..MaxLineLength] == line[..MaxLineLength] && r[MaxLineLength..] == "... (truncated)"
    ensures |r| <= MaxLineLength + 15
  {
    if |line| > MaxLineLength then line[..MaxLineLength] + "... (truncated)" else line
  }

  function NumberedLine(n: nat, line: string): string
  {
    NatToString(n) + ": " + ShownLine(line)
  }

  /** How many of `total` lines fall in the window [offset, offset + limit) */
  function WindowSize(total: nat, offset: int, limit: int): (r: nat)
    requires offset >= 1 && limit >= 1
    ensures r <= limit
    ensures r == 0 || offset - 1 + r <= total
    // past the end nothing is shown; otherwise the limit or the rest of the file, whichever is smaller
    ensures offset > total ==> r == 0
    ensures offset <= total ==> r == if limit <= total - offset + 1 then limit else total - offset + 1
  {
    var last := if total < offset + limit - 1 then total else offset + limit - 1;
    if last < offset then 0 else last - offset + 1
  }

  /**
   * The lines shown for a window: line numbers offset .. offset+limit-1
   * that the file has, each numbered and cut to length.
   */
  function Selection(lines: seq<string>, offset: int, limit: int): (r: seq<string>)
    requires offset >= 1 && limit >= 1
    ensures |r| == WindowSize(|lines|, offset, limit)
    ensures forall k :: 0 <= k < |r| ==> r[k] == NumberedLine(offset + k, lines[offset - 1 + k])
  {
    seq(WindowSize(|lines|, offset, limit), k requires 0 <= k < WindowSize(|lines|, offset, limit) =>
      NumberedLine(offset + k, lines[offset - 1 + k]))
  }

  /** The window is empty exactly when it starts past the last line */
  lemma SelectionEmpty(lines: seq<string>, offset: int, limit: int)
    requires offset >= 1 && limit >= 1
    ensures Selection(lines, offset, limit) == [] <==> offset > |lines|
  {
  }

  /** From the first line with a limit covering the file, every line is shown in order */
  lemma WholeFile(lines: seq<string>, limit: int)
    requires limit >= |lines| && limit >= 1
    ensures |Selection(lines, 1, limit)| == |lines|
    ensures forall k :: 0 <= k < |lines| ==> Selection(lines, 1, limit)[k] == NumberedLine(k + 1, lines[k])
  {
  }

  /** The sizes of two consecutive windows add up to the size of their union */
  lemma WindowSizeSplit(total: nat, offset: int, a: int, b: int)
    requires offset >= 1 && a >= 1 && b >= 1
    ensures WindowSize(total, offset, a + b) == WindowSize(total, offset, a) + WindowSize(total, offset + a, b)
    ensures WindowSize(total, offset + a, b) > 0 ==> WindowSize(total, offset, a) == a
  {
  }

  /** Two consecutive pages show the same lines as one page of their combined length */
  lemma Paging(lines: seq<string>, offset: int, a: int, b: int)
    requires offset >= 1 && a >= 1 && b >= 1
    ensures Selection(lines, offset, a + b) == Selection(lines, offset, a) + Selection(lines, offset + a, b)
  {
    var whole := Selection(lines, offset, a + b);
    var first := Selection(lines, offset, a);
    var second := Selection(lines, offset + a, b);
    WindowSizeSplit(|lines|, offset, a, b);
    forall k | 0 <= k < |whole|
      ensures whole[k] == (first + second)[k]
    {
      if k >= |first| {
        assert |first| == a;
        assert (first + second)[k] == second[k - a];
      }
    }
  }

  /** The scanned lines up to line n show the same window as the file once n reaches its end */
  lemma SelectionPrefix(lines: seq<string>, n: nat, offset: int, limit: int)
    requires offset >= 1 && limit >= 1 && n <= |lines| && n >= offset + limit - 1
    ensures Selection(lines[..n], offset, limit) == Selection(lines, offset, limit)
  {
  }

  /** Scanning one more line adds it to the window if its number lies inside */
  lemma SelectionStep(lines: seq<string>, n: nat, offset: int, limit: int)
    requires offset >= 1 && limit >= 1 && n < |lines|
    ensures Selection(lines[..n + 1], offset, limit) ==
      Selection(lines[..n], offset, limit) +
      (if offset <= n + 1 < offset + limit then [NumberedLine(n + 1, lines[n])] else [])
  {
    var prev := Selection(lines[..n], offset, limit);
    var next := Selection(lines[..n + 1], offset, limit);
    if offset <= n + 1 < offset + limit {
      assert |next| == |prev| + 1;
      assert next == prev + [NumberedLine(n + 1, lines[n])];
    } else {
      assert next == prev;
    }
  }

  /**
   * The scanner loop: numbers every line, keeps those in the window and
   * stops at the first line past it. `stopped` says whether it stopped
   * there rather than at the end of the scan.
   */
  method ScanWindow(lines: seq<string>, offset: int, limit: int) returns (shown: seq<string>, stopped: bool)
    requires offset >= 1 && limit >= 1
    ensures shown == Selection(lines, offset, limit)
    ensures stopped <==> |lines| >= offset + limit
  {
    shown := [];
    stopped := false;
    var lineNum := 0;
    while lineNum < |lines|
      invariant 0 <= lineNum <= |lines|
      invariant lineNum < offset + limit
      invariant shown == Selection(lines[..lineNum], offset, limit)
    {
      lineNum := lineNum + 1;
      if lineNum < offset {
        SelectionStep(lines, lineNum - 1, offset, limit);
        continue;
      }
      if lineNum >= offset + limit {
        SelectionPrefix(lines, lineNum - 1, offset, limit);
        stopped := true;
        return;
      }
      SelectionStep(lines, lineNum - 1, offset, limit);
      shown := shown + [NumberedLine(lineNum, lines[lineNum - 1])];
    }
    assert lines[..lineNum] == lines;
  }

  /**
   * Execute: parse, apply the defaults, resolve the path, open, scan.
   * A scan error counts only when the scan reached it, that is when the
   * loop did not stop at the end of the window first.
   */
  method Execute(workDir: string, parsed: Result<ViewParams>, open: string -> Result<Scan>) returns (r: Outcome)
    ensures parsed.Err? ==> r == Failure("parsing view parameters: " + parsed.error)
    ensures parsed.Ok? && open(Resolve(workDir, parsed.value.filePath)).Err? ==>
      r == Failure("opening file: " + open(Resolve(workDir, parsed.value.filePath)).error)
    ensures parsed.Ok? && open(Resolve(workDir, parsed.value.filePath)).Ok? ==>
      var p := parsed.value;
      var f := open(Resolve(workDir, p.filePath)).value;
      var offset := StartLine(p.offset);
      var limit := LineLimit(p.limit);
      var shown := Selection(f.lines, offset, limit);
      && (f.err.Some? && |f.lines| < offset + limit ==> r == Failure("reading file: " + f.err.value))
      && (f.err.None? || |f.lines| >= offset + limit ==>
            r == if shown == [] then Output(EmptyMessage) else Output(Join(shown, "\n")))
  {
    if parsed.Err? {
      return Failure("parsing view parameters: " + parsed.error);
    }
    var p := parsed.value;
    var offset := StartLine(p.offset);
    var limit := LineLimit(p.limit);
    var path := Resolve(workDir, p.filePath);
    var file := open(path);
    if file.Err? {
      return Failure("opening file: " + file.error);
    }
    var f := file.value;
    var shown, stopped := ScanWindow(f.lines, offset, limit);
    if !stopped && f.err.Some? {
      return Failure("reading file: " + f.err.value);
    }
    if shown == [] {
      return Output(EmptyMessage);
    }
    return Output(Join(shown, "\n"));
  }
}
