/**
 * The grep tool: searches the files a glob finds for lines matching a
 * regular expression and reports them as "path:line: text", at most 100.
 * The regular expression is given by its compiled matcher, the glob by
 * its result, the file system by what `stat` and a line scanner report,
 * and cancellation by the index of the first file the search no longer
 * reaches.
 */
module Grep {

  import opened Text
  import opened Tools

  datatype GrepParams = GrepParams(pattern: string, path: string, includeGlob: string)

  /** What os.Stat reports for a path */
  datatype Stat = Missing | Directory | Regular(size: int)

  /** The file system as the search sees it: `read` is None when a file cannot be opened */
  datatype FileSystem = FileSystem(stat: string -> Stat, read: string -> Option<seq<string>>)

  const MaxResults := 100
  const MaxFileSize := 0x10_0000
  const NoMatches := "No matches found."
  const Truncated := "\n(truncated at 100 results)"

  /** The directory searched: the working directory unless a path is given */
  function BaseDir(workDir: string, path: string): (r: string)
    ensures path == "" ==> r == workDir
    ensures path != "" && IsAbs(path) ==> r == path
    ensures path != "" && !IsAbs(path) ==> r == workDir + "/" + path
  {
    if path == "" then workDir else Resolve(workDir, path)
  }

  /** Every file below the base directory, or those matching the include pattern */
  function FilePattern(includeGlob: string): (r: string)
    ensures HasPrefix(r, "**/")
    ensures includeGlob == "" ==> r == "**/*"
    ensures includeGlob != "" ==> r[3..] == includeGlob
  {
    if includeGlob == "" then "**/*" else "**/" + includeGlob
  }

  /** A file is searched when it is a regular file of at most 1 MiB that opens */
  predicate Searchable(fs: FileSystem, path: string)
  {
    fs.stat(path).Regular? && fs.stat(path).size <= MaxFileSize && fs.read(path).Some?
  }

  /** The 1-based numbers of the lines that match, in order */
  function MatchingLines(lines: seq<string>, matches: string -> bool): (r: seq<nat>)
    ensures forall k :: 0 <= k < |r| ==> 1 <= r[k] <= |lines| && matches(lines[r[k] - 1])
    ensures forall k, j :: 0 <= k < j < |r| ==> r[k] < r[j]
    ensures |r| <= |lines|
    decreases |lines|
  {
    if lines == [] then []
    else
      var prev := MatchingLines(lines[..|lines| - 1], matches);
      if matches(lines[|lines| - 1]) then prev + [|lines|] else prev
  }

  /** No matching line is missed */
  lemma {:induction false} MatchingLinesComplete(lines: seq<string>, matches: string -> bool, n: nat)
    requires 1 <= n <= |lines| && matches(lines[n - 1])
    ensures n in MatchingLines(lines, matches)
    decreases |lines|
  {
    if n < |lines| {
      var init := lines[..|lines| - 1];
      assert init[n - 1] == lines[n - 1];
      MatchingLinesComplete(init, matches, n);
    }
  }

  function Hit(relPath: string, n: nat, line: string): string
  {
    relPath + ":" + NatToString(n) + ": " + line
  }

  /** The report lines for one file */
  function FileHits(relPath: string, lines: seq<string>, matches: string -> bool): (r: seq<string>)
    ensures |r| == |MatchingLines(lines, matches)|
  {
    var ns := MatchingLines(lines, matches);
    seq(|ns|, k requires 0 <= k < |ns| => Hit(relPath, ns[k], lines[ns[k] - 1]))
  }

  /** Scanning one more line adds its report line when it matches */
  lemma FileHitsStep(relPath: string, lines: seq<string>, n: nat, matches: string -> bool)
    requires n < |lines|
    ensures FileHits(relPath, lines[..n + 1], matches) ==
      FileHits(relPath, lines[..n], matches) + (if matches(lines[n]) then [Hit(relPath, n + 1, lines[n])] else [])
  {
    var a := lines[..n];
    var b := lines[..n + 1];
    assert b[..|b| - 1] == a;
    var na := MatchingLines(a, matches);
    var nb := MatchingLines(b, matches);
    var ha := FileHits(relPath, a, matches);
    var hb := FileHits(relPath, b, matches);
    forall k | 0 <= k < |na|
      ensures hb[k] == ha[k]
    {
      assert nb[k] == na[k];
      assert b[na[k] - 1] == a[na[k] - 1];
    }
  }

  predicate IsPrefix<T(==)>(a: seq<T>, b: seq<T>)
  {
    |a| <= |b| && b[..|a|] == a
  }

  lemma PrefixTransitive<T>(a: seq<T>, b: seq<T>, c: seq<T>)
    requires IsPrefix(a, b) && IsPrefix(b, c)
    ensures IsPrefix(a, c)
  {
    assert c[..|a|] == c[..|b|][..|a|];
  }

  /** What is reported after n lines of a file is the start of what the whole file reports */
  lemma {:induction false} FileHitsPrefix(relPath: string, lines: seq<string>, n: nat, matches: string -> bool)
    requires n <= |lines|
    ensures IsPrefix(FileHits(relPath, lines[..n], matches), FileHits(relPath, lines, matches))
    decreases |lines| - n
  {
    if n < |lines| {
      FileHitsStep(relPath, lines, n, matches);
      FileHitsPrefix(relPath, lines, n + 1, matches);
      if n + 1 == |lines| {
        assert lines[..n + 1] == lines;
      }
      PrefixTransitive(FileHits(relPath, lines[..n], matches), FileHits(relPath, lines[..n + 1], matches),
        FileHits(relPath, lines, matches));
    } else {
      assert lines[..n] == lines;
    }
  }

  function FileResult(workDir: string, path: string, fs: FileSystem, matches: string -> bool,
                      rel: (string, string) -> string): seq<string>
  {
    if Searchable(fs, path) then FileHits(rel(workDir, path), fs.read(path).value, matches) else []
  }

  /** What each file contributes to the answer */
  function Found(workDir: string, fs: FileSystem, matches: string -> bool, rel: (string, string) -> string): string -> seq<string>
  {
    path => FileResult(workDir, path, fs, matches, rel)
  }

  /** All report lines for the first n files of a list, in file order */
  function AllHits(files: seq<string>, n: nat, perFile: string -> seq<string>): (r: seq<string>)
    requires n <= |files|
    ensures n == 0 ==> r == []
  {
    if n == 0 then [] else AllHits(files, n - 1, perFile) + perFile(files[n - 1])
  }

  /** Searching fewer files reports the start of what searching more reports */
  lemma {:induction false} AllHitsPrefix(files: seq<string>, i: nat, j: nat, perFile: string -> seq<string>)
    requires i <= j <= |files|
    ensures IsPrefix(AllHits(files, i, perFile), AllHits(files, j, perFile))
    decreases j - i
  {
    if i < j {
      AllHitsPrefix(files, i, j - 1, perFile);
      var b := AllHits(files, j - 1, perFile);
      PrefixOfAppend(b, perFile(files[j - 1]));
      PrefixTransitive(AllHits(files, i, perFile), b, AllHits(files, j, perFile));
    }
  }

  lemma PrefixOfAppend<T>(a: seq<T>, b: seq<T>)
    ensures IsPrefix(a, a + b)
  {
    assert (a + b)[..|a|] == a;
  }

  /** A file that is not searched adds nothing; a searched one adds one line per matching line */
  lemma AllHitsLast(files: seq<string>, n: nat, workDir: string, fs: FileSystem, matches: string -> bool,
                    rel: (string, string) -> string)
    requires 0 < n <= |files|
    ensures var last := files[n - 1];
      var before := AllHits(files, n - 1, Found(workDir, fs, matches, rel));
      && (!Searchable(fs, last) ==> AllHits(files, n, Found(workDir, fs, matches, rel)) == before)
      && (Searchable(fs, last) ==>
            |AllHits(files, n, Found(workDir, fs, matches, rel))| == |before| + |MatchingLines(fs.read(last).value, matches)|)
  {
  }

  /** The tool's answer for the lines found: none, all of them, or the first 100 and a note */
  function Report(all: seq<string>): (r: string)
    ensures all == [] ==> r == NoMatches
    ensures 0 < |all| < MaxResults ==> r == Join(all, "\n")
    ensures |all| >= MaxResults ==> r == Join(all[..MaxResults] + [Truncated], "\n")
  {
    if |all| >= MaxResults then Join(all[..MaxResults] + [Truncated], "\n")
    else if all == [] then NoMatches
    else Join(all, "\n")
  }

  /** How many files the search reaches before it is cancelled */
  function Reached(count: nat, cancelAt: nat): (r: nat)
    ensures r <= count && r <= cancelAt
    ensures r == count || r == cancelAt
  {
    if cancelAt < count then cancelAt else count
  }

  /**
   * The scan of one file: appends a report line per matching line to
   * `before`, stopping after line `scanned` as soon as 100 lines are found.
   */
  method SearchFile(relPath: string, lines: seq<string>, matches: string -> bool, before: seq<string>)
    returns (results: seq<string>, scanned: nat, full: bool)
    requires |before| < MaxResults
    ensures scanned <= |lines|
    ensures results == before + FileHits(relPath, lines[..scanned], matches)
    ensures full ==> |results| == MaxResults
    ensures !full ==> scanned == |lines| && |results| < MaxResults
  {
    results := before;
    var lineNum := 0;
    while lineNum < |lines|
      invariant 0 <= lineNum <= |lines|
      invariant results == before + FileHits(relPath, lines[..lineNum], matches)
      invariant |results| < MaxResults
    {
      lineNum := lineNum + 1;
      var line := lines[lineNum - 1];
      FileHitsStep(relPath, lines, lineNum - 1, matches);
      if matches(line) {
        results := results + [Hit(relPath, lineNum, line)];
        if |results| >= MaxResults {
          return results, lineNum, true;
        }
      }
    }
    return results, lineNum, false;
  }

  /**
   * The search loop: file by file, line by line, stopping as soon as 100
   * lines are found.
   */
  method Search(files: seq<string>, workDir: string, fs: FileSystem, matches: string -> bool,
                rel: (string, string) -> string, cancelAt: nat) returns (r: string)
    ensures r == Report(AllHits(files, Reached(|files|, cancelAt), Found(workDir, fs, matches, rel)))
  {
    var reached := Reached(|files|, cancelAt);
    var results: seq<string> := [];
    var i := 0;
    while i < |files|
      invariant 0 <= i <= reached
      invariant results == AllHits(files, i, Found(workDir, fs, matches, rel))
      invariant |results| < MaxResults
    {
      if i >= cancelAt {
        break;
      }
      var path := files[i];
      if !Searchable(fs, path) {
        i := i + 1;
        continue;
      }
      var lines := fs.read(path).value;
      var scanned, full;
      results, scanned, full := SearchFile(rel(workDir, path), lines, matches, results);
      if full {
        FileHitsPrefix(rel(workDir, path), lines, scanned, matches);
        assert Found(workDir, fs, matches, rel)(path) == FileHits(rel(workDir, path), lines, matches);
        TruncatedHits(files, i, reached, FileHits(rel(workDir, path), lines[..scanned], matches), results,
                      Found(workDir, fs, matches, rel));
        return Join(results + [Truncated], "\n");
      }
      assert lines[..scanned] == lines;
      i := i + 1;
    }
    assert i == reached;
    ghost var all := AllHits(files, reached, Found(workDir, fs, matches, rel));
    assert results == all && |all| < MaxResults;
    if results == [] {
      return NoMatches;
    }
    return Join(results, "\n");
  }

  /** The first 100 lines found, wherever the search stopped, are the first 100 of the full answer */
  lemma TruncatedHits(files: seq<string>, i: nat, reached: nat, part: seq<string>, results: seq<string>,
                      perFile: string -> seq<string>)
    requires i < reached <= |files|
    requires IsPrefix(part, perFile(files[i]))
    requires results == AllHits(files, i, perFile) + part && |results| == MaxResults
    ensures Report(AllHits(files, reached, perFile)) == Join(results + [Truncated], "\n")
  {
    var before := AllHits(files, i, perFile);
    PrefixAppend(before, part, perFile(files[i]));
    AllHitsPrefix(files, i + 1, reached, perFile);
    var all := AllHits(files, reached, perFile);
    PrefixTransitive(results, AllHits(files, i + 1, perFile), all);
    PrefixReport(results, all);
  }


  lemma PrefixAppend<T>(before: seq<T>, a: seq<T>, b: seq<T>)
    requires IsPrefix(a, b)
    ensures IsPrefix(before + a, before + b)
  {
    assert (before + b)[..|before + a|] == before + b[..|a|];
  }

  /** An answer that starts with 100 lines reports exactly those and the note */
  lemma PrefixReport(results: seq<string>, all: seq<string>)
    requires IsPrefix(results, all) && |results| == MaxResults
    ensures Report(all) == Join(results + [Truncated], "\n")
  {
    assert all[..MaxResults] == results;
  }

  /**
   * Execute: parse, compile the pattern, glob, search. `regex` is the
   * outcome of compiling the pattern, `glob` what the glob finds.
   */
  method Execute(workDir: string, parsed: Result<GrepParams>, regex: string -> Result<string -> bool>,
                 glob: string -> Result<seq<string>>, fs: FileSystem, rel: (string, string) -> string,
                 cancelAt: nat) returns (r: Outcome)
    ensures parsed.Err? ==> r == Failure("parsing grep parameters: " + parsed.error)
    ensures parsed.Ok? && regex(parsed.value.pattern).Err? ==>
      r == Failure("invalid regex pattern: " + regex(parsed.value.pattern).error)
    ensures parsed.Ok? && regex(parsed.value.pattern).Ok? ==>
      var p := parsed.value;
      var g := glob(BaseDir(workDir, p.path) + "/" + FilePattern(p.includeGlob));
      && (g.Err? ==> r == Failure("finding files: " + g.error))
      && (g.Ok? ==> r == Output(Report(AllHits(g.value, Reached(|g.value|, cancelAt),
                                                Found(workDir, fs, regex(p.pattern).value, rel)))))
  {
    if parsed.Err? {
      return Failure("parsing grep parameters: " + parsed.error);
    }
    var p := parsed.value;
    var re := regex(p.pattern);
    if re.Err? {
      return Failure("invalid regex pattern: " + re.error);
    }
    var baseDir := BaseDir(workDir, p.path);
    var found := glob(baseDir + "/" + FilePattern(p.includeGlob));
    if found.Err? {
      return Failure("finding files: " + found.error);
    }
    var text := Search(found.value, workDir, fs, re.value, rel, cancelAt);
    return Output(text);
  }
}
