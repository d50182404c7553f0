/**
 * The bash tool: runs a command with `bash -c` in the working directory
 * under a timeout and reports its standard output and standard error.
 * Running the process is an input: `run` gives what the process wrote,
 * the error it ended with and whether its deadline passed.
 */
module Bash {

  import opened Text
  import opened Tools

  datatype BashParams = BashParams(command: string, timeout: int)

  /** What running a command yields */
  datatype Run = Run(stdout: string, stderr: string, err: Option<string>, timedOut: bool)

  /** The tool's two results: the output text and the error, if any */
  datatype BashResult = BashResult(output: string, err: Option<string>)

  const DefaultTimeout := 120
  const MaxOutput := 50000
  const TruncationNote := "\n... (output truncated)"
  const StderrHeader := "STDERR:\n"
  const NoOutput := "(no output)"

  /** A timeout of zero or less seconds means two minutes */
  function TimeoutSeconds(timeout: int): (r: int)
    ensures r >= 1
    ensures timeout >= 1 ==> r == timeout
    ensures timeout <= 0 ==> r == DefaultTimeout
  {
    if timeout <= 0 then DefaultTimeout else timeout
  }

  /**
   * The combined output: standard output, then standard error under a
   * header, the two separated by a newline when both are present.
   */
  function Combined(stdout: string, stderr: string): (r: string)
  {
    if stderr == [] then stdout
    else if stdout == [] then StderrHeader + stderr
    else stdout + "\n" + StderrHeader + stderr
  }

  /** Standard output comes first, standard error last, and nothing is lost */
  lemma CombinedParts(stdout: string, stderr: string)
    ensures var r := Combined(stdout, stderr);
      && |stdout| <= |r| && r[..|stdout|] == stdout
      && |stderr| <= |r| && r[|r| - |stderr|..] == stderr
      && (r == [] <==> stdout == [] && stderr == [])
      && (stderr != [] ==> |r| == |stdout| + (if stdout == [] then 0 else 1) + |StderrHeader| + |stderr|)
  {
    var r := Combined(stdout, stderr);
    if stderr != [] && stdout != [] {
      assert r == stdout + ("\n" + StderrHeader + stderr);
    }
  }

  /** The output builder: the steps that write the combined output */
  method AssembleOutput(stdout: string, stderr: string) returns (output: string)
    ensures output == Combined(stdout, stderr)
  {
    output := "";
    if |stdout| > 0 {
      output := output + stdout;
    }
    if |stderr| > 0 {
      if |output| > 0 {
        output := output + "\n";
      }
      output := output + StderrHeader;
      output := output + stderr;
    }
  }

  /** Output over 50000 characters is cut there and marked */
  function Truncate(output: string): (r: string)
    ensures |output| <= MaxOutput ==> r == output
    ensures |output| > MaxOutput ==> |r| == MaxOutput + |TruncationNote| && r[..MaxOutput] == output[..MaxOutput] && r[MaxOutput..] == TruncationNote
    ensures |r| <= MaxOutput + |TruncationNote|
    ensures r == [] <==> output == []
  {
    if |output| > MaxOutput then output[..MaxOutput] + TruncationNote else output
  }

  /** The result the agent sees: an error hides the output that came with it */
  function AsOutcome(r: BashResult): (o: Outcome)
    ensures r.err.Some? <==> o.Failure?
    ensures r.err.Some? ==> o.error == r.err.value
    ensures r.err.None? ==> o.text == r.output
  {
    if r.err.Some? then Failure(r.err.value) else Output(r.output)
  }

  /**
   * Execute: parse, apply the default timeout, run, assemble and cut the
   * output, and classify the ending: a timeout, a failure with no output,
   * a failure with output (reported as output with the exit status), or
   * success.
   */
  method Execute(workDir: string, parsed: Result<BashParams>, run: (string, string, int) -> Run) returns (r: BashResult)
    ensures parsed.Err? ==> r == BashResult("", Some("parsing bash parameters: " + parsed.error))
    ensures parsed.Ok? ==>
      var timeout := TimeoutSeconds(parsed.value.timeout);
      var ran := run(workDir, parsed.value.command, timeout);
      var output := Truncate(Combined(ran.stdout, ran.stderr));
      && (ran.err.Some? && ran.timedOut ==>
            r == BashResult(output + "\n(command timed out)", Some("command timed out after " + NatToString(timeout) + "s")))
      && (ran.err.Some? && !ran.timedOut && output == [] ==> r == BashResult("", Some("command failed: " + ran.err.value)))
      && (ran.err.Some? && !ran.timedOut && output != [] ==>
            r == BashResult(output + "\n(exit code: " + ran.err.value + ")", None))
      && (ran.err.None? ==> r == BashResult(if output == [] then NoOutput else output, None))
    // a command that ends without an error always says something
    ensures r.err.None? ==> r.output != []
  {
    if parsed.Err? {
      return BashResult("", Some("parsing bash parameters: " + parsed.error));
    }
    var timeout := TimeoutSeconds(parsed.value.timeout);
    var ran := run(workDir, parsed.value.command, timeout);
    var output := AssembleOutput(ran.stdout, ran.stderr);
    output := Truncate(output);
    if ran.err.Some? {
      if ran.timedOut {
        return BashResult(output + "\n(command timed out)", Some("command timed out after " + NatToString(timeout) + "s"));
      }
      if output == "" {
        return BashResult("", Some("command failed: " + ran.err.value));
      }
      return BashResult(output + "\n(exit code: " + ran.err.value + ")", None);
    }
    if output == "" {
      return BashResult(NoOutput, None);
    }
    return BashResult(output, None);
  }

  /** Without an error the output shows standard output and standard error whole, or their first 50000 characters */
  lemma SuccessShowsOutput(stdout: string, stderr: string)
    requires stdout != [] || stderr != []
    ensures var c := Combined(stdout, stderr);
      var shown := Truncate(c);
      && shown[..if |c| <= MaxOutput then |c| else MaxOutput] == c[..if |c| <= MaxOutput then |c| else MaxOutput]
      && (|stdout| <= MaxOutput ==> shown[..|stdout|] == stdout)
  {
    CombinedParts(stdout, stderr);
    var c := Combined(stdout, stderr);
    var shown := Truncate(c);
    if |stdout| <= MaxOutput && |c| > MaxOutput {
      assert shown[..|stdout|] == shown[..MaxOutput][..|stdout|];
      assert c[..|stdout|] == c[..MaxOutput][..|stdout|];
    }
  }
}
