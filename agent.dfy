/**
 * The agent loop: send the history to the provider, stream the reply to
 * the user interface, run the tool calls the model asked for (asking for
 * permission where needed), append the results to the history, repeat.
 *
 * Everything outside the loop is an input (`World`): whether the context
 * is cancelled at each check, what the provider answers to each request,
 * how each permission exchange ends and what each tool execution returns.
 * The events the loop sends on its channel are returned as a sequence.
 */
module Agent {

  import opened Text
  import opened Messages
  import opened Tools
  import opened Provider
  import Permission

  const DefaultMaxIterations := 25

  /** The events the loop sends to the user interface */
  datatype AgentEvent =
    | StreamText(text: string)
    | ToolCallStarted(id: string, name: string)
    | ToolCallEnded(id: string, name: string, input: string)
    | ToolResultEvent(id: string, name: string, output: string, isError: bool)
    | AgentDone(message: Message)
    | AgentError(error: string)
    | PersistMessage(message: Message)   // an intermediate message to be stored
  {
    /** AgentDone and AgentError end a run */
    predicate IsTerminal()
    {
      AgentDone? || AgentError?
    }
  }

  /**
   * The world the loop runs in, by iteration and by position of the tool
   * call within the iteration.
   */
  datatype World = World(
    cancelledBeforeTurn: nat -> Option<string>,            // the context's error at the top of an iteration
    send: (nat, Request) -> Result<seq<StreamEvent>>,      // the provider's stream, or why sending failed
    cancelledBeforeTool: (nat, nat) -> Option<string>,     // the context's error before a tool call
    reply: (nat, nat) -> Permission.Rendezvous,                       // how a permission exchange ends
    run: (nat, nat) -> Outcome)                            // what a tool's execution returns

  // ---------------------------------------------------------------------
  // One provider stream
  // ---------------------------------------------------------------------

  /** A tool call whose start was seen and whose end was not */
  datatype Pending = Pending(id: string, name: string, args: string)

  /** What the loop has gathered from a stream so far */
  datatype TurnState = TurnState(
    text: string,
    calls: seq<ToolCall>,
    pending: map<string, Pending>,
    usage: Usage,
    out: seq<AgentEvent>,
    failed: Option<string>)

  const Fresh := TurnState("", [], map[], NoUsage, [], None)

  /** The events the loop forwards while it reads a stream */
  predicate Streamed(e: AgentEvent)
  {
    e.StreamText? || e.ToolCallStarted? || e.ToolCallEnded?
  }

  predicate AllStreamed(s: seq<AgentEvent>)
  {
    forall i :: 0 <= i < |s| ==> Streamed(s[i])
  }

  /** The effect of one stream event */
  function Absorb(st: TurnState, ev: StreamEvent): (r: TurnState)
    requires st.failed.None?
    // the events sent only grow
    ensures |st.out| <= |r.out| && r.out[..|st.out|] == st.out
    // finalized calls only grow, at most by one
    ensures r.calls == st.calls || (|r.calls| == |st.calls| + 1 && r.calls[..|st.calls|] == st.calls)
    // an End for an id with no Start is ignored
    ensures ev.ToolCallEnd? && ev.id !in st.pending ==> r == st
    // a non-empty End input supersedes the accumulated deltas
    ensures ev.ToolCallEnd? && ev.id in st.pending ==>
      var p := st.pending[ev.id];
      var input := if ev.input != "" then ev.input else p.args;
      && r.calls == st.calls + [ToolCall(p.id, p.name, input)]
      && r.out == st.out + [ToolCallEnded(p.id, p.name, input)]
      && ev.id !in r.pending
    // only an Error event fails the turn, and it is reported as an AgentError
    ensures r.failed.Some? <==> ev.Error?
    ensures ev.Error? ==> r.out == st.out + [AgentError(ev.error)]
    ensures !ev.Error? ==> AllStreamed(r.out[|st.out|..])
  {
    match ev
    case TextDelta(t) => st.(text := st.text + t, out := st.out + [StreamText(t)])
    case ToolCallStart(id, name) =>
      st.(pending := st.pending[id := Pending(id, name, "")], out := st.out + [ToolCallStarted(id, name)])
    case ToolCallDelta(id, _, input) =>
      if id in st.pending then
        var p := st.pending[id];
        st.(pending := st.pending[id := p.(args := p.args + input)])
      else st
    case ToolCallEnd(id, _, input) =>
      if id in st.pending then
        var p := st.pending[id];
        var final := if input != "" then input else p.args;
        st.(calls := st.calls + [ToolCall(p.id, p.name, final)],
            out := st.out + [ToolCallEnded(p.id, p.name, final)],
            pending := st.pending - {id})
      else st
    case Error(e) => st.(out := st.out + [AgentError(e)], failed := Some(e))
    case Done(u) => st.(usage := u)
  }

  /** The state after reading the rest of a stream; reading stops at an Error event */
  function AccFrom(st: TurnState, events: seq<StreamEvent>): TurnState
    decreases |events|
  {
    if events == [] || st.failed.Some? then st else AccFrom(Absorb(st, events[0]), events[1..])
  }

  /** The concatenated text deltas of a stream */
  function Texts(events: seq<StreamEvent>): string
  {
    if events == [] then ""
    else (if events[0].TextDelta? then events[0].text else "") + Texts(events[1..])
  }

  /** The usage of the last Done event, or `u` when there is none */
  function LastUsage(u: Usage, events: seq<StreamEvent>): Usage
    decreases |events|
  {
    if events == [] then u
    else LastUsage(if events[0].Done? then events[0].usage else u, events[1..])
  }

  predicate NoError(events: seq<StreamEvent>)
  {
    forall i :: 0 <= i < |events| ==> !events[i].Error?
  }

  /** Without an Error event, the text is the concatenated deltas */
  lemma {:induction false} AccText(st: TurnState, events: seq<StreamEvent>)
    requires st.failed.None? && NoError(events)
    ensures AccFrom(st, events).failed.None?
    ensures AccFrom(st, events).text == st.text + Texts(events)
    decreases |events|
  {
    if events != [] {
      var ev := events[0];
      assert !ev.Error?;
      var next := Absorb(st, ev);
      assert next.text == st.text + (if ev.TextDelta? then ev.text else "");
      NoErrorTail(events);
      AccText(next, events[1..]);
      assert AccFrom(st, events) == AccFrom(next, events[1..]);
      var x := if ev.TextDelta? then ev.text else "";
      assert Texts(events) == x + Texts(events[1..]);
      ConcatAssoc(st.text, x, Texts(events[1..]));
    }
  }

  /** Without an Error event, the usage is that of the last Done event */
  lemma {:induction false} AccUsage(st: TurnState, events: seq<StreamEvent>)
    requires st.failed.None? && NoError(events)
    ensures AccFrom(st, events).usage == LastUsage(st.usage, events)
    decreases |events|
  {
    if events != [] {
      var ev := events[0];
      assert !ev.Error?;
      var next := Absorb(st, ev);
      assert next.usage == if ev.Done? then ev.usage else st.usage;
      NoErrorTail(events);
      AccUsage(next, events[1..]);
      assert AccFrom(st, events) == AccFrom(next, events[1..]);
    }
  }

  /** Reading a stream only adds events, and fails exactly when the stream holds an Error event */
  lemma {:induction false} AccGrows(st: TurnState, events: seq<StreamEvent>)
    requires st.failed.None?
    ensures var r := AccFrom(st, events);
      && |st.out| <= |r.out| && r.out[..|st.out|] == st.out
      && (r.failed.Some? <==> !NoError(events))
    decreases |events|
  {
    if events != [] {
      var ev := events[0];
      if ev.Error? {
        assert !NoError(events);
      } else {
        AccGrows(Absorb(st, ev), events[1..]);
        NoErrorTail(events);
      }
    }
  }

  /**
   * Reading a stream forwards only text and tool-call events, followed by
   * one AgentError when it fails.
   */
  lemma AccEvents(st: TurnState, events: seq<StreamEvent>)
    requires st.failed.None?
    ensures var r := AccFrom(st, events);
      && |st.out| <= |r.out|
      && (r.failed.None? ==> AllStreamed(r.out[|st.out|..]))
      && (r.failed.Some? ==>
            && |r.out| > |st.out|
            && r.out[|r.out| - 1] == AgentError(r.failed.value)
            && AllStreamed(r.out[|st.out|..|r.out| - 1]))
  {
    AccGrows(st, events);
    if AccFrom(st, events).failed.None? {
      AccStreamedOnly(st, events);
    } else {
      AccFailure(st, events);
    }
  }

  /** A stream read to its end forwards only text and tool-call events */
  lemma {:induction false} AccStreamedOnly(st: TurnState, events: seq<StreamEvent>)
    requires st.failed.None? && AccFrom(st, events).failed.None?
    ensures |st.out| <= |AccFrom(st, events).out|
    ensures AllStreamed(AccFrom(st, events).out[|st.out|..])
    decreases |events|
  {
    if events != [] {
      var next := Absorb(st, events[0]);
      var r := AccFrom(st, events);
      assert r == AccFrom(next, events[1..]);
      assert next.failed.None?;
      AccStreamedOnly(next, events[1..]);
      AccGrows(next, events[1..]);
      assert r.out[|st.out|..|next.out|] == next.out[|st.out|..];
      StreamedSlices(r.out, |st.out|, |next.out|, |r.out|);
    }
  }

  /** A stream that fails forwards text and tool-call events, then one AgentError */
  lemma {:induction false} AccFailure(st: TurnState, events: seq<StreamEvent>)
    requires st.failed.None? && AccFrom(st, events).failed.Some?
    ensures var r := AccFrom(st, events);
      && |r.out| > |st.out|
      && r.out[|r.out| - 1] == AgentError(r.failed.value)
      && AllStreamed(r.out[|st.out|..|r.out| - 1])
    decreases |events|
  {
    var next := Absorb(st, events[0]);
    var r := AccFrom(st, events);
    assert r == AccFrom(next, events[1..]);
    if events[0].Error? {
      assert next.out == st.out + [AgentError(events[0].error)] && next.failed == Some(events[0].error);
      assert r == next;
      assert r.out[|st.out|..|r.out| - 1] == [];
    } else {
      assert next.failed.None?;
      AccFailure(next, events[1..]);
      AccGrows(next, events[1..]);
      assert r.out[|st.out|..|next.out|] == next.out[|st.out|..];
      StreamedSlices(r.out, |st.out|, |next.out|, |r.out| - 1);
    }
  }

  /** Two adjacent slices of forwarded events make one */
  lemma StreamedSlices(s: seq<AgentEvent>, a: nat, b: nat, c: nat)
    requires a <= b <= c <= |s| && AllStreamed(s[a..b]) && AllStreamed(s[b..c])
    ensures AllStreamed(s[a..c])
  {
    assert s[a..c] == s[a..b] + s[b..c];
    AllStreamedConcat(s[a..b], s[b..c]);
  }

  lemma NoErrorTail(events: seq<StreamEvent>)
    requires events != [] && !events[0].Error?
    ensures NoError(events) <==> NoError(events[1..])
  {
    if NoError(events[1..]) {
      forall i | 0 <= i < |events|
        ensures !events[i].Error?
      {
        if i > 0 {
          assert events[i] == events[1..][i - 1];
        }
      }
    }
  }

  lemma AllStreamedConcat(a: seq<AgentEvent>, b: seq<AgentEvent>)
    requires AllStreamed(a) && AllStreamed(b)
    ensures AllStreamed(a + b)
  {
    forall i | 0 <= i < |a + b|
      ensures Streamed((a + b)[i])
    {
      if i >= |a| {
        assert (a + b)[i] == b[i - |a|];
      }
    }
  }

  /** The assistant message of a turn: its text, its finalized calls, the reported usage */
  function AssistantOf(sessionId: string, st: TurnState): (m: Message)
    ensures m.role == Assistant && m.content == st.text && m.toolCalls == st.calls
    ensures m.inputTokens == st.usage.inputTokens && m.outputTokens == st.usage.outputTokens
    ensures m.totalTokens == st.usage.totalTokens
  {
    NewAssistantMessage(sessionId, st.text, st.calls).(
      inputTokens := st.usage.inputTokens,
      outputTokens := st.usage.outputTokens,
      totalTokens := st.usage.totalTokens)
  }

  // ---------------------------------------------------------------------
  // Tool definitions and tool execution
  // ---------------------------------------------------------------------

  /** The definitions of some tools, in order */
  function Definitions(ts: seq<Tool>): (r: seq<ToolDefinition>)
    ensures |r| == |ts| && forall i :: 0 <= i < |ts| ==> r[i] == Definition(ts[i])
  {
    seq(|ts|, i requires 0 <= i < |ts| => Definition(ts[i]))
  }

  /** `a` is `b` with some elements left out */
  predicate SubsequenceOf<T(==)>(a: seq<T>, b: seq<T>)
    decreases |b|
  {
    if a == [] then true
    else if b == [] then false
    else if a[|a| - 1] == b[|b| - 1] then SubsequenceOf(a[..|a| - 1], b[..|b| - 1])
    else SubsequenceOf(a, b[..|b| - 1])
  }

  /** Whether a tool is offered in a mode: in plan mode, tools needing permission are not */
  predicate Offered(t: Tool, mode: string)
  {
    !(mode == "plan" && t.requiresPermission)
  }

  /** The tool definitions the loop sends, filtered by mode */
  function ToolDefsFor(ts: seq<Tool>, mode: string): seq<ToolDefinition>
    decreases |ts|
  {
    if ts == [] then []
    else
      var last := ts[|ts| - 1];
      ToolDefsFor(ts[..|ts| - 1], mode) + (if Offered(last, mode) then [Definition(last)] else [])
  }

  /** Outside plan mode every tool is offered, unchanged and in registry order */
  lemma {:induction false} ToolDefsForAll(ts: seq<Tool>, mode: string)
    requires mode != "plan"
    ensures ToolDefsFor(ts, mode) == Definitions(ts)
    decreases |ts|
  {
    if ts != [] {
      var init := ts[..|ts| - 1];
      ToolDefsForAll(init, mode);
      assert Definitions(ts) == Definitions(init) + [Definition(ts[|ts| - 1])];
    }
  }

  /** The offered definitions keep the registry's order */
  lemma {:induction false} ToolDefsForOrder(ts: seq<Tool>, mode: string)
    ensures SubsequenceOf(ToolDefsFor(ts, mode), Definitions(ts))
    decreases |ts|
  {
    if ts != [] {
      var init := ts[..|ts| - 1];
      var last := ts[|ts| - 1];
      ToolDefsForOrder(init, mode);
      var r0 := ToolDefsFor(init, mode);
      var r := ToolDefsFor(ts, mode);
      var all := Definitions(ts);
      assert all[..|ts| - 1] == Definitions(init);
      if Offered(last, mode) {
        assert r[..|r| - 1] == r0 && r[|r| - 1] == all[|all| - 1];
      } else {
        assert r == r0;
        SubsequenceSkip(r, all);
      }
    }
  }

  /** Every offered tool's definition is there */
  lemma {:induction false} ToolDefsForComplete(ts: seq<Tool>, mode: string)
    ensures forall i :: 0 <= i < |ts| && Offered(ts[i], mode) ==> Definition(ts[i]) in ToolDefsFor(ts, mode)
    decreases |ts|
  {
    if ts != [] {
      var init := ts[..|ts| - 1];
      ToolDefsForComplete(init, mode);
      forall i | 0 <= i < |ts| - 1 && Offered(ts[i], mode)
        ensures Definition(ts[i]) in ToolDefsFor(ts, mode)
      {
        assert ts[i] == init[i];
        assert Definition(init[i]) in ToolDefsFor(init, mode);
      }
    }
  }

  /** Nothing but offered tools' definitions is there */
  lemma {:induction false} ToolDefsForSound(ts: seq<Tool>, mode: string, d: ToolDefinition)
    requires d in ToolDefsFor(ts, mode)
    ensures exists i :: 0 <= i < |ts| && Offered(ts[i], mode) && d == Definition(ts[i])
    decreases |ts|
  {
    var init := ts[..|ts| - 1];
    var last := |ts| - 1;
    if d in ToolDefsFor(init, mode) {
      ToolDefsForSound(init, mode, d);
      var i :| 0 <= i < |init| && Offered(init[i], mode) && d == Definition(init[i]);
      assert ts[i] == init[i];
    } else {
      assert Offered(ts[last], mode) && d == Definition(ts[last]);
    }
  }

  /** Dropping the last element of `b` keeps `a` a subsequence when `a` already fits in the rest */
  lemma SubsequenceSkip<T>(a: seq<T>, b: seq<T>)
    requires b != [] && SubsequenceOf(a, b[..|b| - 1])
    ensures SubsequenceOf(a, b)
    decreases |b|, |a|
  {
    if a != [] && a[|a| - 1] == b[|b| - 1] {
      SubsequenceShorter(a, b[..|b| - 1]);
    }
  }

  lemma SubsequenceShorter<T>(a: seq<T>, b: seq<T>)
    requires a != [] && SubsequenceOf(a, b)
    ensures SubsequenceOf(a[..|a| - 1], b)
    decreases |b|, |a|
  {
    if b != [] {
      if a[|a| - 1] == b[|b| - 1] {
        SubsequenceSkip(a[..|a| - 1], b);
      } else {
        SubsequenceShorter(a, b[..|b| - 1]);
        SubsequenceSkip(a[..|a| - 1], b);
      }
    }
  }

  /** How one tool call ended: its result, the permission state after it, whether the tool ran */
  datatype ToolOutcome = ToolOutcome(result: ToolResult, perm: Permission.PermState, asked: bool, ran: bool)

  function UnknownToolError(name: string): string
  {
    "Error: unknown tool '" + name + "'"
  }

  function PlanModeError(name: string): string
  {
    "Error: tool '" + name + "' is not available in PLAN mode. " + "Switch to BUILD mode to use this tool."
  }

  const PermissionDenied := "Permission denied by user."

  /**
   * Executing one tool call: an unknown tool, a tool needing permission in
   * plan mode and a denied permission each give an error result without
   * running the tool; otherwise the tool runs and its output or error is
   * the result. `hasPerm` says whether a permission service is present.
   */
  function ExecuteOn(tools: map<string, Tool>, mode: string, hasPerm: bool, perm: Permission.PermState,
                     tc: ToolCall, reply: Permission.Rendezvous, run: Outcome): (o: ToolOutcome)
    ensures o.result.toolCallId == tc.id && o.result.name == tc.name
    ensures !o.asked ==> o.perm == perm
    ensures o.asked ==> o.perm == Permission.CheckOn(perm, tc.name, tc.input, reply).1
  {
    if tc.name !in tools then
      ToolOutcome(ToolResult(tc.id, tc.name, UnknownToolError(tc.name), true), perm, false, false)
    else
      var tool := tools[tc.name];
      if mode == "plan" && tool.requiresPermission then
        ToolOutcome(ToolResult(tc.id, tc.name, PlanModeError(tc.name), true), perm, false, false)
      else
        var asked := tool.requiresPermission && hasPerm;
        var (resp, perm1) := if asked then Permission.CheckOn(perm, tc.name, tc.input, reply) else (Permission.Allow, perm);
        if resp == Permission.Deny then
          ToolOutcome(ToolResult(tc.id, tc.name, PermissionDenied, true), perm1, asked, false)
        else
          match run
          case Failure(e) => ToolOutcome(ToolResult(tc.id, tc.name, "Error: " + e, true), perm1, asked, true)
          case Output(out) => ToolOutcome(ToolResult(tc.id, tc.name, out, false), perm1, asked, true)
  }
  /** executeTool refuses an unknown tool, and a tool that plan mode withholds, without asking or running */
  lemma ExecuteOnRefuses(tools: map<string, Tool>, mode: string, hasPerm: bool, perm: Permission.PermState,
                         tc: ToolCall, reply: Permission.Rendezvous, run: Outcome)
    ensures var o := ExecuteOn(tools, mode, hasPerm, perm, tc, reply, run);
      && (tc.name !in tools ==>
            o.result == ToolResult(tc.id, tc.name, UnknownToolError(tc.name), true) && !o.asked && !o.ran)
      && (tc.name in tools && !Offered(tools[tc.name], mode) ==>
            o.result == ToolResult(tc.id, tc.name, PlanModeError(tc.name), true) && !o.asked && !o.ran)
  {
  }

  /** The user is asked exactly for a known, offered tool that needs permission, when there is a service */
  lemma ExecuteOnAsks(tools: map<string, Tool>, mode: string, hasPerm: bool, perm: Permission.PermState,
                      tc: ToolCall, reply: Permission.Rendezvous, run: Outcome)
    ensures var o := ExecuteOn(tools, mode, hasPerm, perm, tc, reply, run);
      o.asked <==> tc.name in tools && Offered(tools[tc.name], mode) && tools[tc.name].requiresPermission && hasPerm
  {
  }

  /** A denial is reported and the tool does not run; otherwise a known, offered tool runs */
  lemma ExecuteOnRuns(tools: map<string, Tool>, mode: string, hasPerm: bool, perm: Permission.PermState,
                      tc: ToolCall, reply: Permission.Rendezvous, run: Outcome)
    ensures var o := ExecuteOn(tools, mode, hasPerm, perm, tc, reply, run);
      var denied := Permission.CheckOn(perm, tc.name, tc.input, reply).0 == Permission.Deny;
      && (o.asked && denied ==> !o.ran && o.result == ToolResult(tc.id, tc.name, PermissionDenied, true))
      && (o.ran <==> tc.name in tools && Offered(tools[tc.name], mode) && !(o.asked && denied))
  {
  }

  /** A tool that runs reports its output, or its error prefixed with "Error: " and flagged */
  lemma ExecuteOnReports(tools: map<string, Tool>, mode: string, hasPerm: bool, perm: Permission.PermState,
                         tc: ToolCall, reply: Permission.Rendezvous, run: Outcome)
    ensures var o := ExecuteOn(tools, mode, hasPerm, perm, tc, reply, run);
      && (o.ran && run.Failure? ==> o.result == ToolResult(tc.id, tc.name, "Error: " + run.error, true))
      && (o.ran && run.Output? ==> o.result == ToolResult(tc.id, tc.name, run.text, false))
  {
  }



  /** The event reporting a tool result */
  function ResultEvent(tc: ToolCall, r: ToolResult): AgentEvent
  {
    ToolResultEvent(tc.id, tc.name, r.output, r.isError)
  }

  /** The tool calls of one turn: the events sent, the results, the permission state, and the cancellation if any */
  datatype ToolsRun = ToolsRun(events: seq<AgentEvent>, results: seq<ToolResult>, perm: Permission.PermState, cancelled: Option<string>)

  /** What the loop knows for a whole run */
  datatype Setup = Setup(
    tools: map<string, Tool>,
    mode: string,
    hasPerm: bool,
    systemPrompt: string,
    toolDefs: seq<ToolDefinition>,
    maxTokens: int,
    maxIterations: nat,
    sessionId: string)

  /** Running the calls from index `j` on, in order; a cancelled context stops before the next call */
  function ToolsFrom(s: Setup, w: World, iter: nat, calls: seq<ToolCall>, j: nat, perm: Permission.PermState): ToolsRun
    decreases |calls| - j
  {
    if j >= |calls| then ToolsRun([], [], perm, None)
    else
      match w.cancelledBeforeTool(iter, j)
      case Some(e) => ToolsRun([AgentError(e)], [], perm, Some(e))
      case None =>
        var o := ExecuteOn(s.tools, s.mode, s.hasPerm, perm, calls[j], w.reply(iter, j), w.run(iter, j));
        var rest := ToolsFrom(s, w, iter, calls, j + 1, o.perm);
        ToolsRun([ResultEvent(calls[j], o.result)] + rest.events, [o.result] + rest.results, rest.perm, rest.cancelled)
  }
  /** One call of ToolsFrom that is not cancelled: its result event and result come first */
  lemma ToolsStep(s: Setup, w: World, iter: nat, calls: seq<ToolCall>, j: nat, perm: Permission.PermState, o: ToolOutcome)
    requires j < |calls| && w.cancelledBeforeTool(iter, j).None?
    requires o == ExecuteOn(s.tools, s.mode, s.hasPerm, perm, calls[j], w.reply(iter, j), w.run(iter, j))
    ensures var rest := ToolsFrom(s, w, iter, calls, j + 1, o.perm);
      ToolsFrom(s, w, iter, calls, j, perm) ==
        ToolsRun([ResultEvent(calls[j], o.result)] + rest.events, [o.result] + rest.results, rest.perm, rest.cancelled)
  {
  }

  /** What has been done followed by the rest of a run */
  function Joined(events: seq<AgentEvent>, results: seq<ToolResult>, rest: ToolsRun): ToolsRun
  {
    ToolsRun(events + rest.events, results + rest.results, rest.perm, rest.cancelled)
  }

  /** Moving one event and one result from the rest of a run to what has been done */
  lemma ToolsShift(events: seq<AgentEvent>, results: seq<ToolResult>, e: AgentEvent, res: ToolResult, rest: ToolsRun)
    ensures Joined(events, results, ToolsRun([e] + rest.events, [res] + rest.results, rest.perm, rest.cancelled)) ==
      Joined(events + [e], results + [res], rest)
  {
    ConcatAssoc(events, [e], rest.events);
    ConcatAssoc(results, [res], rest.results);
  }


  /** Past the last call nothing more is run, so what has been done is the whole run */
  lemma ToolsDone(s: Setup, w: World, iter: nat, calls: seq<ToolCall>, perm: Permission.PermState,
                  events: seq<AgentEvent>, results: seq<ToolResult>)
    ensures Joined(events, results, ToolsFrom(s, w, iter, calls, |calls|, perm)) == ToolsRun(events, results, perm, None)
  {
    assert events + [] == events && results + [] == results;
  }


  /**
   * Without cancellation every call from `j` on gets one result, in call
   * order, and one result event; with it, the results so far are followed
   * by one AgentError.
   */
  lemma ToolsShape(s: Setup, w: World, iter: nat, calls: seq<ToolCall>, j: nat, perm: Permission.PermState)
    requires j <= |calls|
    ensures var r := ToolsFrom(s, w, iter, calls, j, perm);
      && |r.results| <= |calls| - j
      && (r.cancelled.None? ==> |r.results| == |calls| - j && |r.events| == |r.results|)
      && (r.cancelled.Some? ==> |r.events| == |r.results| + 1 && r.events[|r.results|] == AgentError(r.cancelled.value))
      && forall k :: 0 <= k < |r.results| ==>
           && r.results[k].toolCallId == calls[j + k].id && r.results[k].name == calls[j + k].name
           && r.events[k] == ResultEvent(calls[j + k], r.results[k])
  {
    ToolsCount(s, w, iter, calls, j, perm);
    ToolsOrder(s, w, iter, calls, j, perm);
  }

  /** One result per call that started, and one trailing AgentError exactly when cancelled */
  lemma {:induction false} ToolsCount(s: Setup, w: World, iter: nat, calls: seq<ToolCall>, j: nat, perm: Permission.PermState)
    requires j <= |calls|
    ensures var r := ToolsFrom(s, w, iter, calls, j, perm);
      && |r.results| <= |calls| - j
      && (r.cancelled.None? ==> |r.results| == |calls| - j && |r.events| == |r.results|)
      && (r.cancelled.Some? ==> |r.events| == |r.results| + 1 && r.events[|r.results|] == AgentError(r.cancelled.value))
    decreases |calls| - j
  {
    if j < |calls| && w.cancelledBeforeTool(iter, j).None? {
      var o := ExecuteOn(s.tools, s.mode, s.hasPerm, perm, calls[j], w.reply(iter, j), w.run(iter, j));
      ToolsCount(s, w, iter, calls, j + 1, o.perm);
      var rest := ToolsFrom(s, w, iter, calls, j + 1, o.perm);
      var r := ToolsFrom(s, w, iter, calls, j, perm);
      assert r.events == [ResultEvent(calls[j], o.result)] + rest.events;
      if r.cancelled.Some? {
        assert r.events[|r.results|] == rest.events[|rest.results|];
      }
    }
  }

  /** The k-th result and result event belong to the k-th call from `j` */
  lemma {:induction false} ToolsOrder(s: Setup, w: World, iter: nat, calls: seq<ToolCall>, j: nat, perm: Permission.PermState)
    requires j <= |calls|
    ensures var r := ToolsFrom(s, w, iter, calls, j, perm);
      && |r.results| <= |calls| - j && |r.results| <= |r.events|
      && forall k :: 0 <= k < |r.results| ==>
           && r.results[k].toolCallId == calls[j + k].id && r.results[k].name == calls[j + k].name
           && r.events[k] == ResultEvent(calls[j + k], r.results[k])
    decreases |calls| - j
  {
    if j < |calls| && w.cancelledBeforeTool(iter, j).None? {
      var o := ExecuteOn(s.tools, s.mode, s.hasPerm, perm, calls[j], w.reply(iter, j), w.run(iter, j));
      ToolsOrder(s, w, iter, calls, j + 1, o.perm);
      var rest := ToolsFrom(s, w, iter, calls, j + 1, o.perm);
      var r := ToolsFrom(s, w, iter, calls, j, perm);
      assert r.results == [o.result] + rest.results && r.events == [ResultEvent(calls[j], o.result)] + rest.events;
      forall k | 1 <= k < |r.results|
        ensures r.results[k] == rest.results[k - 1] && r.events[k] == rest.events[k - 1]
      {
      }
    }
  }

  /** Tool calls only ever add to the session allowlist, and in plan mode the user is never asked */
  lemma {:induction false} ToolsPermission(s: Setup, w: World, iter: nat, calls: seq<ToolCall>, j: nat, perm: Permission.PermState)
    ensures var r := ToolsFrom(s, w, iter, calls, j, perm);
      && Permission.Grows(perm, r.perm)
      && (s.mode == "plan" ==> r.perm == perm)
    decreases |calls| - j
  {
    if j < |calls| && w.cancelledBeforeTool(iter, j).None? {
      var o := ExecuteOn(s.tools, s.mode, s.hasPerm, perm, calls[j], w.reply(iter, j), w.run(iter, j));
      ToolsPermission(s, w, iter, calls, j + 1, o.perm);
      Permission.CheckOnGrows(perm, calls[j].name, calls[j].input, w.reply(iter, j));
      Permission.GrowsTransitive(perm, o.perm, ToolsFrom(s, w, iter, calls, j + 1, o.perm).perm);
    }
  }


  // ---------------------------------------------------------------------
  // The run
  // ---------------------------------------------------------------------

  function MaxIterationsError(n: nat): string
  {
    "agent reached maximum iterations (" + NatToString(n) + ")"
  }

  /** A run: the events sent, the permission state at the end, the number of requests sent */
  datatype Run = Run(events: seq<AgentEvent>, perm: Permission.PermState, turns: nat)

  /** The request of one iteration */
  function RequestFor(s: Setup, history: seq<Message>): (req: Request)
    ensures req.systemPrompt == s.systemPrompt && req.messages == history
    ensures req.tools == s.toolDefs && req.maxTokens == s.maxTokens
  {
    Request(s.systemPrompt, history, s.toolDefs, s.maxTokens)
  }

  /** The loop from iteration `iter` on, with the history and permission state it has reached */
  function RunFrom(s: Setup, w: World, iter: nat, history: seq<Message>, perm: Permission.PermState): Run
    decreases s.maxIterations - iter
  {
    if iter >= s.maxIterations then Run([AgentError(MaxIterationsError(s.maxIterations))], perm, 0)
    else
      match w.cancelledBeforeTurn(iter)
      case Some(e) => Run([AgentError(e)], perm, 0)
      case None =>
        match w.send(iter, RequestFor(s, history))
        case Err(e) => Run([AgentError("LLM request failed: " + e)], perm, 1)
        case Ok(stream) =>
          var t := AccFrom(Fresh, stream);
          if t.failed.Some? then Run(t.out, perm, 1)
          else
            var msg := AssistantOf(s.sessionId, t);
            if t.calls == [] then Run(t.out + [AgentDone(msg)], perm, 1)
            else
              var tr := ToolsFrom(s, w, iter, t.calls, 0, perm);
              var head := t.out + [PersistMessage(msg)] + tr.events;
              if tr.cancelled.Some? then Run(head, tr.perm, 1)
              else
                var resMsg := NewToolResultMessage(s.sessionId, tr.results);
                var rest := RunFrom(s, w, iter + 1, history + [msg, resMsg], tr.perm);
                Run(head + [PersistMessage(resMsg)] + rest.events, rest.perm, 1 + rest.turns)
  }

  predicate NoTerminal(es: seq<AgentEvent>)
  {
    forall i :: 0 <= i < |es| ==> !es[i].IsTerminal()
  }

  /** Exactly one terminal event, and it comes last */
  predicate EndsOnce(es: seq<AgentEvent>)
  {
    es != [] && es[|es| - 1].IsTerminal() && NoTerminal(es[..|es| - 1])
  }

  /** Where the parts of `a + [x] + b + [y] + c` sit */
  lemma Layout<T>(a: seq<T>, x: T, b: seq<T>, y: T, c: seq<T>)
    ensures var all := a + [x] + b + [y] + c;
      && |all| == |a| + |b| + |c| + 2
      && all[..|a|] == a && all[|a|] == x
      && (forall k :: 0 <= k < |b| ==> all[|a| + 1 + k] == b[k])
      && all[|a| + 1 + |b|] == y && all[|a| + |b| + 2..] == c
  {
  }

  lemma NoTerminalConcat(a: seq<AgentEvent>, b: seq<AgentEvent>)
    requires NoTerminal(a) && NoTerminal(b)
    ensures NoTerminal(a + b)
  {
    forall i | 0 <= i < |a + b|
      ensures !(a + b)[i].IsTerminal()
    {
      if i >= |a| {
        assert (a + b)[i] == b[i - |a|];
      }
    }
  }

  lemma EndsOnceAfter(a: seq<AgentEvent>, b: seq<AgentEvent>)
    requires NoTerminal(a) && EndsOnce(b)
    ensures EndsOnce(a + b)
  {
    assert (a + b)[..|a + b| - 1] == a + b[..|b| - 1];
    NoTerminalConcat(a, b[..|b| - 1]);
  }

  lemma StreamedNotTerminal(es: seq<AgentEvent>)
    requires AllStreamed(es)
    ensures NoTerminal(es)
  {
  }

  /** The result events of a turn's tool calls are not terminal; a cancellation ends with one AgentError */
  lemma ToolsEvents(s: Setup, w: World, iter: nat, calls: seq<ToolCall>, perm: Permission.PermState)
    ensures var tr := ToolsFrom(s, w, iter, calls, 0, perm);
      && (tr.cancelled.None? ==> NoTerminal(tr.events))
      && (tr.cancelled.Some? ==> EndsOnce(tr.events))
  {
    ToolsShape(s, w, iter, calls, 0, perm);
    var tr := ToolsFrom(s, w, iter, calls, 0, perm);
    if tr.cancelled.Some? {
      assert tr.events[..|tr.events| - 1] == tr.events[..|tr.results|];
    }
  }

  /**
   * Every run sends exactly one AgentDone or AgentError, as its last event,
   * and sends at most one request per remaining iteration.
   */
  lemma {:induction false} RunEndsOnce(s: Setup, w: World, iter: nat, history: seq<Message>, perm: Permission.PermState)
    ensures EndsOnce(RunFrom(s, w, iter, history, perm).events)
    ensures iter <= s.maxIterations ==> RunFrom(s, w, iter, history, perm).turns <= s.maxIterations - iter
    decreases s.maxIterations - iter
  {
    if iter < s.maxIterations && w.cancelledBeforeTurn(iter).None? && w.send(iter, RequestFor(s, history)).Ok? {
      var stream := w.send(iter, RequestFor(s, history)).value;
      var t := AccFrom(Fresh, stream);
      AccEvents(Fresh, stream);
      assert t.out == t.out[|Fresh.out|..];
      if t.failed.Some? {
        StreamedNotTerminal(t.out[..|t.out| - 1]);
      } else {
        StreamedNotTerminal(t.out);
        var msg := AssistantOf(s.sessionId, t);
        if t.calls == [] {
          assert (t.out + [AgentDone(msg)])[..|t.out|] == t.out;
        } else {
          var tr := ToolsFrom(s, w, iter, t.calls, 0, perm);
          ToolsEvents(s, w, iter, t.calls, perm);
          NoTerminalConcat(t.out, [PersistMessage(msg)]);
          var head := t.out + [PersistMessage(msg)] + tr.events;
          if tr.cancelled.Some? {
            EndsOnceAfter(t.out + [PersistMessage(msg)], tr.events);
          } else {
            var resMsg := NewToolResultMessage(s.sessionId, tr.results);
            NoTerminalConcat(t.out + [PersistMessage(msg)], tr.events);
            NoTerminalConcat(head, [PersistMessage(resMsg)]);
            RunEndsOnce(s, w, iter + 1, history + [msg, resMsg], tr.perm);
            EndsOnceAfter(head + [PersistMessage(resMsg)], RunFrom(s, w, iter + 1, history + [msg, resMsg], tr.perm).events);
          }
        }
      }
    }
  }

  /** One iteration whose reply holds tool calls, unfolded */
  lemma TurnWithTools(s: Setup, w: World, iter: nat, history: seq<Message>, perm: Permission.PermState, stream: seq<StreamEvent>)
    requires iter < s.maxIterations && w.cancelledBeforeTurn(iter).None?
    requires w.send(iter, RequestFor(s, history)) == Ok(stream)
    requires AccFrom(Fresh, stream).failed.None? && AccFrom(Fresh, stream).calls != []
    ensures var t := AccFrom(Fresh, stream);
      var msg := AssistantOf(s.sessionId, t);
      var tr := ToolsFrom(s, w, iter, t.calls, 0, perm);
      var head := t.out + [PersistMessage(msg)] + tr.events;
      var resMsg := NewToolResultMessage(s.sessionId, tr.results);
      var rest := RunFrom(s, w, iter + 1, history + [msg, resMsg], tr.perm);
      RunFrom(s, w, iter, history, perm) ==
        if tr.cancelled.Some? then Run(head, tr.perm, 1)
        else Run(head + [PersistMessage(resMsg)] + rest.events, rest.perm, 1 + rest.turns)
  {
  }

  /** Every iteration asks for tools: no cancellation, every request answered with a clean stream with calls */
  ghost predicate AlwaysTools(w: World)
  {
    && (forall i :: w.cancelledBeforeTurn(i).None?)
    && (forall i, j :: w.cancelledBeforeTool(i, j).None?)
    && (forall i, req :: w.send(i, req).Ok? && NoError(w.send(i, req).value) && AccFrom(Fresh, w.send(i, req).value).calls != [])
  }

  /** A model that always asks for tools exhausts the iterations and the run ends with the maximum-iterations error */
  lemma {:induction false} RunCap(s: Setup, w: World, iter: nat, history: seq<Message>, perm: Permission.PermState)
    requires AlwaysTools(w) && iter <= s.maxIterations
    ensures var r := RunFrom(s, w, iter, history, perm);
      && |r.events| > 0
      && r.events[|r.events| - 1] == AgentError(MaxIterationsError(s.maxIterations))
      && r.turns == s.maxIterations - iter
    decreases s.maxIterations - iter
  {
    if iter < s.maxIterations {
      var req := RequestFor(s, history);
      assert w.cancelledBeforeTurn(iter).None?;
      assert w.send(iter, req).Ok? && NoError(w.send(iter, req).value) && AccFrom(Fresh, w.send(iter, req).value).calls != [];
      var stream := w.send(iter, req).value;
      AccGrows(Fresh, stream);
      var t := AccFrom(Fresh, stream);
      var msg := AssistantOf(s.sessionId, t);
      assert forall k :: w.cancelledBeforeTool(iter, k).None?;
      ToolsNeverCancelled(s, w, iter, t.calls, 0, perm);
      var tr := ToolsFrom(s, w, iter, t.calls, 0, perm);
      var resMsg := NewToolResultMessage(s.sessionId, tr.results);
      TurnWithTools(s, w, iter, history, perm, stream);
      RunCap(s, w, iter + 1, history + [msg, resMsg], tr.perm);
      var rest := RunFrom(s, w, iter + 1, history + [msg, resMsg], tr.perm);
      var all := t.out + [PersistMessage(msg)] + tr.events + [PersistMessage(resMsg)] + rest.events;
      assert all[|all| - 1] == rest.events[|rest.events| - 1];
    }
  }

  lemma {:induction false} ToolsNeverCancelled(s: Setup, w: World, iter: nat, calls: seq<ToolCall>, j: nat, perm: Permission.PermState)
    requires forall k :: w.cancelledBeforeTool(iter, k).None?
    ensures ToolsFrom(s, w, iter, calls, j, perm).cancelled.None?
    decreases |calls| - j
  {
    if j < |calls| {
      var o := ExecuteOn(s.tools, s.mode, s.hasPerm, perm, calls[j], w.reply(iter, j), w.run(iter, j));
      ToolsNeverCancelled(s, w, iter, calls, j + 1, o.perm);
    }
  }

  /** A cancellation before any call from `j` on stops the tool calls of the turn */
  lemma {:induction false} ToolsCancelled(s: Setup, w: World, iter: nat, calls: seq<ToolCall>, j: nat, k: nat, perm: Permission.PermState)
    requires j <= k < |calls| && w.cancelledBeforeTool(iter, k).Some?
    ensures ToolsFrom(s, w, iter, calls, j, perm).cancelled.Some?
    decreases k - j
  {
    if w.cancelledBeforeTool(iter, j).None? {
      var o := ExecuteOn(s.tools, s.mode, s.hasPerm, perm, calls[j], w.reply(iter, j), w.run(iter, j));
      ToolsCancelled(s, w, iter, calls, j + 1, k, o.perm);
    }
  }

  /** Exactly one terminal event, last, and it is an AgentError: no AgentDone is sent */
  predicate EndsInError(es: seq<AgentEvent>)
  {
    EndsOnce(es) && es[|es| - 1].AgentError?
  }

  /**
   * A cancellation at the top of an iteration, a request that cannot be
   * sent, or an Error event in the stream ends the run with an AgentError.
   */
  lemma RunStops(s: Setup, w: World, iter: nat, history: seq<Message>, perm: Permission.PermState)
    requires iter < s.maxIterations
    ensures var r := RunFrom(s, w, iter, history, perm);
      var c := w.cancelledBeforeTurn(iter);
      var sent := w.send(iter, RequestFor(s, history));
      && (c.Some? ==> r.events == [AgentError(c.value)] && r.turns == 0)
      && (c.None? && sent.Err? ==> r.events == [AgentError("LLM request failed: " + sent.error)] && r.turns == 1)
      && (c.None? && sent.Ok? && !NoError(sent.value) ==>
            && r.turns == 1 && EndsInError(r.events) && AccFrom(Fresh, sent.value).failed.Some?
            && r.events[|r.events| - 1] == AgentError(AccFrom(Fresh, sent.value).failed.value))
  {
    RunEndsOnce(s, w, iter, history, perm);
    var sent := w.send(iter, RequestFor(s, history));
    if w.cancelledBeforeTurn(iter).None? && sent.Ok? && !NoError(sent.value) {
      AccGrows(Fresh, sent.value);
      AccFailure(Fresh, sent.value);
    }
  }

  /**
   * A cancellation before one of the tool calls of a clean reply ends the
   * run with an AgentError after the assistant message is persisted.
   */
  lemma RunToolCancelled(s: Setup, w: World, iter: nat, history: seq<Message>, perm: Permission.PermState, k: nat)
    requires iter < s.maxIterations && w.cancelledBeforeTurn(iter).None?
    requires w.send(iter, RequestFor(s, history)).Ok?
    requires var stream := w.send(iter, RequestFor(s, history)).value;
      NoError(stream) && k < |AccFrom(Fresh, stream).calls|
    requires w.cancelledBeforeTool(iter, k).Some?
    ensures var stream := w.send(iter, RequestFor(s, history)).value;
      var t := AccFrom(Fresh, stream);
      var r := RunFrom(s, w, iter, history, perm);
      && r.turns == 1 && EndsInError(r.events)
      && |r.events| > |t.out| && r.events[|t.out|] == PersistMessage(AssistantOf(s.sessionId, t))
  {
    var stream := w.send(iter, RequestFor(s, history)).value;
    AccGrows(Fresh, stream);
    var t := AccFrom(Fresh, stream);
    ToolsCancelled(s, w, iter, t.calls, 0, k, perm);
    var tr := ToolsFrom(s, w, iter, t.calls, 0, perm);
    ToolsShape(s, w, iter, t.calls, 0, perm);
    TurnWithTools(s, w, iter, history, perm, stream);
    RunEndsOnce(s, w, iter, history, perm);
    var all := t.out + [PersistMessage(AssistantOf(s.sessionId, t))] + tr.events;
    assert all[|all| - 1] == tr.events[|tr.events| - 1];
    assert all[|t.out|] == PersistMessage(AssistantOf(s.sessionId, t));
  }

  /**
   * A clean reply without tool calls ends the run: its events are
   * forwarded, then one AgentDone whose message carries the streamed text
   * and the last reported usage.
   */
  lemma FinalAnswer(s: Setup, w: World, iter: nat, history: seq<Message>, perm: Permission.PermState)
    requires iter < s.maxIterations && w.cancelledBeforeTurn(iter).None?
    requires w.send(iter, RequestFor(s, history)).Ok?
    requires var stream := w.send(iter, RequestFor(s, history)).value;
      NoError(stream) && AccFrom(Fresh, stream).calls == []
    ensures var stream := w.send(iter, RequestFor(s, history)).value;
      var r := RunFrom(s, w, iter, history, perm);
      && r.turns == 1 && r.perm == perm && |r.events| > 0
      && AllStreamed(r.events[..|r.events| - 1])
      && r.events[|r.events| - 1].AgentDone?
      && var m := r.events[|r.events| - 1].message;
      && m.role == Assistant && m.toolCalls == []
      && m.content == Texts(stream)
      && m.inputTokens == LastUsage(NoUsage, stream).inputTokens
      && m.outputTokens == LastUsage(NoUsage, stream).outputTokens
      && m.totalTokens == LastUsage(NoUsage, stream).totalTokens
  {
    var stream := w.send(iter, RequestFor(s, history)).value;
    AccText(Fresh, stream);
    AccUsage(Fresh, stream);
    AccEvents(Fresh, stream);
    var t := AccFrom(Fresh, stream);
    assert t.out[|Fresh.out|..] == t.out;
    assert (t.out + [AgentDone(AssistantOf(s.sessionId, t))])[..|t.out|] == t.out;
  }

  /**
   * A clean reply with tool calls: the forwarded events, then the assistant
   * message to persist, then one result event per call in call order, then
   * the tool-result message to persist, whose results answer the calls one
   * by one; the next iteration sees both messages appended to the history.
   */
  lemma ToolTurn(s: Setup, w: World, iter: nat, history: seq<Message>, perm: Permission.PermState)
    requires iter < s.maxIterations && w.cancelledBeforeTurn(iter).None?
    requires w.send(iter, RequestFor(s, history)).Ok?
    requires var stream := w.send(iter, RequestFor(s, history)).value;
      NoError(stream) && AccFrom(Fresh, stream).calls != []
    requires forall k :: w.cancelledBeforeTool(iter, k).None?
    ensures var stream := w.send(iter, RequestFor(s, history)).value;
      var t := AccFrom(Fresh, stream);
      var msg := AssistantOf(s.sessionId, t);
      var tr := ToolsFrom(s, w, iter, t.calls, 0, perm);
      var resMsg := NewToolResultMessage(s.sessionId, tr.results);
      var r := RunFrom(s, w, iter, history, perm);
      var n := |t.calls|;
      var p := |t.out|;
      && |r.events| > p + n + 1
      && r.events[..p] == t.out
      && r.events[p] == PersistMessage(msg)
      && msg.toolCalls == t.calls
      && |resMsg.toolResults| == n
      && (forall k :: 0 <= k < n ==>
            && resMsg.toolResults[k].toolCallId == t.calls[k].id
            && r.events[p + 1 + k] == ResultEvent(t.calls[k], resMsg.toolResults[k]))
      && r.events[p + 1 + n] == PersistMessage(resMsg)
      && r.events[p + n + 2..] == RunFrom(s, w, iter + 1, history + [msg, resMsg], tr.perm).events
  {
    var stream := w.send(iter, RequestFor(s, history)).value;
    AccGrows(Fresh, stream);
    var t := AccFrom(Fresh, stream);
    ToolsNeverCancelled(s, w, iter, t.calls, 0, perm);
    ToolsShape(s, w, iter, t.calls, 0, perm);
    var tr := ToolsFrom(s, w, iter, t.calls, 0, perm);
    var msg := AssistantOf(s.sessionId, t);
    var resMsg := NewToolResultMessage(s.sessionId, tr.results);
    var rest := RunFrom(s, w, iter + 1, history + [msg, resMsg], tr.perm);
    RunEndsOnce(s, w, iter + 1, history + [msg, resMsg], tr.perm);
    TurnWithTools(s, w, iter, history, perm, stream);
    assert tr.cancelled.None?;
    assert RunFrom(s, w, iter, history, perm).events ==
      t.out + [PersistMessage(msg)] + tr.events + [PersistMessage(resMsg)] + rest.events;
    Layout(t.out, PersistMessage(msg), tr.events, PersistMessage(resMsg), rest.events);
  }

  /** Over a whole run the session allowlist only grows and the request log only gets longer */
  lemma {:induction false} RunPermission(s: Setup, w: World, iter: nat, history: seq<Message>, perm: Permission.PermState)
    ensures var r := RunFrom(s, w, iter, history, perm);
      && Permission.Grows(perm, r.perm)
      && (s.mode == "plan" ==> r.perm == perm)
    decreases s.maxIterations - iter
  {
    if iter < s.maxIterations && w.cancelledBeforeTurn(iter).None? && w.send(iter, RequestFor(s, history)).Ok? {
      var stream := w.send(iter, RequestFor(s, history)).value;
      var t := AccFrom(Fresh, stream);
      if t.failed.None? && t.calls != [] {
        var msg := AssistantOf(s.sessionId, t);
        var tr := ToolsFrom(s, w, iter, t.calls, 0, perm);
        ToolsPermission(s, w, iter, t.calls, 0, perm);
        if tr.cancelled.None? {
          var resMsg := NewToolResultMessage(s.sessionId, tr.results);
          RunPermission(s, w, iter + 1, history + [msg, resMsg], tr.perm);
          Permission.GrowsTransitive(perm, tr.perm, RunFrom(s, w, iter + 1, history + [msg, resMsg], tr.perm).perm);
        }
      }
    }
  }


  // ---------------------------------------------------------------------
  // The agent
  // ---------------------------------------------------------------------

  /** Construction parameters; the provider is the `World`'s `send` */
  datatype Config = Config(workDir: string, mode: string, maxTokens: int, maxIterations: int)

  /** Reads one provider stream, forwarding its events; reading stops at an Error event */
  method ReadStream(stream: seq<StreamEvent>) returns (st: TurnState)
    ensures st == AccFrom(Fresh, stream)
  {
    st := Fresh;
    var i := 0;
    while i < |stream|
      invariant 0 <= i <= |stream|
      invariant st.failed.None?
      invariant AccFrom(Fresh, stream) == AccFrom(st, stream[i..])
      decreases |stream| - i
    {
      assert AccFrom(st, stream[i..]) == AccFrom(Absorb(st, stream[i]), stream[i + 1..]);
      match stream[i] {
      case TextDelta(text) =>
        st := st.(text := st.text + text, out := st.out + [StreamText(text)]);
      case ToolCallStart(id, name) =>
        st := st.(pending := st.pending[id := Pending(id, name, "")], out := st.out + [ToolCallStarted(id, name)]);
      case ToolCallDelta(id, _, input) =>
        if id in st.pending {
          var p := st.pending[id];
          st := st.(pending := st.pending[id := p.(args := p.args + input)]);
        }
      case ToolCallEnd(id, _, input) =>
        if id in st.pending {
          var p := st.pending[id];
          var final := p.args;
          if input != "" {
            final := input;
          }
          st := st.(calls := st.calls + [ToolCall(p.id, p.name, final)],
                    out := st.out + [ToolCallEnded(p.id, p.name, final)],
                    pending := st.pending - {id});
        }
      case Error(e) =>
        st := st.(out := st.out + [AgentError(e)], failed := Some(e));
        return;
      case Done(u) =>
        st := st.(usage := u);
      }
      i := i + 1;
    }
  }

  class Agent {
    var registry: Registry
    var permSvc: Permission.Service?
    var workDir: string
    var mode: string
    var maxTokens: int
    var maxIterations: int

    ghost predicate Valid()
      reads this, registry
    {
      registry.Valid() && maxIterations > 0
    }

    /** The permission state; without a service nobody is ever asked */
    ghost function PermOf(): Permission.PermState
      reads this, permSvc
    {
      if permSvc == null then Permission.PermState(map[], []) else permSvc.State()
    }

    /** What a run of this agent knows, given the session and the system prompt */
    ghost function SetupOf(sessionId: string, systemPrompt: string): (s: Setup)
      requires Valid()
      reads this, registry
    {
      Setup(registry.tools, mode, permSvc != null, systemPrompt,
            ToolDefsFor(registry.Contents(), mode), maxTokens, maxIterations, sessionId)
    }

    /** A non-positive iteration limit means the default */
    constructor New(cfg: Config, registry: Registry, permSvc: Permission.Service?)
      requires registry.Valid()
      ensures Valid()
      ensures this.registry == registry && this.permSvc == permSvc
      ensures workDir == cfg.workDir && mode == cfg.mode && maxTokens == cfg.maxTokens
      ensures maxIterations == if cfg.maxIterations <= 0 then DefaultMaxIterations else cfg.maxIterations
    {
      var maxIter := cfg.maxIterations;
      if maxIter <= 0 {
        maxIter := DefaultMaxIterations;
      }
      this.registry := registry;
      this.permSvc := permSvc;
      workDir := cfg.workDir;
      mode := cfg.mode;
      maxTokens := cfg.maxTokens;
      maxIterations := maxIter;
    }

    method SetMode(mode: string)
      modifies this
      ensures this.mode == mode
      ensures registry == old(registry) && permSvc == old(permSvc) && workDir == old(workDir)
      ensures maxTokens == old(maxTokens) && maxIterations == old(maxIterations)
    {
      this.mode := mode;
    }

    /** The definitions of the registered tools, leaving out in plan mode those that need permission */
    method BuildToolDefs() returns (defs: seq<ToolDefinition>)
      requires Valid()
      ensures defs == ToolDefsFor(registry.Contents(), mode)
    {
      var all := registry.All();
      defs := [];
      for i := 0 to |all|
        invariant defs == ToolDefsFor(all[..i], mode)
      {
        assert all[..i + 1][..i] == all[..i];
        var t := all[i];
        if mode == "plan" && t.requiresPermission {
          continue;
        }
        defs := defs + [Definition(t)];
      }
      assert all[..|all|] == all;
    }

    /** Runs one tool call, asking the permission service when the tool needs it */
    method ExecuteTool(tc: ToolCall, reply: Permission.Rendezvous, run: Outcome) returns (result: ToolResult)
      requires Valid()
      modifies permSvc
      ensures var o := ExecuteOn(registry.tools, mode, permSvc != null, old(PermOf()), tc, reply, run);
        result == o.result && PermOf() == o.perm
    {
      var found := registry.Get(tc.name);
      if found.None? {
        return ToolResult(tc.id, tc.name, UnknownToolError(tc.name), true);
      }
      var tool := found.value;
      if mode == "plan" && tool.requiresPermission {
        return ToolResult(tc.id, tc.name, PlanModeError(tc.name), true);
      }
      if tool.requiresPermission && permSvc != null {
        var resp := permSvc.Check(tc.name, tc.input, reply);
        if resp == Permission.Deny {
          return ToolResult(tc.id, tc.name, PermissionDenied, true);
        }
      }
      match run
      case Failure(e) =>
        result := ToolResult(tc.id, tc.name, "Error: " + e, true);
      case Output(out) =>
        result := ToolResult(tc.id, tc.name, out, false);
    }

    /** Runs the calls of one iteration in order, stopping when the context is cancelled */
    method RunTools(ghost s: Setup, w: World, iter: nat, calls: seq<ToolCall>)
      returns (events: seq<AgentEvent>, results: seq<ToolResult>, cancelled: Option<string>)
      requires Valid()
      requires s.tools == registry.tools && s.mode == mode && s.hasPerm == (permSvc != null)
      modifies permSvc
      ensures ToolsRun(events, results, PermOf(), cancelled) == ToolsFrom(s, w, iter, calls, 0, old(PermOf()))
    {
      events, results, cancelled := [], [], None;
      ghost var total := ToolsFrom(s, w, iter, calls, 0, PermOf());
      for j := 0 to |calls|
        invariant Valid()
        invariant cancelled.None?
        invariant total == Joined(events, results, ToolsFrom(s, w, iter, calls, j, PermOf()))
      {
        events, results, cancelled := RunTool(s, w, iter, calls, j, events, results);
        if cancelled.Some? {
          return;
        }
      }
      ToolsDone(s, w, iter, calls, PermOf(), events, results);
    }

    /**
     * One pass of RunTools' loop: unless the context is cancelled, call j
     * runs and its result is recorded.
     */
    method RunTool(ghost s: Setup, w: World, iter: nat, calls: seq<ToolCall>, j: nat,
                   events: seq<AgentEvent>, results: seq<ToolResult>)
      returns (events': seq<AgentEvent>, results': seq<ToolResult>, cancelled: Option<string>)
      requires Valid()
      requires s.tools == registry.tools && s.mode == mode && s.hasPerm == (permSvc != null)
      requires j < |calls|
      modifies permSvc
      ensures cancelled == w.cancelledBeforeTool(iter, j)
      ensures var before := ToolsFrom(s, w, iter, calls, j, old(PermOf()));
        cancelled.Some? ==>
          Joined(events, results, before) == ToolsRun(events', results', PermOf(), cancelled)
      ensures var before := ToolsFrom(s, w, iter, calls, j, old(PermOf()));
        var after := ToolsFrom(s, w, iter, calls, j + 1, PermOf());
        cancelled.None? ==> Joined(events, results, before) == Joined(events', results', after)
    {
      cancelled := w.cancelledBeforeTool(iter, j);
      if cancelled.Some? {
        events', results' := events + [AgentError(cancelled.value)], results;
        return;
      }
      ghost var o := ExecuteOn(s.tools, s.mode, s.hasPerm, PermOf(), calls[j], w.reply(iter, j), w.run(iter, j));
      ToolsStep(s, w, iter, calls, j, PermOf(), o);
      var result := ExecuteTool(calls[j], w.reply(iter, j), w.run(iter, j));
      ToolsShift(events, results, ResultEvent(calls[j], result), result, ToolsFrom(s, w, iter, calls, j + 1, PermOf()));
      events' := events + [ResultEvent(calls[j], result)];
      results' := results + [result];
    }

    /**
     * One iteration of the loop: check the context, send the history, read
     * the stream, then either finish or run the tool calls and extend the
     * history. `finished` says whether the run ends with this iteration.
     */
    method Iterate(ghost s: Setup, w: World, iteration: nat, current: seq<Message>,
                   sessionId: string, systemPrompt: string, toolDefs: seq<ToolDefinition>)
      returns (out: seq<AgentEvent>, next: seq<Message>, finished: bool)
      requires Valid() && s == SetupOf(sessionId, systemPrompt) && toolDefs == s.toolDefs
      requires iteration < maxIterations
      modifies permSvc
      ensures var r := RunFrom(s, w, iteration, current, old(PermOf()));
        && (finished ==> r.events == out && r.perm == PermOf())
        && (!finished ==>
              var rest := RunFrom(s, w, iteration + 1, next, PermOf());
              r.events == out + rest.events && r.perm == rest.perm)
    {
      next := current;
      var c := w.cancelledBeforeTurn(iteration);
      if c.Some? {
        return [AgentError(c.value)], next, true;
      }
      var req := Request(systemPrompt, current, toolDefs, maxTokens);
      assert req == RequestFor(s, current);
      var sent := w.send(iteration, req);
      if sent.Err? {
        return [AgentError("LLM request failed: " + sent.error)], next, true;
      }
      var t := ReadStream(sent.value);
      out := t.out;
      if t.failed.Some? {
        return out, next, true;
      }
      var msg := NewAssistantMessage(sessionId, t.text, t.calls);
      msg := msg.(inputTokens := t.usage.inputTokens, outputTokens := t.usage.outputTokens,
                  totalTokens := t.usage.totalTokens);
      assert msg == AssistantOf(sessionId, t);
      if |t.calls| == 0 {
        return out + [AgentDone(msg)], next, true;
      }
      ghost var perm0 := PermOf();
      TurnWithTools(s, w, iteration, current, perm0, sent.value);
      out := out + [PersistMessage(msg)];
      var toolEvents, results, cancelled := RunTools(s, w, iteration, t.calls);
      assert ToolsFrom(s, w, iteration, t.calls, 0, perm0) == ToolsRun(toolEvents, results, PermOf(), cancelled);
      out := out + toolEvents;
      if cancelled.Some? {
        return out, next, true;
      }
      var resultMsg := NewToolResultMessage(sessionId, results);
      next := current + [msg, resultMsg];
      out := out + [PersistMessage(resultMsg)];
      finished := false;
    }

    /**
     * The agent loop for one user turn. The system prompt is an input: it
     * is built from the mode, the working directory and the registry
     * outside this model.
     */
    method RunLoop(history: seq<Message>, sessionId: string, systemPrompt: string, w: World)
      returns (events: seq<AgentEvent>)
      requires Valid()
      modifies permSvc
      ensures var r := RunFrom(SetupOf(sessionId, systemPrompt), w, 0, history, old(PermOf()));
        events == r.events && PermOf() == r.perm
    {
      ghost var s := SetupOf(sessionId, systemPrompt);
      ghost var goal := RunFrom(s, w, 0, history, PermOf());
      var toolDefs := BuildToolDefs();
      var current := history;
      events := [];
      var iteration := 0;
      while iteration < maxIterations
        invariant 0 <= iteration <= maxIterations
        invariant Valid() && s == SetupOf(sessionId, systemPrompt)
        invariant var r := RunFrom(s, w, iteration, current, PermOf());
          goal.events == events + r.events && goal.perm == r.perm
        decreases maxIterations - iteration
      {
        var out, next, finished := Iterate(s, w, iteration, current, sessionId, systemPrompt, toolDefs);
        ConcatAssoc(events, out, RunFrom(s, w, iteration + 1, next, PermOf()).events);
        events := events + out;
        if finished {
          return;
        }
        current := next;
        iteration := iteration + 1;
      }
      events := events + [AgentError(MaxIterationsError(maxIterations))];
    }
  }
}
