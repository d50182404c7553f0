/**
 * The OpenAI provider (Responses API): which models it offers, how a
 * request and the message history are translated into the API's input
 * items, and how the server-sent event stream is decoded into the
 * provider-agnostic `StreamEvent`s.
 *
 * HTTP and JSON are not modelled: the transport's outcome and the already
 * parsed wire events are inputs.
 */
module OpenAI {

  import opened Text
  import opened Messages
  import opened Tools
  import opened Provider

  // ---------------------------------------------------------------------
  // Models
  // ---------------------------------------------------------------------

  /** Prefixes of the model ids usable for text generation */
  const SupportedModelPrefixes: seq<string> := ["gpt-", "o1", "o3", "o4", "chatgpt-"]

  function HasAnyPrefix(id: string, prefixes: seq<string>): (b: bool)
    ensures b <==> exists i :: 0 <= i < |prefixes| && HasPrefix(id, prefixes[i])
  {
    if prefixes == [] then false
    else HasPrefix(id, prefixes[0]) || HasAnyPrefix(id, prefixes[1..])
  }

  function IsSupportedModel(id: string): (b: bool)
    ensures b <==> HasPrefix(id, "gpt-") || HasPrefix(id, "o1") || HasPrefix(id, "o3")
                   || HasPrefix(id, "o4") || HasPrefix(id, "chatgpt-")
  {
    var ps := SupportedModelPrefixes;
    assert ps[0] == "gpt-" && ps[1] == "o1" && ps[2] == "o3" && ps[3] == "o4" && ps[4] == "chatgpt-";
    HasAnyPrefix(id, ps)
  }

  /** The supported ids among `ids`, in their order */
  function SupportedOnly(ids: seq<string>): (r: seq<string>)
    ensures forall m :: m in r <==> m in ids && IsSupportedModel(m)
    ensures multiset(r) <= multiset(ids)
    // every supported id is kept as often as it is listed, every other one dropped
    ensures forall m :: multiset(r)[m] == if IsSupportedModel(m) then multiset(ids)[m] else 0
  {
    if ids == [] then []
    else
      var rest := SupportedOnly(ids[..|ids| - 1]);
      assert ids == ids[..|ids| - 1] + [ids[|ids| - 1]];
      if IsSupportedModel(ids[|ids| - 1]) then rest + [ids[|ids| - 1]] else rest
  }

  /** One entry of the models listing */
  datatype ModelEntry = ModelEntry(id: string, ownedBy: string)

  /** An HTTP status other than 200 OK */
  type ErrorStatus = code: nat | code != 200 witness 404

  /** How fetching the models listing ended */
  datatype ModelsReply =
    | FetchFailed(error: string)                      // the request could not be sent
    | ModelsStatus(code: ErrorStatus, body: string)   // a status other than 200, with the body
    | ModelsBody(entries: Result<seq<ModelEntry>>)    // status 200: the decoded listing, or the decoding error

  /** The supported model ids of a listing, sorted ascending */
  method SupportedSorted(entries: seq<ModelEntry>) returns (models: seq<string>)
    ensures Sorted(models)
    ensures multiset(models) == multiset(SupportedOnly(IdsOf(entries)))
    ensures forall m :: m in models <==> m in IdsOf(entries) && IsSupportedModel(m)
  {
    var kept: seq<string> := [];
    for i := 0 to |entries|
      invariant kept == SupportedOnly(IdsOf(entries[..i]))
    {
      SupportedOnlyStep(entries, i);
      if IsSupportedModel(entries[i].id) {
        kept := kept + [entries[i].id];
      }
    }
    assert entries[..|entries|] == entries;
    models := SortStrings(kept);
    forall m
      ensures m in models <==> m in kept
    {
      assert m in models <==> m in multiset(models);
      assert m in kept <==> m in multiset(kept);
    }
  }

  /** Filtering one more entry keeps it exactly when it is supported */
  lemma SupportedOnlyStep(entries: seq<ModelEntry>, i: nat)
    requires i < |entries|
    ensures SupportedOnly(IdsOf(entries[..i + 1])) ==
      SupportedOnly(IdsOf(entries[..i])) + if IsSupportedModel(entries[i].id) then [entries[i].id] else []
  {
    var ids := IdsOf(entries[..i + 1]);
    assert ids[..i] == IdsOf(entries[..i]);
    assert ids[i] == entries[i].id;
  }

  function IdsOf(entries: seq<ModelEntry>): (r: seq<string>)
    ensures |r| == |entries| && forall i :: 0 <= i < |r| ==> r[i] == entries[i].id
  {
    seq(|entries|, i requires 0 <= i < |entries| => entries[i].id)
  }

  // ---------------------------------------------------------------------
  // Requests
  // ---------------------------------------------------------------------

  /** An item of the Responses API's input array */
  datatype InputItem =
    | RoleContent(role: string, content: string)
    | FunctionCall(callId: string, name: string, arguments: string)
    | FunctionCallOutput(callId: string, output: string)

  function CallItem(tc: ToolCall): InputItem
  {
    FunctionCall(tc.id, tc.name, tc.input)
  }

  function ResultItem(tr: ToolResult): InputItem
  {
    FunctionCallOutput(tr.toolCallId, tr.output)
  }

  /** The items of an assistant message's tool calls, in order */
  function CallItems(calls: seq<ToolCall>): (r: seq<InputItem>)
    ensures |r| == |calls|
    ensures forall j :: 0 <= j < |calls| ==> r[j] == FunctionCall(calls[j].id, calls[j].name, calls[j].input)
  {
    seq(|calls|, j requires 0 <= j < |calls| => CallItem(calls[j]))
  }

  /** The items of a tool message's results, in order */
  function ResultItems(results: seq<ToolResult>): (r: seq<InputItem>)
    ensures |r| == |results|
    ensures forall j :: 0 <= j < |results| ==> r[j] == FunctionCallOutput(results[j].toolCallId, results[j].output)
  {
    seq(|results|, j requires 0 <= j < |results| => ResultItem(results[j]))
  }

  /** The input items one message becomes */
  function ItemsOf(m: Message): (items: seq<InputItem>)
    ensures m.role == User ==> items == [RoleContent("user", m.content)]
    ensures m.role == System ==> items == [RoleContent("developer", m.content)]
    ensures m.role == Assistant && m.content != "" ==> items == [RoleContent("assistant", m.content)] + CallItems(m.toolCalls)
    ensures m.role == Assistant && m.content == "" ==> items == CallItems(m.toolCalls)
    ensures m.role == Role.Tool ==> items == ResultItems(m.toolResults)
  {
    match m.role
    case User => [RoleContent("user", m.content)]
    case Assistant =>
      (if m.content != "" then [RoleContent("assistant", m.content)] else []) + CallItems(m.toolCalls)
    case Tool => ResultItems(m.toolResults)
    case System => [RoleContent("developer", m.content)]
  }

  /** The input items of a message history: each message's items, in message order */
  function InputOf(msgs: seq<Message>): seq<InputItem>
  {
    if msgs == [] then [] else InputOf(msgs[..|msgs| - 1]) + ItemsOf(msgs[|msgs| - 1])
  }

  /** Translating a history is translating its parts: message order is kept */
  lemma {:induction false} InputOfAppend(a: seq<Message>, b: seq<Message>)
    ensures InputOf(a + b) == InputOf(a) + InputOf(b)
    decreases |b|
  {
    if b == [] {
      assert a + b == a;
    } else {
      var b' := b[..|b| - 1];
      var last := b[|b| - 1];
      assert (a + b)[..|a + b| - 1] == a + b';
      assert (a + b)[|a + b| - 1] == last;
      InputOfAppend(a, b');
      assert InputOf(a + b) == InputOf(a + b') + ItemsOf(last);
      assert InputOf(b) == InputOf(b') + ItemsOf(last);
      ConcatAssoc(InputOf(a), InputOf(b'), ItemsOf(last));
    }
  }

  /** Every message yields at least one item, except empty assistant and tool messages */
  lemma {:induction false} InputOfLength(msgs: seq<Message>)
    ensures |InputOf(msgs)| >= |msgs| - CountSilent(msgs)
  {
    if msgs != [] {
      InputOfLength(msgs[..|msgs| - 1]);
    }
  }

  /** The messages that translate to no item: assistant messages with no text and no calls, tool messages with no results */
  function CountSilent(msgs: seq<Message>): nat
  {
    if msgs == [] then 0
    else
      var m := msgs[|msgs| - 1];
      CountSilent(msgs[..|msgs| - 1])
      + (if (m.role == Assistant && m.content == "" && m.toolCalls == []) || (m.role == Role.Tool && m.toolResults == []) then 1 else 0)
  }

  /** buildInput: the request's messages translated in order; the system prompt is not an item */
  method BuildInput(req: Request) returns (items: seq<InputItem>)
    ensures items == InputOf(req.messages)
  {
    items := [];
    var msgs := req.messages;
    for i := 0 to |msgs|
      invariant items == InputOf(msgs[..i])
    {
      assert msgs[..i + 1][..i] == msgs[..i];
      items := AppendItems(items, msgs[i]);
    }
    assert msgs[..|msgs|] == msgs;
  }

  /** One iteration of buildInput's loop: the items of one message appended */
  method AppendItems(items: seq<InputItem>, msg: Message) returns (r: seq<InputItem>)
    ensures r == items + ItemsOf(msg)
  {
    match msg.role {
      case User =>
        r := items + [RoleContent("user", msg.content)];
      case Assistant =>
        r := items;
        if msg.content != "" {
          r := r + [RoleContent("assistant", msg.content)];
        }
        r := AppendCalls(r, msg.toolCalls);
        ConcatAssoc(items, if msg.content != "" then [RoleContent("assistant", msg.content)] else [], CallItems(msg.toolCalls));
      case Tool =>
        r := AppendResults(items, msg.toolResults);
      case System =>
        r := items + [RoleContent("developer", msg.content)];
    }
  }

  /** The loop over an assistant message's tool calls */
  method AppendCalls(items: seq<InputItem>, calls: seq<ToolCall>) returns (r: seq<InputItem>)
    ensures r == items + CallItems(calls)
  {
    r := items;
    for j := 0 to |calls|
      invariant r == items + CallItems(calls[..j])
    {
      assert CallItems(calls[..j + 1]) == CallItems(calls[..j]) + [CallItem(calls[j])];
      r := r + [CallItem(calls[j])];
    }
    assert calls[..|calls|] == calls;
  }

  /** The loop over a tool message's results */
  method AppendResults(items: seq<InputItem>, results: seq<ToolResult>) returns (r: seq<InputItem>)
    ensures r == items + ResultItems(results)
  {
    r := items;
    for j := 0 to |results|
      invariant r == items + ResultItems(results[..j])
    {
      assert ResultItems(results[..j + 1]) == ResultItems(results[..j]) + [ResultItem(results[j])];
      r := r + [ResultItem(results[j])];
    }
    assert results[..|results|] == results;
  }

  /** A request with no positive token limit is sent with 4096 */
  function EffectiveMaxTokens(maxTokens: int): (r: int)
    ensures r > 0
    ensures maxTokens > 0 ==> r == maxTokens
    ensures maxTokens <= 0 ==> r == 4096
  {
    if maxTokens <= 0 then 4096 else maxTokens
  }

  /** A tool in the Responses API's flat format */
  datatype RespTool = RespTool(kind: string, name: string, description: string, parameters: Schema)

  /** The body of a Responses API request */
  datatype RespRequest = RespRequest(
    model: string,
    instructions: string,
    input: seq<InputItem>,
    tools: seq<RespTool>,
    stream: bool,
    maxOutputTokens: int,
    store: bool)

  // ---------------------------------------------------------------------
  // The stream decoder
  // ---------------------------------------------------------------------

  /** An item of the response output, as carried by output_item events */
  datatype OutputItem = OutputItem(id: string, kind: string, name: string, callId: string, arguments: string)

  datatype ApiError = ApiError(message: string, code: string)

  /** The response object carried by response-level events */
  datatype ResponseBody = ResponseBody(id: string, status: string, error: Option<ApiError>)

  /** The event types the decoder acts on; every other type is ignored */
  datatype EventType =
    | OutputTextDelta | OutputItemAdded | ArgumentsDelta | ArgumentsDone | OutputItemDone
    | Completed | Failed | Incomplete | OtherType

  /** The event type named by an event's "type" field */
  function TypeOf(kind: string): EventType
  {
    match kind
    case "response.output_text.delta" => OutputTextDelta
    case "response.output_item.added" => OutputItemAdded
    case "response.function_call_arguments.delta" => ArgumentsDelta
    case "response.function_call_arguments.done" => ArgumentsDone
    case "response.output_item.done" => OutputItemDone
    case "response.completed" => Completed
    case "response.failed" => Failed
    case "response.incomplete" => Incomplete
    case _ => OtherType
  }

  /** The name an acted-on type has on the wire */
  function TypeName(t: EventType): (name: string)
    requires !t.OtherType?
    ensures TypeOf(name) == t
  {
    match t
    case OutputTextDelta => "response.output_text.delta"
    case OutputItemAdded => "response.output_item.added"
    case ArgumentsDelta => "response.function_call_arguments.delta"
    case ArgumentsDone => "response.function_call_arguments.done"
    case OutputItemDone => "response.output_item.done"
    case Completed => "response.completed"
    case Failed => "response.failed"
    case Incomplete => "response.incomplete"
  }

  /**
   * A decoded server-sent event. `item` and `response` are None when the
   * field is absent or does not decode as an output item or response body.
   */
  datatype WireEvent = WireEvent(
    kind: string,
    item: Option<OutputItem>,
    delta: string,
    itemId: string,
    response: Option<ResponseBody>)

  /**
   * One line of the event stream, as the scanner delivers it. `cancelled`
   * is the context's error when the line is read; `data` is the decoding of
   * the text after "data: " (None when that text is not a valid event).
   */
  datatype Line = Line(cancelled: Option<string>, text: string, data: Option<WireEvent>)

  /** A function call being assembled, keyed by its output item id */
  datatype CallState = CallState(id: string, name: string, arguments: string, started: bool)

  const Placeholder := CallState("", "", "", false)

  /** What handling one line does */
  datatype Step =
    | Continue(calls: map<string, CallState>, emitted: seq<StreamEvent>)
    | Complete(calls: map<string, CallState>)     // response.completed: flush, then Done
    | Finish(terminal: StreamEvent)               // the stream ends with this event

  /** The lines the decoder looks at: all others are skipped */
  predicate IsDataLine(text: string)
  {
    text != "" && !HasPrefix(text, ":") && !HasPrefix(text, "event: ") && HasPrefix(text, "data: ")
  }

  /** The effect of one decoded event on the open calls */
  function StepEvent(calls: map<string, CallState>, evt: WireEvent): (r: Step)
    ensures r.Continue? ==> forall e :: e in r.emitted ==> !e.IsTerminal()
    ensures r.Continue? ==> |r.emitted| <= 2
    ensures r.Complete? <==> TypeOf(evt.kind) == Completed
    ensures r.Complete? ==> r.calls == calls
    ensures r.Finish? <==> TypeOf(evt.kind) in {Failed, Incomplete}
    ensures r.Finish? ==> r.terminal.Error?
  {
    match TypeOf(evt.kind)
    case OutputTextDelta =>
      Continue(calls, if evt.delta != "" then [TextDelta(evt.delta)] else [])
    case OutputItemAdded =>
      if evt.item.Some? && evt.item.value.kind == "function_call" then
        var item := evt.item.value;
        var st := CallState(item.callId, item.name, "", item.callId != "" && item.name != "");
        Continue(calls[item.id := st], if st.started then [ToolCallStart(st.id, st.name)] else [])
      else Continue(calls, [])
    case ArgumentsDelta =>
      if evt.delta != "" then
        var st := if evt.itemId in calls then calls[evt.itemId] else Placeholder;
        Continue(calls[evt.itemId := st.(arguments := st.arguments + evt.delta)],
                 [ToolCallDelta(st.id, st.name, evt.delta)])
      else Continue(calls, [])
    case ArgumentsDone =>
      if evt.itemId in calls then
        var st := calls[evt.itemId];
        var args := if evt.delta != "" then evt.delta else st.arguments;
        Continue(calls - {evt.itemId}, [ToolCallEnd(st.id, st.name, args)])
      else Continue(calls, [])
    case OutputItemDone =>
      if evt.item.Some? && evt.item.value.kind == "function_call" && evt.item.value.id in calls then
        var item := evt.item.value;
        var st := calls[item.id];
        var args := if item.arguments != "" then item.arguments else st.arguments;
        Continue(calls - {item.id},
                 (if !st.started then [ToolCallStart(item.callId, item.name)] else [])
                 + [ToolCallEnd(item.callId, item.name, args)])
      else Continue(calls, [])
    case Completed => Complete(calls)
    case Failed =>
      if evt.response.Some? && evt.response.value.error.Some? then
        var err := evt.response.value.error.value;
        Finish(Error("OpenAI API error (" + err.code + "): " + err.message))
      else Finish(Error("response failed"))
    case Incomplete => Finish(Error("response incomplete (model stopped early)"))
    case OtherType => Continue(calls, [])
  }

  /** The effect of one scanned line */
  function StepLine(calls: map<string, CallState>, line: Line): (r: Step)
    ensures line.cancelled.Some? ==> r == Finish(Error(line.cancelled.value))
    ensures line.cancelled.None? && (!IsDataLine(line.text) || line.data.None?) ==> r == Continue(calls, [])
  {
    if line.cancelled.Some? then Finish(Error(line.cancelled.value))
    else if !IsDataLine(line.text) || line.data.None? then Continue(calls, [])
    else StepEvent(calls, line.data.value)
  }

  /** The end event the completion flush emits for a call */
  function FlushEnd(st: CallState): StreamEvent
  {
    ToolCallEnd(st.id, st.name, st.arguments)
  }

  function EndIfStarted(st: CallState): multiset<StreamEvent>
  {
    if st.started then multiset{FlushEnd(st)} else multiset{}
  }

  /**
   * The end events response.completed emits: one per started open call.
   * The order in which Go visits the map is unspecified, so this is a
   * multiset.
   */
  ghost function Flush(calls: map<string, CallState>): (r: multiset<StreamEvent>)
    ensures forall e :: e in r ==> e.ToolCallEnd?
    ensures |r| <= |calls|
    decreases |calls|
  {
    if calls == map[] then multiset{}
    else
      var k :| k in calls;
      EndIfStarted(calls[k]) + Flush(calls - {k})
  }

  /** Flush does not depend on the key it starts with */
  lemma {:induction false} FlushPick(calls: map<string, CallState>, k: string)
    requires k in calls
    ensures Flush(calls) == EndIfStarted(calls[k]) + Flush(calls - {k})
    decreases |calls|
  {
    var k' :| k' in calls && Flush(calls) == EndIfStarted(calls[k']) + Flush(calls - {k'});
    if k' != k {
      var rest := calls - {k'} - {k};
      assert calls - {k} - {k'} == rest;
      assert k in calls - {k'} && (calls - {k'})[k] == calls[k];
      assert k' in calls - {k} && (calls - {k})[k'] == calls[k'];
      FlushPick(calls - {k'}, k);
      FlushPick(calls - {k}, k');
      calc {
        Flush(calls);
        EndIfStarted(calls[k']) + Flush(calls - {k'});
        EndIfStarted(calls[k']) + (EndIfStarted(calls[k]) + Flush(rest));
        EndIfStarted(calls[k]) + (EndIfStarted(calls[k']) + Flush(rest));
        EndIfStarted(calls[k]) + Flush(calls - {k});
      }
    }
  }

  /** The keys of the started open calls */
  function StartedKeys(calls: map<string, CallState>): set<string>
  {
    set k | k in calls && calls[k].started
  }

  /** The flush has one end event per started open call */
  lemma {:induction false} FlushCount(calls: map<string, CallState>)
    ensures |Flush(calls)| == |StartedKeys(calls)|
    decreases |calls|
  {
    if calls == map[] {
      assert StartedKeys(calls) == {};
    } else {
      var k :| k in calls;
      var rest := calls - {k};
      var e := EndIfStarted(calls[k]);
      assert StartedKeys(rest) == StartedKeys(calls) - {k};
      assert |e| == if k in StartedKeys(calls) then 1 else 0;
      FlushPick(calls, k);
      FlushCount(rest);
    }
  }

  /** Every started open call is flushed */
  lemma {:induction false} FlushContains(calls: map<string, CallState>, j: string)
    requires j in calls && calls[j].started
    ensures FlushEnd(calls[j]) in Flush(calls)
  {
    FlushPick(calls, j);
  }

  /** What the decoder emits: `prefix`, then `flush` in some order, then `last` */
  datatype Trace = Trace(prefix: seq<StreamEvent>, flush: multiset<StreamEvent>, last: StreamEvent)

  function Prepend(em: seq<StreamEvent>, t: Trace): Trace
  {
    t.(prefix := em + t.prefix)
  }

  lemma PrependTwice(a: seq<StreamEvent>, b: seq<StreamEvent>, t: Trace)
    ensures Prepend(a, Prepend(b, t)) == Prepend(a + b, t)
  {
    assert a + (b + t.prefix) == (a + b) + t.prefix;
  }

  /** How a stream ends at a step that stops it */
  ghost function Ending(s: Step): Trace
    requires !s.Continue?
  {
    match s
    case Complete(open) => Trace([], Flush(open), Done(NoUsage))
    case Finish(ev) => Trace([], multiset{}, ev)
  }

  /** The events processStream emits for the remaining lines, given the open calls */
  ghost function Decode(calls: map<string, CallState>, lines: seq<Line>, readError: Option<string>): Trace
    decreases |lines|
  {
    if lines == [] then
      Trace([], multiset{}, if readError.Some? then Error("reading stream: " + readError.value) else Done(NoUsage))
    else
      var s := StepLine(calls, lines[0]);
      if s.Continue? then Prepend(s.emitted, Decode(s.calls, lines[1..], readError)) else Ending(s)
  }

  /** `events` is one ordering of the trace */
  ghost predicate Emits(events: seq<StreamEvent>, t: Trace)
  {
    && |events| == |t.prefix| + |t.flush| + 1
    && events[..|t.prefix|] == t.prefix
    && multiset(events[|t.prefix|..|events| - 1]) == t.flush
    && events[|events| - 1] == t.last
  }

  /** No terminal event before the end; the flush holds only end events; the last event is terminal */
  lemma {:induction false} DecodeShape(calls: map<string, CallState>, lines: seq<Line>, readError: Option<string>)
    ensures var t := Decode(calls, lines, readError);
      && (forall e :: e in t.prefix ==> !e.IsTerminal())
      && (forall e :: e in t.flush ==> e.ToolCallEnd?)
      && t.last.IsTerminal()
      && (t.last.Done? ==> t.last.usage == NoUsage)
    decreases |lines|
  {
    if lines != [] {
      var s := StepLine(calls, lines[0]);
      if s.Continue? {
        DecodeShape(s.calls, lines[1..], readError);
      }
    }
  }

  /** Every run of the decoder ends with exactly one terminal event, and it is the last */
  lemma OneTerminal(events: seq<StreamEvent>, lines: seq<Line>, readError: Option<string>)
    requires Emits(events, Decode(map[], lines, readError))
    ensures |events| > 0 && events[|events| - 1].IsTerminal()
    ensures forall i :: 0 <= i < |events| - 1 ==> !events[i].IsTerminal()
    ensures events[|events| - 1].Done? ==> events[|events| - 1].usage == NoUsage
  {
    var t := Decode(map[], lines, readError);
    DecodeShape(map[], lines, readError);
    forall i | 0 <= i < |events| - 1
      ensures !events[i].IsTerminal()
    {
      if i < |t.prefix| {
        assert events[i] == t.prefix[i];
      } else {
        var mid := events[|t.prefix|..|events| - 1];
        assert events[i] == mid[i - |t.prefix|];
        assert events[i] in multiset(mid);
      }
    }
  }

  /** A line that ends the stream by itself */
  predicate Ends(line: Line)
  {
    || line.cancelled.Some?
    || (IsDataLine(line.text) && line.data.Some? &&
        TypeOf(line.data.value.kind) in {Completed, Failed, Incomplete})
  }

  /** Without cancellation, a lifecycle event or a read error, the stream ends with Done and flushes nothing */
  lemma {:induction false} EndOfInputIsDone(calls: map<string, CallState>, lines: seq<Line>)
    requires forall i :: 0 <= i < |lines| ==> !Ends(lines[i])
    ensures Decode(calls, lines, None).last == Done(NoUsage)
    ensures Decode(calls, lines, None).flush == multiset{}
    decreases |lines|
  {
    if lines != [] {
      assert !Ends(lines[0]);
      var s := StepLine(calls, lines[0]);
      assert s.Continue?;
      EndOfInputIsDone(s.calls, lines[1..]);
    }
  }

  /** A read error after the last line ends the stream with an Error and flushes nothing */
  lemma {:induction false} ReadErrorIsError(calls: map<string, CallState>, lines: seq<Line>, err: string)
    requires forall i :: 0 <= i < |lines| ==> !Ends(lines[i])
    ensures Decode(calls, lines, Some(err)).last == Error("reading stream: " + err)
    ensures Decode(calls, lines, Some(err)).flush == multiset{}
    decreases |lines|
  {
    if lines != [] {
      assert !Ends(lines[0]);
      var s := StepLine(calls, lines[0]);
      assert s.Continue?;
      ReadErrorIsError(s.calls, lines[1..], err);
    }
  }

  /** A data line carrying `evt` */
  predicate Carries(line: Line, evt: WireEvent)
  {
    line.cancelled.None? && IsDataLine(line.text) && line.data == Some(evt)
  }

  /** response.completed flushes the started open calls, then Done; later lines are never read */
  lemma CompletedFlushes(calls: map<string, CallState>, lines: seq<Line>, readError: Option<string>)
    requires lines != [] && lines[0].cancelled.None? && IsDataLine(lines[0].text)
    requires lines[0].data.Some? && TypeOf(lines[0].data.value.kind) == Completed
    ensures Decode(calls, lines, readError) == Trace([], Flush(calls), Done(NoUsage))
  {
  }

  /** An output_text.delta emits its text once, when it is non-empty */
  lemma TextDeltaEmitted(calls: map<string, CallState>, evt: WireEvent)
    requires TypeOf(evt.kind) == OutputTextDelta
    ensures StepEvent(calls, evt) == Continue(calls, if evt.delta != "" then [TextDelta(evt.delta)] else [])
  {
  }

  /**
   * A function call whose added event had both a call id and a name is
   * started at once; its output_item.done then ends it without a second start.
   */
  lemma StartedOnce(calls: map<string, CallState>, added: WireEvent, done: WireEvent)
    requires TypeOf(added.kind) == OutputItemAdded && added.item.Some?
    requires added.item.value.kind == "function_call"
    requires added.item.value.callId != "" && added.item.value.name != ""
    requires TypeOf(done.kind) == OutputItemDone && done.item.Some?
    requires done.item.value.kind == "function_call" && done.item.value.id == added.item.value.id
    ensures var s1 := StepEvent(calls, added);
            && s1.Continue?
            && s1.emitted == [ToolCallStart(added.item.value.callId, added.item.value.name)]
            && var s2 := StepEvent(s1.calls, done);
               && s2.Continue?
               && |s2.emitted| == 1 && s2.emitted[0].ToolCallEnd?
               && added.item.value.id !in s2.calls
  {
  }

  /** A call added without id or name is started by its output_item.done, then ended */
  lemma StartedLate(calls: map<string, CallState>, added: WireEvent, done: WireEvent)
    requires TypeOf(added.kind) == OutputItemAdded && added.item.Some?
    requires added.item.value.kind == "function_call"
    requires added.item.value.callId == "" || added.item.value.name == ""
    requires TypeOf(done.kind) == OutputItemDone && done.item.Some?
    requires done.item.value.kind == "function_call" && done.item.value.id == added.item.value.id
    ensures var s1 := StepEvent(calls, added);
            && s1.Continue? && s1.emitted == []
            && var s2 := StepEvent(s1.calls, done);
               var item := done.item.value;
               && s2.Continue?
               && s2.emitted[0] == ToolCallStart(item.callId, item.name)
               && s2.emitted[1] == ToolCallEnd(item.callId, item.name, item.arguments)
               && |s2.emitted| == 2
  {
  }

  /**
   * output_item.done for a function call, whatever came before it: an open
   * call that was already started only ends, one that was not is started
   * and then ended, and either way it is closed; a call no longer open
   * emits nothing and changes nothing. The end carries the item's own
   * arguments when it has any, else the accumulated ones.
   */
  lemma ItemDoneStep(calls: map<string, CallState>, done: WireEvent)
    requires TypeOf(done.kind) == OutputItemDone && done.item.Some? && done.item.value.kind == "function_call"
    ensures var item := done.item.value;
            var s := StepEvent(calls, done);
            && s.Continue?
            && (item.id !in calls ==> s.calls == calls && s.emitted == [])
            && (item.id in calls ==>
                  var st := calls[item.id];
                  var args := if item.arguments != "" then item.arguments else st.arguments;
                  && s.calls == calls - {item.id}
                  && (st.started ==> s.emitted == [ToolCallEnd(item.callId, item.name, args)])
                  && (!st.started ==>
                        s.emitted == [ToolCallStart(item.callId, item.name), ToolCallEnd(item.callId, item.name, args)]))
  {
  }

  /** Argument deltas accumulate per item; an unknown item gets an empty placeholder first */
  lemma DeltaAccumulates(calls: map<string, CallState>, evt: WireEvent)
    requires TypeOf(evt.kind) == ArgumentsDelta && evt.delta != ""
    ensures var s := StepEvent(calls, evt);
            var before := if evt.itemId in calls then calls[evt.itemId] else Placeholder;
            && s.Continue?
            && evt.itemId in s.calls
            && s.calls[evt.itemId] == before.(arguments := before.arguments + evt.delta)
            && s.emitted == [ToolCallDelta(before.id, before.name, evt.delta)]
            && forall k :: k in calls && k != evt.itemId ==> k in s.calls && s.calls[k] == calls[k]
  {
  }

  /**
   * arguments.done ends the call with the event's own arguments when it
   * has them, else with the accumulated ones, and forgets the call: a
   * later output_item.done for the same item emits nothing.
   */
  lemma ArgumentsDoneEnds(calls: map<string, CallState>, evt: WireEvent, done: WireEvent)
    requires TypeOf(evt.kind) == ArgumentsDone && evt.itemId in calls
    requires TypeOf(done.kind) == OutputItemDone && done.item.Some? && done.item.value.id == evt.itemId
    ensures var st := calls[evt.itemId];
            var s1 := StepEvent(calls, evt);
            && s1.Continue?
            && s1.emitted == [ToolCallEnd(st.id, st.name, if evt.delta != "" then evt.delta else st.arguments)]
            && StepEvent(s1.calls, done) == Continue(s1.calls, [])
  {
  }

  // ---------------------------------------------------------------------
  // processStream
  // ---------------------------------------------------------------------

  lemma DecodeContinue(calls: map<string, CallState>, lines: seq<Line>, i: nat, readError: Option<string>,
                        next: map<string, CallState>, em: seq<StreamEvent>)
    requires i < |lines| && StepLine(calls, lines[i]) == Continue(next, em)
    ensures Decode(calls, lines[i..], readError) == Prepend(em, Decode(next, lines[i + 1..], readError))
  {
    assert lines[i..][0] == lines[i];
    assert lines[i..][1..] == lines[i + 1..];
  }

  lemma DecodeSkip(calls: map<string, CallState>, lines: seq<Line>, i: nat, readError: Option<string>)
    requires i < |lines| && StepLine(calls, lines[i]) == Continue(calls, [])
    ensures Decode(calls, lines[i..], readError) == Decode(calls, lines[i + 1..], readError)
  {
    DecodeContinue(calls, lines, i, readError, calls, []);
    var t := Decode(calls, lines[i + 1..], readError);
    assert [] + t.prefix == t.prefix;
  }

  lemma DecodeStop(calls: map<string, CallState>, lines: seq<Line>, i: nat, readError: Option<string>)
    requires i < |lines| && !StepLine(calls, lines[i]).Continue?
    ensures Decode(calls, lines[i..], readError) == Ending(StepLine(calls, lines[i]))
  {
    assert lines[i..][0] == lines[i];
  }

  /**
   * The scanner's line filter: blank lines, comments, event-name lines and
   * anything but a data line carry no event, nor does a data line whose
   * payload does not decode.
   */
  method LineData(line: Line) returns (data: Option<WireEvent>)
    ensures data.None? <==> !IsDataLine(line.text) || line.data.None?
    ensures data.Some? ==> data == line.data
  {
    if line.text == "" || HasPrefix(line.text, ":") {
      return None;
    }
    if HasPrefix(line.text, "event: ") {
      return None;
    }
    if !HasPrefix(line.text, "data: ") {
      return None;
    }
    if line.data.None? {
      return None;
    }
    return line.data;
  }

  /** The events a stream ending at a terminal wire event emits: a flush and Done on completion, an Error on failure */
  method FinishStream(calls: map<string, CallState>, evt: WireEvent) returns (tail: seq<StreamEvent>)
    requires TypeOf(evt.kind) in {Completed, Failed, Incomplete}
    ensures !StepEvent(calls, evt).Continue?
    ensures Emits(tail, Ending(StepEvent(calls, evt)))
  {
    var kind := TypeOf(evt.kind);
    if kind == Completed {
      var flushed := FlushCalls(calls);
      tail := flushed + [Done(NoUsage)];
      assert tail[..|flushed|] == flushed;
    } else if kind == Failed {
      var resp := evt.response;
      if resp.Some? && resp.value.error.Some? {
        var err := resp.value.error.value;
        tail := [Error("OpenAI API error (" + err.code + "): " + err.message)];
      } else {
        tail := [Error("response failed")];
      }
    } else {
      tail := [Error("response incomplete (model stopped early)")];
    }
  }

  lemma EmitsAfter(before: seq<StreamEvent>, tail: seq<StreamEvent>, t: Trace)
    requires Emits(tail, t)
    ensures Emits(before + tail, Prepend(before, t))
  {
    var all := before + tail;
    assert all[..|before| + |t.prefix|] == before + tail[..|t.prefix|];
    assert all[|before| + |t.prefix|..|all| - 1] == tail[|t.prefix|..|tail| - 1];
  }

  /**
   * The part of processStream's switch for the events that do not end the
   * stream: the open calls afterwards and the events emitted.
   */
  method HandleEvent(calls: map<string, CallState>, evt: WireEvent) returns (next: map<string, CallState>, emitted: seq<StreamEvent>)
    requires TypeOf(evt.kind) !in {Completed, Failed, Incomplete}
    ensures StepEvent(calls, evt) == Continue(next, emitted)
  {
    next, emitted := calls, [];
    match TypeOf(evt.kind) {
      case OutputTextDelta =>
        if evt.delta != "" {
          emitted := [TextDelta(evt.delta)];
        }
      case OutputItemAdded =>
        if evt.item.Some? && evt.item.value.kind == "function_call" {
          var item := evt.item.value;
          var st := CallState(item.callId, item.name, "", false);
          if st.id != "" && st.name != "" {
            st := st.(started := true);
            emitted := [ToolCallStart(st.id, st.name)];
          }
          next := next[item.id := st];
        }
      case ArgumentsDelta =>
        if evt.delta != "" {
          var st := Placeholder;
          if evt.itemId in next {
            st := next[evt.itemId];
          }
          next := next[evt.itemId := st.(arguments := st.arguments + evt.delta)];
          emitted := [ToolCallDelta(st.id, st.name, evt.delta)];
        }
      case ArgumentsDone =>
        if evt.itemId in next {
          var st := next[evt.itemId];
          var finalArgs := st.arguments;
          if evt.delta != "" {
            finalArgs := evt.delta;
          }
          emitted := [ToolCallEnd(st.id, st.name, finalArgs)];
          next := next - {evt.itemId};
        }
      case OutputItemDone =>
        if evt.item.Some? && evt.item.value.kind == "function_call" {
          var item := evt.item.value;
          if item.id in next {
            var st := next[item.id];
            var finalArgs := st.arguments;
            if item.arguments != "" {
              finalArgs := item.arguments;
            }
            if !st.started {
              emitted := [ToolCallStart(item.callId, item.name)];
            }
            emitted := emitted + [ToolCallEnd(item.callId, item.name, finalArgs)];
            next := next - {item.id};
          }
        }
      case _ =>
    }
  }

  /** One pass of the flush loop keeps what is flushed plus what is left to flush */
  lemma FlushStep(flushed: seq<StreamEvent>, open: map<string, CallState>, id: string)
    requires id in open
    ensures var st := open[id];
      multiset(if st.started then flushed + [FlushEnd(st)] else flushed) + Flush(open - {id})
        == multiset(flushed) + Flush(open)
  {
    FlushPick(open, id);
  }

  /**
   * The completion flush: visits the open calls in an unspecified order,
   * emitting an end event for each started one and dropping the others.
   */
  method FlushCalls(calls: map<string, CallState>) returns (flushed: seq<StreamEvent>)
    ensures multiset(flushed) == Flush(calls)
  {
    flushed := [];
    var open := calls;
    while open != map[]
      invariant multiset(flushed) + Flush(open) == Flush(calls)
      decreases |open|
    {
      var id :| id in open;
      FlushStep(flushed, open, id);
      if open[id].started {
        flushed := flushed + [FlushEnd(open[id])];
      }
      open := open - {id};
    }
  }

  /**
   * processStream: decodes the scanned lines (then the scanner's error, if
   * any) into stream events, in the order of `Decode`.
   */
  method ProcessStream(lines: seq<Line>, readError: Option<string>) returns (events: seq<StreamEvent>)
    ensures Emits(events, Decode(map[], lines, readError))
  {
    var calls: map<string, CallState> := map[];
    events := [];
    var i := 0;
    while i < |lines|
      invariant 0 <= i <= |lines|
      invariant Decode(map[], lines, readError) == Prepend(events, Decode(calls, lines[i..], readError))
    {
      ghost var before := events;
      ghost var start := calls;
      var next, emitted, tail := ProcessLine(calls, lines[i]);
      if tail.Some? {
        DecodeStop(calls, lines, i, readError);
        EmitsAfter(events, tail.value, Ending(StepLine(calls, lines[i])));
        events := events + tail.value;
        return;
      }
      DecodeContinue(start, lines, i, readError, next, emitted);
      calls := next;
      events := events + emitted;
      i := i + 1;
      PrependTwice(before, emitted, Decode(calls, lines[i..], readError));
    }
    assert lines[i..] == [];
    var last := if readError.Some? then Error("reading stream: " + readError.value) else Done(NoUsage);
    assert Decode(calls, lines[i..], readError) == Trace([], multiset{}, last);
    EmitsAfter(events, [last], Trace([], multiset{}, last));
    events := events + [last];
  }

  /**
   * One pass of processStream's loop: a cancelled context or a terminal
   * event ends the stream with `tail`; any other line updates the open
   * calls and emits some events.
   */
  method ProcessLine(calls: map<string, CallState>, line: Line)
    returns (next: map<string, CallState>, emitted: seq<StreamEvent>, tail: Option<seq<StreamEvent>>)
    ensures tail.None? ==> StepLine(calls, line) == Continue(next, emitted)
    ensures tail.Some? ==> !StepLine(calls, line).Continue? && Emits(tail.value, Ending(StepLine(calls, line)))
  {
    next, emitted := calls, [];
    if line.cancelled.Some? {
      return calls, [], Some([Error(line.cancelled.value)]);
    }
    var data := LineData(line);
    if data.None? {
      return calls, [], None;
    }
    var evt := data.value;
    assert StepLine(calls, line) == StepEvent(calls, evt);
    if TypeOf(evt.kind) in {Completed, Failed, Incomplete} {
      var t := FinishStream(calls, evt);
      return calls, [], Some(t);
    }
    next, emitted := HandleEvent(calls, evt);
    tail := None;
  }

  // ---------------------------------------------------------------------
  // The provider
  // ---------------------------------------------------------------------

  /** The tools of a request in the Responses API's flat "function" format, in order */
  method FlatTools(defs: seq<ToolDefinition>) returns (tools: seq<RespTool>)
    ensures |tools| == |defs|
    ensures forall i :: 0 <= i < |defs| ==>
      tools[i] == RespTool("function", defs[i].name, defs[i].description, defs[i].parameters)
  {
    tools := [];
    for i := 0 to |defs|
      invariant |tools| == i
      invariant forall k :: 0 <= k < i ==>
        tools[k] == RespTool("function", defs[k].name, defs[k].description, defs[k].parameters)
    {
      var t := defs[i];
      tools := tools + [RespTool("function", t.name, t.description, t.parameters)];
    }
  }

  /** How the HTTP exchange of a request ended */
  datatype HttpReply =
    | SendFailed(error: string)                                    // the request could not be sent
    | HttpStatus(code: ErrorStatus, body: string)                  // a status other than 200, with the body
    | Streamed(lines: seq<Line>, readError: Option<string>)        // status 200: the event stream

  class OpenAIProvider {
    var apiKey: string
    var model: string
    var baseURL: string

    /** NewOpenAIProvider */
    constructor (apiKey: string, model: string)
      ensures this.apiKey == apiKey && this.model == model
      ensures baseURL == "https://api.openai.com/v1"
    {
      this.apiKey := apiKey;
      this.model := model;
      baseURL := "https://api.openai.com/v1";
    }

    method SetAPIKey(key: string)
      modifies this
      ensures apiKey == key && model == old(model) && baseURL == old(baseURL)
    {
      apiKey := key;
    }

    method SetModel(name: string)
      modifies this
      ensures model == name && apiKey == old(apiKey) && baseURL == old(baseURL)
    {
      model := name;
    }

    /**
     * The request body SendMessage posts: the translated history, the tools
     * in the flat "function" format, streaming on, storage off, and a
     * positive output-token limit.
     */
    method BuildRequest(req: Request) returns (body: RespRequest)
      ensures body.model == model && body.instructions == req.systemPrompt
      ensures body.input == InputOf(req.messages)
      ensures |body.tools| == |req.tools|
      ensures forall i :: 0 <= i < |body.tools| ==>
        body.tools[i] == RespTool("function", req.tools[i].name, req.tools[i].description, req.tools[i].parameters)
      ensures body.stream && !body.store
      ensures body.maxOutputTokens == EffectiveMaxTokens(req.maxTokens)
    {
      var input := BuildInput(req);
      var tools := FlatTools(req.tools);
      var maxTokens := req.maxTokens;
      if maxTokens <= 0 {
        maxTokens := 4096;
      }
      body := RespRequest(model, req.systemPrompt, input, tools, true, maxTokens, false);
    }

    /**
     * SendMessage: posts the request and, on status 200, decodes the event
     * stream. The body that would be posted is returned alongside.
     */
    method SendMessage(req: Request, reply: HttpReply) returns (sent: RespRequest, r: Result<seq<StreamEvent>>)
      ensures sent.maxOutputTokens == EffectiveMaxTokens(req.maxTokens) && sent.input == InputOf(req.messages)
      ensures reply.SendFailed? ==> r == Err("sending request: " + reply.error)
      ensures reply.HttpStatus? ==>
        r == Err("OpenAI API error (HTTP " + NatToString(reply.code) + "): " + reply.body)
      ensures reply.Streamed? ==> r.Ok? && Emits(r.value, Decode(map[], reply.lines, reply.readError))
    {
      sent := BuildRequest(req);
      match reply {
        case SendFailed(e) =>
          r := Err("sending request: " + e);
        case HttpStatus(code, body) =>
          r := Err("OpenAI API error (HTTP " + NatToString(code) + "): " + body);
        case Streamed(lines, readError) =>
          var events := ProcessStream(lines, readError);
          r := Ok(events);
      }
    }

    /**
     * ListModels: the supported model ids of the listing, sorted; a failed
     * request, a status other than 200 or an undecodable body is an error.
     */
    method ListModels(reply: ModelsReply) returns (r: Result<seq<string>>)
      ensures reply.FetchFailed? ==> r == Err("fetching models: " + reply.error)
      ensures reply.ModelsStatus? ==>
        r == Err("OpenAI API error (HTTP " + NatToString(reply.code) + "): " + reply.body)
      ensures reply.ModelsBody? && reply.entries.Err? ==>
        r == Err("decoding models response: " + reply.entries.error)
      ensures reply.ModelsBody? && reply.entries.Ok? ==>
        && r.Ok? && Sorted(r.value)
        && multiset(r.value) == multiset(SupportedOnly(IdsOf(reply.entries.value)))
    {
      match reply {
        case FetchFailed(e) =>
          r := Err("fetching models: " + e);
        case ModelsStatus(code, body) =>
          r := Err("OpenAI API error (HTTP " + NatToString(code) + "): " + body);
        case ModelsBody(entries) =>
          if entries.Err? {
            r := Err("decoding models response: " + entries.error);
          } else {
            var models := SupportedSorted(entries.value);
            r := Ok(models);
          }
      }
    }
  }
}
