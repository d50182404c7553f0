/**
 * The conversation as the terminal interface shows it: a list of display
 * entries, the index of the entry being streamed, and a scroll offset
 * counted in lines from the bottom. Timestamps and all styling are left
 * out; an entry is its role, its text and its tool-call display fields.
 */
module Display {

  import opened Text
  import opened Messages

  /** One displayed entry */
  datatype DisplayMessage = DisplayMessage(
    role: Role,
    content: string,
    isToolCall: bool,
    toolName: string,
    toolInput: string,
    toolOutput: string,
    toolIsError: bool,
    isToolResult: bool,
    isStreaming: bool)

  /** A plain entry with a role and a text */
  function TextEntry(role: Role, content: string): (d: DisplayMessage)
    ensures d.role == role && d.content == content
    ensures !d.isToolCall && !d.isToolResult && !d.isStreaming
  {
    DisplayMessage(role, content, false, "", "", "", false, false, false)
  }

  /** A tool-call indicator, shown as the assistant's */
  function ToolCallEntry(content: string, toolName: string, input: string): (d: DisplayMessage)
    ensures d.role == Assistant && d.isToolCall && !d.isToolResult && !d.isStreaming
    ensures d.content == content && d.toolName == toolName && d.toolInput == input
  {
    DisplayMessage(Assistant, content, true, toolName, input, "", false, false, false)
  }

  /** A tool-result entry, shown with the tool role */
  function ToolResultEntry(toolName: string, output: string, isError: bool): (d: DisplayMessage)
    ensures d.role == Tool && d.isToolResult && !d.isToolCall && !d.isStreaming
    ensures d.content == "" && d.toolName == toolName && d.toolOutput == output && d.toolIsError == isError
  {
    DisplayMessage(Tool, "", false, toolName, "", output, isError, true, false)
  }

  /** The assistant entry that grows while a reply streams in */
  function StreamingEntry(content: string): (d: DisplayMessage)
    ensures d.role == Assistant && d.content == content && d.isStreaming
    ensures !d.isToolCall && !d.isToolResult
  {
    DisplayMessage(Assistant, content, false, "", "", "", false, false, true)
  }

  /**
   * The entries of one stored message: one per tool call (then the text,
   * when there is any) for a message with calls, one per result for a
   * message with results, otherwise the message itself.
   */
  function EntriesOf(m: Message): (r: seq<DisplayMessage>)
    ensures m.IsToolCall() ==> |r| == |m.toolCalls| + (if m.content != "" then 1 else 0)
    ensures m.IsToolCall() ==> forall i :: 0 <= i < |m.toolCalls| ==>
      r[i] == ToolCallEntry(m.content, m.toolCalls[i].name, m.toolCalls[i].input)
    ensures m.IsToolCall() && m.content != "" ==> r[|r| - 1] == TextEntry(m.role, m.content)
    ensures !m.IsToolCall() && m.IsToolResult() ==> |r| == |m.toolResults|
    ensures !m.IsToolCall() && m.IsToolResult() ==> forall i :: 0 <= i < |r| ==>
      r[i] == ToolResultEntry(m.toolResults[i].name, m.toolResults[i].output, m.toolResults[i].isError)
    ensures !m.IsToolCall() && !m.IsToolResult() ==> r == [TextEntry(m.role, m.content)]
  {
    if m.IsToolCall() then
      var calls := m.toolCalls;
      var content := m.content;
      var entries := seq(|calls|, i requires 0 <= i < |calls| => ToolCallEntry(content, calls[i].name, calls[i].input));
      if m.content != "" then entries + [TextEntry(m.role, m.content)] else entries
    else if m.IsToolResult() then
      var results := m.toolResults;
      seq(|results|, i requires 0 <= i < |results| =>
        ToolResultEntry(results[i].name, results[i].output, results[i].isError))
    else [TextEntry(m.role, m.content)]
  }

  /** The entries of a stored conversation, message by message */
  function Entries(msgs: seq<Message>): seq<DisplayMessage>
  {
    if msgs == [] then [] else Entries(msgs[..|msgs| - 1]) + EntriesOf(msgs[|msgs| - 1])
  }

  /** The number of entries a message contributes */
  function EntryCount(m: Message): nat
  {
    if m.IsToolCall() then |m.toolCalls| + (if m.content != "" then 1 else 0)
    else if m.IsToolResult() then |m.toolResults|
    else 1
  }

  function TotalEntries(msgs: seq<Message>): nat
  {
    if msgs == [] then 0 else TotalEntries(msgs[..|msgs| - 1]) + EntryCount(msgs[|msgs| - 1])
  }

  /** The entries of two conversations back to back are the entries of each, in order */
  lemma {:induction false} EntriesAppend(a: seq<Message>, b: seq<Message>)
    ensures Entries(a + b) == Entries(a) + Entries(b)
    decreases |b|
  {
    if b == [] {
      assert a + b == a;
    } else {
      var b0 := b[..|b| - 1];
      var last := b[|b| - 1];
      assert (a + b)[..|a + b| - 1] == a + b0;
      assert (a + b)[|a + b| - 1] == last;
      EntriesAppend(a, b0);
      calc {
        Entries(a + b);
        Entries(a + b0) + EntriesOf(last);
        (Entries(a) + Entries(b0)) + EntriesOf(last);
        { ConcatAssoc(Entries(a), Entries(b0), EntriesOf(last)); }
        Entries(a) + (Entries(b0) + EntriesOf(last));
        Entries(a) + Entries(b);
      }
    }
  }

  /** Loading a conversation gives exactly as many entries as its messages call for */
  lemma {:induction false} EntriesLength(msgs: seq<Message>)
    ensures |Entries(msgs)| == TotalEntries(msgs)
    decreases |msgs|
  {
    if msgs != [] {
      EntriesLength(msgs[..|msgs| - 1]);
    }
  }

  /** The index of the last tool-call entry for a tool, if any */
  function LastToolCall(ms: seq<DisplayMessage>, toolName: string): (r: Option<nat>)
    ensures r.Some? ==> r.value < |ms| && ms[r.value].isToolCall && ms[r.value].toolName == toolName
    ensures r.Some? ==> forall j :: r.value < j < |ms| ==> !(ms[j].isToolCall && ms[j].toolName == toolName)
    ensures r.None? ==> forall j :: 0 <= j < |ms| ==> !(ms[j].isToolCall && ms[j].toolName == toolName)
  {
    if ms == [] then None
    else if ms[|ms| - 1].isToolCall && ms[|ms| - 1].toolName == toolName then Some(|ms| - 1)
    else LastToolCall(ms[..|ms| - 1], toolName)
  }

  /** The lines shown: counted from the bottom, `offset` lines up, at most `height` of them */
  function Window(lineCount: nat, height: int, offset: int): (r: (nat, nat))
    requires height >= 1 && offset >= 0
    ensures r.0 <= r.1 <= lineCount
    // the window holds as many lines as fit, whatever the offset
    ensures r.1 - r.0 == if lineCount < height then lineCount else height
    // at the bottom, the last lines are shown
    ensures offset == 0 ==> r.1 == lineCount
    // scrolling up moves the window up by the offset until it hits the top
    ensures lineCount - height - offset >= 0 ==> r.1 == lineCount - offset
    ensures lineCount - height - offset < 0 ==> r.0 == 0
  {
    var start := if lineCount - height - offset < 0 then 0 else lineCount - height - offset;
    var end := if start + height > lineCount then lineCount else start + height;
    (start, end)
  }

  /** The visible lines of the rendered conversation */
  function Visible(lines: seq<string>, height: int, offset: int): (r: seq<string>)
    requires height >= 1 && offset >= 0
    ensures |r| == if |lines| < height then |lines| else height
    ensures offset == 0 ==> r == lines[|lines| - |r|..]
  {
    var (start, end) := Window(|lines|, height, offset);
    lines[start..end]
  }

  /** A tool input longer than 200 characters is shown as its first 200 and "..." */
  function ShownInput(input: string): (r: string)
    ensures |input| <= 200 ==> r == input
    ensures |input| > 200 ==> |r| == 203 && r[..200] == input[..200] && r[200..] == "..."
  {
    if |input| > 200 then input[..200] + "..." else input
  }

  /** A tool output longer than 500 characters is shown as its first 500 and a truncation note */
  function ShownOutput(output: string): (r: string)
    ensures |output| <= 500 ==> r == output
    ensures |output| > 500 ==> |r| == 516 && r[..500] == output[..500] && r[500..] == "\n... (truncated)"
  {
    if |output| > 500 then output[..500] + "\n... (truncated)" else output
  }

  /** The unstyled text of a tool-call or tool-result entry; other entries are not modelled */
  function RenderTool(d: DisplayMessage): (r: Option<string>)
    ensures r.Some? <==> d.isToolCall || d.isToolResult
    ensures d.isToolCall && d.toolInput == "" ==> r == Some("  tool: " + d.toolName)
    ensures d.isToolCall && d.toolInput != "" ==> r == Some("  tool: " + d.toolName + "\n  " + ShownInput(d.toolInput))
    ensures !d.isToolCall && d.isToolResult ==> r == Some("  result: " + d.toolName + "\n  " + ShownOutput(d.toolOutput))
  {
    if d.isToolCall then
      var input := ShownInput(d.toolInput);
      if input != "" then Some("  tool: " + d.toolName + "\n  " + input) else Some("  tool: " + d.toolName)
    else if d.isToolResult then
      Some("  result: " + d.toolName + "\n  " + ShownOutput(d.toolOutput))
    else None
  }

  /** Appends the entries of one stored message */
  method AppendEntries(entries: seq<DisplayMessage>, msg: Message) returns (r: seq<DisplayMessage>)
    ensures r == entries + EntriesOf(msg)
  {
    r := entries;
    if msg.IsToolCall() {
      for i := 0 to |msg.toolCalls|
        invariant r == entries + EntriesOf(msg)[..i]
      {
        assert EntriesOf(msg)[..i + 1] == EntriesOf(msg)[..i] + [EntriesOf(msg)[i]];
        var tc := msg.toolCalls[i];
        r := r + [ToolCallEntry(msg.content, tc.name, tc.input)];
      }
      if msg.content != "" {
        r := r + [TextEntry(msg.role, msg.content)];
      }
    } else if msg.IsToolResult() {
      for i := 0 to |msg.toolResults|
        invariant r == entries + EntriesOf(msg)[..i]
      {
        assert EntriesOf(msg)[..i + 1] == EntriesOf(msg)[..i] + [EntriesOf(msg)[i]];
        var tr := msg.toolResults[i];
        r := r + [ToolResultEntry(tr.name, tr.output, tr.isError)];
      }
      assert EntriesOf(msg)[..|msg.toolResults|] == EntriesOf(msg);
    } else {
      r := r + [TextEntry(msg.role, msg.content)];
    }
  }

  class MessageList {
    var messages: seq<DisplayMessage>
    /** Lines scrolled up from the bottom */
    var offset: int
    /** The index of the entry being streamed, or -1 */
    var streaming: int

    /** The offset is never negative */
    ghost predicate Valid()
      reads this
    {
      offset >= 0
    }

    /** NewMessageList */
    constructor ()
      ensures Valid()
      ensures messages == [] && offset == 0 && streaming == -1
    {
      messages := [];
      offset := 0;
      streaming := -1;
    }

    function Count(): (n: nat)
      reads this
      ensures n == |messages|
    {
      |messages|
    }

    method Add(role: Role, content: string)
      modifies this
      ensures messages == old(messages) + [TextEntry(role, content)]
      ensures offset == 0 && streaming == old(streaming)
    {
      messages := messages + [TextEntry(role, content)];
      offset := 0;
    }

    method AddMessage(msg: Message)
      modifies this
      ensures messages == old(messages) + [TextEntry(msg.role, msg.content)]
      ensures offset == 0 && streaming == old(streaming)
    {
      messages := messages + [TextEntry(msg.role, msg.content)];
      offset := 0;
    }

    /** Replaces the list with the entries of a stored conversation; the streaming index is kept as it was */
    method LoadFromMessages(msgs: seq<Message>)
      modifies this
      ensures messages == Entries(msgs) && |messages| == TotalEntries(msgs)
      ensures offset == 0 && streaming == old(streaming)
    {
      messages := [];
      for k := 0 to |msgs|
        invariant messages == Entries(msgs[..k])
        invariant streaming == old(streaming)
      {
        assert msgs[..k + 1][..k] == msgs[..k];
        messages := AppendEntries(messages, msgs[k]);
      }
      assert msgs[..|msgs|] == msgs;
      EntriesLength(msgs);
      offset := 0;
    }

    /** Replaces the streamed entry's text, or starts a new streamed entry at the end */
    method UpdateStreaming(content: string)
      modifies this
      ensures 0 <= old(streaming) < |old(messages)| ==>
        && streaming == old(streaming)
        && messages == old(messages)[streaming := old(messages)[streaming].(content := content)]
      ensures !(0 <= old(streaming) < |old(messages)|) ==>
        && streaming == |old(messages)|
        && messages == old(messages) + [StreamingEntry(content)]
      ensures offset == 0
    {
      if 0 <= streaming < |messages| {
        messages := messages[streaming := messages[streaming].(content := content)];
      } else {
        streaming := |messages|;
        messages := messages + [StreamingEntry(content)];
      }
      offset := 0;
    }

    /** Ends streaming: the streamed entry, if any, gets its final text and stops streaming */
    method FinalizeStreaming(finalContent: string)
      modifies this
      ensures 0 <= old(streaming) < |old(messages)| ==>
        messages == old(messages)[old(streaming) := old(messages)[old(streaming)].(content := finalContent, isStreaming := false)]
      ensures !(0 <= old(streaming) < |old(messages)|) ==> messages == old(messages)
      ensures streaming == -1 && offset == old(offset)
    {
      if 0 <= streaming < |messages| {
        messages := messages[streaming := messages[streaming].(content := finalContent, isStreaming := false)];
      }
      streaming := -1;
    }

    method AddToolCall(toolName: string, input: string)
      modifies this
      ensures messages == old(messages) + [ToolCallEntry("", toolName, input)]
      ensures offset == 0 && streaming == old(streaming)
    {
      messages := messages + [ToolCallEntry("", toolName, input)];
      offset := 0;
    }

    /** Sets the input of the last tool-call entry for the tool; without one nothing changes */
    method UpdateLastToolCall(toolName: string, input: string)
      modifies this
      ensures match LastToolCall(old(messages), toolName)
        case None => messages == old(messages)
        case Some(i) => messages == old(messages)[i := old(messages)[i].(toolInput := input)]
      ensures offset == old(offset) && streaming == old(streaming)
    {
      var i := |messages|;
      while i > 0
        invariant 0 <= i <= |messages|
        invariant messages == old(messages)
        invariant LastToolCall(messages, toolName) == LastToolCall(messages[..i], toolName)
      {
        i := i - 1;
        assert messages[..i + 1][..i] == messages[..i];
        if messages[i].isToolCall && messages[i].toolName == toolName {
          messages := messages[i := messages[i].(toolInput := input)];
          return;
        }
      }
    }

    method AddToolResult(toolName: string, output: string, isError: bool)
      modifies this
      ensures messages == old(messages) + [ToolResultEntry(toolName, output, isError)]
      ensures offset == 0 && streaming == old(streaming)
    {
      messages := messages + [ToolResultEntry(toolName, output, isError)];
      offset := 0;
    }

    /** Scrolls up by a positive number of lines; other amounts are ignored */
    method ScrollUp(lines: int)
      requires Valid()
      modifies this
      ensures Valid()
      ensures offset == if lines <= 0 then old(offset) else old(offset) + lines
      ensures messages == old(messages) && streaming == old(streaming)
    {
      if lines <= 0 {
        return;
      }
      offset := offset + lines;
    }

    /** Scrolls down by a positive number of lines, stopping at the bottom */
    method ScrollDown(lines: int)
      requires Valid()
      modifies this
      ensures Valid()
      ensures offset == if lines <= 0 then old(offset) else if old(offset) - lines < 0 then 0 else old(offset) - lines
      ensures messages == old(messages) && streaming == old(streaming)
    {
      if lines <= 0 {
        return;
      }
      offset := offset - lines;
      if offset < 0 {
        offset := 0;
      }
    }
  }
}
