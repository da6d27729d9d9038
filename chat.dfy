/** The conversation the agents keep with the model: the assistant message that
    echoes the tool calls of a turn, and one tool message per result. */
module Chat {
  import opened Values
  import opened Gateway

  /** One entry of an assistant message's tool_calls: the call's id, the tool's
      name and the arguments sent back (JSON-encoded in the source). */
  datatype Echo = Echo(id: string, name: string, arguments: Args)

  /** What a tool call produced: its output, or the `{"error": ...}` record. */
  datatype Payload<T> = Output(value: T) | ErrorPayload(text: string)

  /** One entry of an agent's tool_results list. */
  datatype ToolResult<T> = ToolResult(callId: string, name: string, payload: Payload<T>)

  /** A chat message. The wording of the system and user prompts is not
      modelled; a tool message carries the result it encodes. */
  datatype Message<T> =
    | SystemPrompt
    | UserPrompt
    | Assistant(content: Option<string>, echoes: seq<Echo>)
    | Tool(callId: string, payload: Payload<T>)

  /** The echoes built by enumerating the tool results: the i-th result's id
      and name, with the arguments of the model's i-th tool call. */
  function Echoes<T>(results: seq<ToolResult<T>>, calls: seq<ToolCall>): (r: seq<Echo>)
    requires |results| <= |calls|
    ensures |r| == |results|
    ensures forall i :: 0 <= i < |r| ==> r[i].id == results[i].callId && r[i].arguments == calls[i].arguments
  {
    seq(|results|, i requires 0 <= i < |results| => Echo(results[i].callId, results[i].name, calls[i].arguments))
  }

  /** The tool messages for a list of results, one per result, in order. */
  function ToolMessages<T>(results: seq<ToolResult<T>>): (r: seq<Message<T>>)
    ensures |r| == |results|
    ensures forall i :: 0 <= i < |r| ==> r[i] == Tool(results[i].callId, results[i].payload)
  {
    if |results| == 0 then []
    else ToolMessages(results[..|results| - 1]) + [Tool(results[|results| - 1].callId, results[|results| - 1].payload)]
  }

  /** The loop that appends one tool message per result. */
  method AppendToolMessages<T>(messages: seq<Message<T>>, results: seq<ToolResult<T>>) returns (r: seq<Message<T>>)
    ensures r == messages + ToolMessages(results)
  {
    r := messages;
    for j := 0 to |results|
      invariant r == messages + ToolMessages(results[..j])
    {
      assert results[..j + 1][..j] == results[..j];
      r := r + [Tool(results[j].callId, results[j].payload)];
    }
    assert results[..|results|] == results;
  }

  /** The messages a turn with tool calls appends when there is one result per
      call, each carrying its call's id and name: one assistant message echoing
      every call in order, then one tool message per call with that call's id. */
  lemma TurnLayout<T>(messages: seq<Message<T>>, content: Option<string>, calls: seq<ToolCall>, results: seq<ToolResult<T>>)
    requires |results| == |calls|
    requires forall i :: 0 <= i < |calls| ==> results[i].callId == calls[i].id && results[i].name == calls[i].name
    ensures var m := messages + [Assistant(content, Echoes(results, calls))] + ToolMessages(results);
            var n := |messages|;
            |m| == n + 1 + |calls| && m[..n] == messages &&
            m[n] == Assistant(content, seq(|calls|, i requires 0 <= i < |calls| => Echo(calls[i].id, calls[i].name, calls[i].arguments))) &&
            forall i :: 0 <= i < |calls| ==> m[n + 1 + i] == Tool(calls[i].id, results[i].payload)
  {
    var m := messages + [Assistant(content, Echoes(results, calls))] + ToolMessages(results);
    var n := |messages|;
    assert Echoes(results, calls) ==
           seq(|calls|, i requires 0 <= i < |calls| => Echo(calls[i].id, calls[i].name, calls[i].arguments));
    forall i | 0 <= i < |calls|
      ensures m[n + 1 + i] == Tool(calls[i].id, results[i].payload)
    {
      assert m[n + 1 + i] == ToolMessages(results)[i];
    }
  }
}
