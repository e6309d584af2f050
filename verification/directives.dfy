/**
 * The commands a handler issues to the call: each verb the webhook queues on
 * the session (`llm`, `hangup`, `send`, `say`, `reply`, `sendToolOutput`),
 * in the order issued.
 */
module Directives {
  import opened AgentConfig

  /** Why a tool call produced no weather report. */
  datatype ToolFailure =
    | LocationNotFound          // geocoding gave no usable result list
    | LookupFailed(reason: string)  // an HTTP lookup or its payload raised an error

  /** The body passed to `sendToolOutput`. */
  datatype ToolOutput =
    | FunctionCallResponse(functionCallId: string, output: string)
    | ToolError(error: ToolFailure)

  datatype Directive =
    | Llm(config: LlmConfig)
    | Hangup
    | Send
    | Say(text: string)
    | Reply
    | SendToolOutput(toolCallId: string, data: ToolOutput)

  /** The correlation ids of the tool outputs in `ds`, in order. */
  function ToolOutputIds(ds: seq<Directive>): (ids: seq<string>)
    ensures ids == [] <==> forall k :: 0 <= k < |ds| ==> !ds[k].SendToolOutput?
  {
    if |ds| == 0 then []
    else if ds[0].SendToolOutput? then [ds[0].toolCallId] + ToolOutputIds(ds[1..])
    else ToolOutputIds(ds[1..])
  }

  /** Tool-output ids of a concatenation are the concatenation of the ids. */
  lemma {:induction false} ToolOutputIdsAppend(a: seq<Directive>, b: seq<Directive>)
    ensures ToolOutputIds(a + b) == ToolOutputIds(a) + ToolOutputIds(b)
    decreases |a|
  {
    if |a| > 0 {
      assert (a + b)[0] == a[0];
      assert (a + b)[1..] == a[1..] + b;
      ToolOutputIdsAppend(a[1..], b);
      if a[0].SendToolOutput? {
        assert ToolOutputIds(a + b) == [a[0].toolCallId] + ToolOutputIds(a[1..] + b);
      } else {
        assert ToolOutputIds(a + b) == ToolOutputIds(a[1..] + b);
      }
    } else {
      assert a + b == b;
    }
  }
}
