/**
 * Tool calls requested by a run, the outputs answering them, and the
 * batching of one run's calls into a single tool-output submission.
 */
module ToolCalls {
  import opened Wrappers

  /** The `function` member of a tool call: the tool name and its JSON argument text. */
  datatype FunctionCall = FunctionCall(name: string, arguments: Option<string>)

  /** A tool call; `fn` is `None` when the call carries no `function` member. */
  datatype ToolCall = ToolCall(id: string, fn: Option<FunctionCall>)

  /** One `{tool_call_id, output}` pair of a submission. */
  datatype ToolOutput = ToolOutput(toolCallId: string, output: string)

  /** One batched `submitToolOutputs(thread_id, run_id, {tool_outputs})` request. */
  datatype Submission = Submission(threadId: string, runId: string, outputs: seq<ToolOutput>)

  /** The errors a tool call can throw; none of them is caught. */
  datatype Error =
    | SyntaxError          // JSON.parse rejected the argument text
    | NoFunction           // a property of the missing `function` member was read
    | PropertyOfNull       // a property of null was read, e.g. of arguments that parsed to null
    | UnknownTool(name: string) // the registry has no tool of that name: `execute` of undefined was called
    | NoObserver           // the `executeTool` observer was not passed, yet was called

  /** The outputs answer the calls one for one, in order, each carrying its call's id. */
  ghost predicate Answers(outputs: seq<ToolOutput>, calls: seq<ToolCall>) {
    |outputs| == |calls| &&
    forall i :: 0 <= i < |outputs| ==> outputs[i].toolCallId == calls[i].id
  }

  /**
   * `calls.map(c => ({tool_call_id: c.id, output: handler(c)}))`: the first
   * call whose handler throws aborts the batch with that error.
   */
  function ToolOutputs(calls: seq<ToolCall>, handler: ToolCall -> Result<string, Error>)
    : (r: Result<seq<ToolOutput>, Error>)
    ensures r.Ok? <==> forall i :: 0 <= i < |calls| ==> handler(calls[i]).Ok?
    ensures r.Ok? ==> Answers(r.value, calls)
    ensures r.Ok? ==> forall i :: 0 <= i < |calls| ==> handler(calls[i]) == Ok(r.value[i].output)
    ensures r.Err? ==> exists i :: 0 <= i < |calls| && handler(calls[i]) == Err(r.error) &&
                                    forall j :: 0 <= j < i ==> handler(calls[j]).Ok?
  {
    if calls == [] then Ok([])
    else
      match handler(calls[0])
      case Err(e) => Err(e)
      case Ok(out) =>
        match ToolOutputs(calls[1..], handler)
        case Err(e) => 
          assert forall i :: 0 <= i < |calls| - 1 ==> calls[1..][i] == calls[i + 1];
          Err(e)
        case Ok(rest) => Ok([ToolOutput(calls[0].id, out)] + rest)
  }
}
