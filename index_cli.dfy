/**
 * index.js: the built-in tool dispatch processToolCall, its tool-output
 * submission and run-polling driver (no observer, no registry), and the
 * command-line verb dispatch of `execute`.
 */
module IndexCli {
  import opened Wrappers
  import opened JsValues
  import opened ToolCalls
  import opened Runs

  const ResetPassword: string := "reset_password"
  const ChangeToHuman: string := "change_to_human_customer_service"

  const ResetPrefix: string := "請點擊 https://google.com?clientId="
  const ResetSuffix: string := " 重新設定密碼"
  const HumanReply: string := "切換至人工客服"
  const NoSuchFeature: string := "沒有這個功能"

  /**
   * `JSON.parse(toolCall.function.arguments)`: missing arguments are
   * converted to the text "undefined", which is not JSON.
   */
  function ParseArguments(f: FunctionCall, parse: string -> Parsed): Parsed {
    if f.arguments.None? then Malformed else parse(f.arguments.value)
  }

  /** The client id a reset link carries between its fixed prefix and suffix. */
  function ClientIdOfLink(link: string): Option<string> {
    if |link| >= |ResetPrefix| + |ResetSuffix| &&
       link[..|ResetPrefix|] == ResetPrefix &&
       link[|link| - |ResetSuffix|..] == ResetSuffix
    then Some(link[|ResetPrefix|..|link| - |ResetSuffix|])
    else None
  }

  /**
   * processToolCall: parse the arguments first (throwing on malformed
   * JSON, whatever the tool), then switch on the tool name.
   */
  function ProcessToolCall(call: ToolCall, parse: string -> Parsed): (r: Result<string, Error>)
    ensures call.fn.None? ==> r == Err(NoFunction)
    ensures call.fn.Some? && call.fn.value.arguments.None? ==> r == Err(SyntaxError)
    ensures call.fn.Some? && call.fn.value.name == ResetPassword && ParseArguments(call.fn.value, parse) == Value(JsNull) ==>
              r == Err(PropertyOfNull)
    ensures call.fn.Some? && call.fn.value.arguments.Some? && parse(call.fn.value.arguments.value).Malformed? ==>
              r == Err(SyntaxError)
    ensures r.Ok? <==>
              call.fn.Some? && ParseArguments(call.fn.value, parse).Value? &&
              !(call.fn.value.name == ResetPassword && ParseArguments(call.fn.value, parse).v == JsNull)
    ensures r.Ok? && call.fn.value.name == ResetPassword ==>
              ClientIdOfLink(r.value) == Some(Interpolate(Field(ParseArguments(call.fn.value, parse).v, "clientId")))
    ensures r.Ok? && call.fn.value.name == ChangeToHuman ==> r.value == HumanReply
    ensures r.Ok? && call.fn.value.name !in {ResetPassword, ChangeToHuman} ==> r.value == NoSuchFeature
  {
    match call.fn
    case None => Err(NoFunction)
    case Some(f) =>
      match ParseArguments(f, parse)
      case Malformed => Err(SyntaxError)
      case Value(args) =>
        if f.name == ResetPassword then
          if args == JsNull then Err(PropertyOfNull)
          else
            var link := ResetPrefix + Interpolate(Field(args, "clientId")) + ResetSuffix;
            assert link[..|ResetPrefix|] == ResetPrefix;
            assert link[|link| - |ResetSuffix|..] == ResetSuffix;
            Ok(link)
        else if f.name == ChangeToHuman then Ok(HumanReply)
        else Ok(NoSuchFeature)
  }

  /** A string client id appears verbatim after `clientId=`, and distinct ids give distinct links. */
  lemma ResetLinkCarriesClientId(id1: string, text1: string, id2: string, text2: string, parse: string -> Parsed)
    requires parse(text1) == Value(JsObject(map["clientId" := JsString(id1)]))
    requires parse(text2) == Value(JsObject(map["clientId" := JsString(id2)]))
    ensures var r1 := ProcessToolCall(ToolCall("c1", Some(FunctionCall(ResetPassword, Some(text1)))), parse);
            var r2 := ProcessToolCall(ToolCall("c2", Some(FunctionCall(ResetPassword, Some(text2)))), parse);
            r1.Ok? && r2.Ok? && ClientIdOfLink(r1.value) == Some(id1) &&
            (r1.value == r2.value <==> id1 == id2)
  {
  }

  /** submitToolOutputs: the outputs of processToolCall for all of the run's calls, as one batch. */
  function SubmitToolOutputs(run: RunSnapshot, parse: string -> Parsed): (r: Result<Submission, Error>)
    ensures r.Ok? <==> forall i :: 0 <= i < |run.toolCalls| ==> ProcessToolCall(run.toolCalls[i], parse).Ok?
    ensures r.Err? ==> exists i :: 0 <= i < |run.toolCalls| && ProcessToolCall(run.toolCalls[i], parse) == Err(r.error) &&
                        forall j :: 0 <= j < i ==> ProcessToolCall(run.toolCalls[j], parse).Ok?
    ensures r.Ok? ==> r.value.threadId == run.threadId && r.value.runId == run.id &&
                      Answers(r.value.outputs, run.toolCalls) &&
                      forall i :: 0 <= i < |run.toolCalls| ==>
                        ProcessToolCall(run.toolCalls[i], parse) == Ok(r.value.outputs[i].output)
  {
    match ToolOutputs(run.toolCalls, c => ProcessToolCall(c, parse))
    case Err(e) => Err(e)
    case Ok(outputs) => Ok(Submission(run.threadId, run.id, outputs))
  }

  /** The action on a requires_action snapshot: submit the outputs, or throw before submitting. */
  function ActionStep(parse: string -> Parsed, run: RunSnapshot): (r: Step)
    ensures r.error.None? <==> forall i :: 0 <= i < |run.toolCalls| ==> ProcessToolCall(run.toolCalls[i], parse).Ok?
    ensures r.error.None? ==> r.events == [Submitted(SubmitToolOutputs(run, parse).value)]
    ensures r.error.Some? ==> r.events == [] && SubmitToolOutputs(run, parse) == Err(r.error.value)
  {
    match SubmitToolOutputs(run, parse)
    case Err(e) => Step([], Some(e))
    case Ok(s) => Step([Submitted(s)], None)
  }

  function Action(parse: string -> Parsed): RunSnapshot -> Step {
    run => ActionStep(parse, run)
  }

  lemma ActionWellBehaved(parse: string -> Parsed)
    ensures RetrievesNothing(Action(parse)) && SubmitsOnce(Action(parse))
  {
    var act := Action(parse);
    forall r
      ensures Retrievals(act(r).events) == []
      ensures |Submissions(act(r).events)| == if act(r).error.None? then 1 else 0
    {
      var es := act(r).events;
      if es != [] {
        assert es[1..] == [];
      }
    }
  }

  /**
   * retrieveRunUntilFinish(threadId, runId): poll; on requires_action
   * submit the tool outputs; stop at a terminal status. `script` holds
   * what successive retrievals return.
   */
  method RetrieveRunUntilFinish(script: seq<RunSnapshot>, parse: string -> Parsed)
    returns (outcome: Outcome, trace: seq<Event>)
    ensures outcome == Drive(script, Action(parse)).0
    ensures trace == Drive(script, Action(parse)).1
  {
    var act := Action(parse);
    trace := [];
    var i := 0;
    assert script[i..] == script;
    while i < |script|
      invariant 0 <= i <= |script|
      invariant Drive(script, act).0 == Drive(script[i..], act).0
      invariant Drive(script, act).1 == trace + Drive(script[i..], act).1
    {
      var run := script[i];
      DriveAdvance(script, i, act, trace);
      // The calls this poll makes after the retrieval, and the error it throws.
      var step := Step([], None);
      if run.status == RequiresAction {
        var submitted := SubmitToolOutputs(run, parse);
        if submitted.Err? {
          step := Step([], Some(submitted.error));
        } else {
          step := Step([Submitted(submitted.value)], None);
        }
      }
      assert step == StepOf(run, act);
      trace := trace + ([Retrieved(run)] + step.events);
      if step.error.Some? {
        outcome := Aborted(step.error.value);
        return;
      }
      if IsTerminal(run.status) {
        outcome := Finished(run);
        return;
      }
      assert Drive(script, act).0 == Drive(script[i + 1..], act).0;
      assert Drive(script, act).1 == trace + Drive(script[i + 1..], act).1;
      i := i + 1;
    }
    DriveDone(script, i, act, trace);
    outcome := Unfinished;
  }

  /** The submission at position j answers the requires_action snapshot retrieved just before it. */
  ghost predicate SubmittedAfterRetrieval(t: seq<Event>, j: nat)
    requires j < |t| && t[j].Submitted?
  {
    1 <= j && t[j - 1].Retrieved? && t[j - 1].run.status == RequiresAction &&
    t[j].submission.threadId == t[j - 1].run.threadId &&
    t[j].submission.runId == t[j - 1].run.id &&
    Answers(t[j].submission.outputs, t[j - 1].run.toolCalls)
  }

  /** Every submission immediately follows the requires_action snapshot whose calls it answers. */
  lemma {:induction false} SubmissionFollowsRetrieval(script: seq<RunSnapshot>, parse: string -> Parsed)
    ensures forall j :: 0 <= j < |Drive(script, Action(parse)).1| && Drive(script, Action(parse)).1[j].Submitted? ==>
              SubmittedAfterRetrieval(Drive(script, Action(parse)).1, j)
  {
    var act := Action(parse);
    if script != [] {
      var run := script[0];
      var step := StepOf(run, act);
      var head := [Retrieved(run)] + step.events;
      var t := Drive(script, act).1;
      forall j | 0 <= j < |head| && head[j].Submitted?
        ensures SubmittedAfterRetrieval(head, j)
      {
        assert run.status == RequiresAction;
        var submitted := SubmitToolOutputs(run, parse);
        assert submitted.Ok?;
        assert head == [Retrieved(run), Submitted(submitted.value)];
      }
      if step.error.None? && !IsTerminal(run.status) {
        var rest := Drive(script[1..], act).1;
        SubmissionFollowsRetrieval(script[1..], parse);
        assert t == head + rest;
        forall j | 0 <= j < |t| && t[j].Submitted?
          ensures SubmittedAfterRetrieval(t, j)
        {
          if j < |head| {
            assert t[..|head|] == head;
            assert SubmittedAfterRetrieval(head, j);
          } else {
            var k := j - |head|;
            assert t[j] == rest[k];
            assert SubmittedAfterRetrieval(rest, k);
            assert t[j - 1] == rest[k - 1];
          }
        }
      } else {
        assert t == head;
      }
    }
  }

  /** What `execute` runs for the command-line operands. */
  datatype Command =
    | ListAssistants
    | DeleteAssistant(id: Option<string>)
    | ListModels
    | ListFiles
    | CreateFile(path: Option<string>)
    | DeleteFile(id: Option<string>)
    | StartChat(options: Option<string>)
    | NoCommand   // execute resolves to undefined, so the process exits 0

  /** `args[i]`, undefined past the end. */
  function Arg(args: seq<string>, i: nat): Option<string> {
    if i < |args| then Some(args[i]) else None
  }

  /**
   * execute: the noun, then the verb; `del` and `delete` are one verb; an
   * unmatched verb falls through to the later nouns' tests and finally
   * does nothing.
   */
  function Execute(args: seq<string>): (r: Command)
    ensures r.StartChat? <==> Arg(args, 0) == Some("start")
    ensures r.StartChat? ==> r.options == Arg(args, 1)
    ensures r.DeleteAssistant? <==> Arg(args, 0) == Some("as") && Arg(args, 1) in {Some("del"), Some("delete")}
    ensures r.DeleteFile? <==> Arg(args, 0) == Some("file") && Arg(args, 1) in {Some("del"), Some("delete")}
    ensures r.CreateFile? <==> Arg(args, 0) == Some("file") && Arg(args, 1) == Some("create")
    ensures r.ListAssistants? <==> Arg(args, 0) == Some("as") && Arg(args, 1) == Some("ls")
    ensures r.ListModels? <==> Arg(args, 0) == Some("model") && Arg(args, 1) == Some("ls")
    ensures r.ListFiles? <==> Arg(args, 0) == Some("file") && Arg(args, 1) == Some("ls")
    ensures (r.DeleteAssistant? || r.DeleteFile?) ==> r.id == Arg(args, 2)
    ensures r.CreateFile? ==> r.path == Arg(args, 2)
  {
    var noun, verb, operand := Arg(args, 0), Arg(args, 1), Arg(args, 2);
    if noun == Some("as") && verb == Some("ls") then ListAssistants
    else if noun == Some("as") && verb in {Some("del"), Some("delete")} then DeleteAssistant(operand)
    else if noun == Some("model") && verb == Some("ls") then ListModels
    else if noun == Some("file") && verb == Some("ls") then ListFiles
    else if noun == Some("file") && verb == Some("create") then CreateFile(operand)
    else if noun == Some("file") && verb in {Some("del"), Some("delete")} then DeleteFile(operand)
    else if noun == Some("start") then StartChat(verb)
    else NoCommand
  }

  /** Reference table of the noun-verb pairs `execute` acts on, besides `start`. */
  const Verbs: seq<(string, string)> := [
    ("as", "ls"), ("as", "del"), ("as", "delete"),
    ("model", "ls"),
    ("file", "ls"), ("file", "create"), ("file", "del"), ("file", "delete")]

  predicate Recognised(args: seq<string>) {
    (|args| >= 1 && args[0] == "start") || (|args| >= 2 && (args[0], args[1]) in Verbs)
  }

  /** `execute` does something exactly for `start` and the listed pairs; any other operands do nothing and resolve. */
  lemma ExecuteRecognises(args: seq<string>)
    ensures Execute(args) != NoCommand <==> Recognised(args)
  {
    if |args| >= 2 && (args[0], args[1]) in Verbs {
      var k :| 0 <= k < |Verbs| && Verbs[k] == (args[0], args[1]);
      assert k < 8;
    }
  }

  /** Operands after the third are ignored. */
  lemma ExecuteReadsThreeOperands(args: seq<string>)
    requires |args| > 3
    ensures Execute(args) == Execute(args[..3])
  {
    assert Arg(args, 0) == Arg(args[..3], 0);
    assert Arg(args, 1) == Arg(args[..3], 1);
    assert Arg(args, 2) == Arg(args[..3], 2);
  }

  /** `del` and `delete` are aliases for every noun but `start`, which passes the verb on as its option. */
  lemma DeleteAliases(noun: string, rest: seq<string>)
    requires noun != "start"
    ensures Execute([noun, "del"] + rest) == Execute([noun, "delete"] + rest)
  {
    assert Arg([noun, "del"] + rest, 2) == Arg([noun, "delete"] + rest, 2);
  }

  const DefaultChatModel: string := "gpt-4-1106-preview"

  /** The `{ model = 'gpt-4-1106-preview' } = {}` parameter of start, applied to the value passed. */
  function ChatModel(options: Option<JsValue>): (r: Result<JsValue, Error>)
    ensures options.None? ==> r == Ok(JsString(DefaultChatModel))
    ensures options == Some(JsNull) ==> r == Err(PropertyOfNull)
    ensures options.Some? && options.value.JsObject? && "model" in options.value.fields ==>
              r == Ok(options.value.fields["model"])
    ensures options.Some? && options.value != JsNull && Field(options.value, "model").None? ==>
              r == Ok(JsString(DefaultChatModel))
  {
    match options
    case None => Ok(JsString(DefaultChatModel))
    case Some(JsNull) => Err(PropertyOfNull)
    case Some(v) => Ok(Field(v, "model").GetOr(JsString(DefaultChatModel)))
  }

  /** As written: `start(args[1])` passes the operand as a bare string. */
  function StartOptions(c: Command): Option<JsValue>
    requires c.StartChat?
  {
    if c.options.Some? then Some(JsString(c.options.value)) else None
  }

  /**
   * As written, `start` always chats with the default model: a string
   * has no `model` property, so the model named on the command line
   * (`node . start gpt-4`) is ignored.
   */
  lemma StartIgnoresNamedModel(args: seq<string>)
    requires |args| >= 1 && args[0] == "start"
    ensures Execute(args).StartChat?
    ensures ChatModel(StartOptions(Execute(args))) == Ok(JsString(DefaultChatModel))
    ensures Execute(["start", "gpt-4"]).StartChat? &&
            ChatModel(StartOptions(Execute(["start", "gpt-4"]))) != Ok(JsString("gpt-4"))
  {
  }

  /** Corrected: `start({model: args[1]})`. */
  function CorrectedStartOptions(c: Command): Option<JsValue>
    requires c.StartChat?
  {
    Some(JsObject(if c.options.Some? then map["model" := JsString(c.options.value)] else map[]))
  }

  /** With the corrected call the named model is used, and the default only when none is named. */
  lemma CorrectedStartUsesNamedModel(args: seq<string>)
    requires |args| >= 1 && args[0] == "start"
    ensures Execute(args).StartChat?
    ensures ChatModel(CorrectedStartOptions(Execute(args))) ==
              Ok(JsString(if |args| >= 2 then args[1] else DefaultChatModel))
  {
  }

  /**
   * What a drive does, stated on the script: it retrieves a prefix of the
   * snapshots, returns the first terminal one when it finishes, and makes
   * one submission per requires_action snapshot retrieved (none for the
   * one whose tool outputs threw).
   */
  /**
   * A drive that throws throws the error of the first failing tool call of
   * the last snapshot it retrieved.
   */
  lemma AbortedDriveThrowsFirstCallError(script: seq<RunSnapshot>, parse: string -> Parsed)
    ensures var (o, t) := Drive(script, Action(parse));
            var r := Retrievals(t);
            o.Aborted? ==>
              |r| > 0 && r[|r| - 1].status == RequiresAction &&
              var calls := r[|r| - 1].toolCalls;
              exists i :: 0 <= i < |calls| && ProcessToolCall(calls[i], parse) == Err(o.error) &&
                forall j :: 0 <= j < i ==> ProcessToolCall(calls[j], parse).Ok?
  {
    ActionWellBehaved(parse);
    DriveEndsAtLastRetrieved(script, Action(parse));
  }

  lemma PollingContract(script: seq<RunSnapshot>, parse: string -> Parsed)
    ensures var (o, t) := Drive(script, Action(parse));
            var k := |Retrievals(t)|;
            k <= |script| && Retrievals(t) == script[..k] &&
            (o.Finished? ==> 0 < k && o.run == script[k - 1] && IsTerminal(o.run.status) &&
                             forall j :: 0 <= j < k - 1 ==> !IsTerminal(script[j].status)) &&
            (o.Unfinished? ==> k == |script| && forall j :: 0 <= j < |script| ==> !IsTerminal(script[j].status)) &&
            |Submissions(t)| + (if o.Aborted? then 1 else 0) == ActionCount(script[..k])
  {
    ActionWellBehaved(parse);
    DriveStopsAtFirstTerminal(script, Action(parse));
    DriveSubmitsOncePerAction(script, Action(parse));
  }
}
