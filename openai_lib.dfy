/**
 * lib/openai.js: the assistant request built by createAssistant, the
 * registry-dispatched tool-output submission and the run-polling driver
 * with its `executeTool` observer.
 */
module OpenAILib {
  import opened Wrappers
  import opened JsValues
  import opened ToolCalls
  import opened Runs
  import opened Tools

  /** createAssistant's options; `None` is an option left undefined. */
  datatype CreateAssistantParams = CreateAssistantParams(
    instructions: Option<string>,
    fileIds: Option<seq<string>>,
    name: Option<string>,
    model: Option<string>)

  datatype VectorStore = VectorStore(fileIds: seq<string>)

  /** `tool_resources: {file_search: {vector_stores}}`. */
  datatype ToolResources = ToolResources(fileSearchVectorStores: seq<VectorStore>)

  /** The body of `assistants.create`; `toolResources` is `None` when the key is absent. */
  datatype AssistantRequest = AssistantRequest(
    model: string,
    name: string,
    instructions: Option<string>,
    tools: seq<ToolDecl>,
    toolResources: Option<ToolResources>)

  const DefaultName: string := "智能客服"
  const DefaultModel: string := "gpt-4-turbo-preview"

  /** The declarations of the registry's tools, in registry order. */
  function Declarations(registry: seq<(string, Tool)>): (ds: seq<ToolDecl>)
    ensures |ds| == |registry|
    ensures forall i :: 0 <= i < |registry| ==> ds[i] == Declaration(registry[i].1)
  {
    if registry == [] then [] else [Declaration(registry[0].1)] + Declarations(registry[1..])
  }

  /**
   * createAssistant: defaults applied; the code-interpreter and
   * file-search tools and the tool resources only when file ids are
   * given; the registry's declarations after them.
   */
  function CreateAssistant(p: CreateAssistantParams, registry: seq<(string, Tool)>): (req: AssistantRequest)
    ensures var ids := p.fileIds.GetOr([]);
            var offset := if |ids| > 0 then 2 else 0;
            req.model == p.model.GetOr(DefaultModel) &&
            req.name == p.name.GetOr(DefaultName) &&
            req.instructions == p.instructions &&
            (CodeInterpreter in req.tools <==> |ids| > 0) &&
            (FileSearch in req.tools <==> |ids| > 0) &&
            |req.tools| == offset + |registry| &&
            (forall i :: 0 <= i < |registry| ==> req.tools[offset + i] == Declaration(registry[i].1)) &&
            (req.toolResources.Some? <==> |ids| > 0) &&
            (req.toolResources.Some? ==> req.toolResources.value == ToolResources([VectorStore(ids)]))
  {
    var ids := p.fileIds.GetOr([]);
    var fileTools := if |ids| > 0 then [CodeInterpreter, FileSearch] else [];
    var decls := Declarations(registry);
    assert forall d :: d in decls ==> d.FunctionTool?;
    AssistantRequest(
      p.model.GetOr(DefaultModel),
      p.name.GetOr(DefaultName),
      p.instructions,
      fileTools + decls,
      if |ids| > 0 then Some(ToolResources([VectorStore(ids)])) else None)
  }

  /** Leaving fileIds out is the same as passing an empty list. */
  lemma FileIdsDefaultToEmpty(p: CreateAssistantParams, registry: seq<(string, Tool)>)
    requires p.fileIds.None?
    ensures CreateAssistant(p, registry) == CreateAssistant(p.(fileIds := Some([])), registry)
    ensures CreateAssistant(p, registry).toolResources.None?
    ensures CreateAssistant(p, registry).tools == Declarations(registry)
  {
  }

  /** `require('./tools')[name]`: the registry entry of that name. */
  function Lookup(registry: seq<(string, Tool)>, name: string): (r: Option<Tool>)
    ensures r.Some? <==> exists i :: 0 <= i < |registry| && registry[i].0 == name
    ensures r.Some? ==> exists i :: 0 <= i < |registry| && registry[i] == (name, r.value)
  {
    if registry == [] then None
    else if registry[0].0 == name then Some(registry[0].1)
    else
      var r := Lookup(registry[1..], name);
      assert forall i :: 0 < i < |registry| ==> registry[i] == registry[1..][i - 1];
      r
  }

  /**
   * Every function tool the assistant is created with can be dispatched:
   * its advertised name finds a registry entry.
   */
  lemma DeclaredToolsAreDispatchable(p: CreateAssistantParams, registry: seq<(string, Tool)>)
    requires KeysMatchNames(registry)
    ensures forall d :: d in CreateAssistant(p, registry).tools && d.FunctionTool? ==>
              Lookup(registry, d.decl.name).Some?
  {
    var req := CreateAssistant(p, registry);
    var offset := if |p.fileIds.GetOr([])| > 0 then 2 else 0;
    forall d | d in req.tools && d.FunctionTool?
      ensures Lookup(registry, d.decl.name).Some?
    {
      var k :| 0 <= k < |req.tools| && req.tools[k] == d;
      assert k >= offset;
      assert registry[k - offset].0 == d.decl.name;
    }
  }

  /**
   * The body of one handler of submitToolOutputs: look the tool up by the
   * call's function name and run its `execute`; a missing tool throws.
   */
  function RunTool(registry: seq<(string, Tool)>, run: RunSnapshot, call: ToolCall, parse: string -> Parsed)
    : (r: Result<string, Error>)
    ensures call.fn.None? ==> r == Err(NoFunction)
    ensures call.fn.Some? && Lookup(registry, call.fn.value.name).None? ==>
              r == Err(UnknownTool(call.fn.value.name))
    ensures call.fn.Some? && Lookup(registry, call.fn.value.name).Some? ==>
              r == Execute(Lookup(registry, call.fn.value.name).value, run, call, parse)
  {
    match call.fn
    case None => Err(NoFunction)
    case Some(f) =>
      match Lookup(registry, f.name)
      case None => Err(UnknownTool(f.name))
      case Some(t) => Execute(t, run, call, parse)
  }

  /**
   * submitToolOutputs: the outputs of all of the run's tool calls, one
   * batch for the run; the first failing handler aborts it unsubmitted.
   */
  function SubmitToolOutputs(registry: seq<(string, Tool)>, run: RunSnapshot, parse: string -> Parsed)
    : (r: Result<Submission, Error>)
    ensures r.Ok? <==> forall i :: 0 <= i < |run.toolCalls| ==> RunTool(registry, run, run.toolCalls[i], parse).Ok?
    ensures r.Ok? ==> r.value.threadId == run.threadId && r.value.runId == run.id &&
                      Answers(r.value.outputs, run.toolCalls) &&
                      forall i :: 0 <= i < |run.toolCalls| ==>
                        RunTool(registry, run, run.toolCalls[i], parse) == Ok(r.value.outputs[i].output)
    ensures r.Err? ==> exists i :: 0 <= i < |run.toolCalls| &&
                        RunTool(registry, run, run.toolCalls[i], parse) == Err(r.error)
  {
    match ToolOutputs(run.toolCalls, c => RunTool(registry, run, c, parse))
    case Err(e) => Err(e)
    case Ok(outputs) => Ok(Submission(run.threadId, run.id, outputs))
  }

  /**
   * The action on a requires_action snapshot: call `executeTool` with the
   * tool calls (an absent observer throws), then submit their outputs.
   */
  function ActionStep(registry: seq<(string, Tool)>, hasObserver: bool, parse: string -> Parsed, run: RunSnapshot)
    : (r: Step)
    ensures !hasObserver ==> r == Step([], Some(NoObserver))
    ensures hasObserver ==> |r.events| > 0 && r.events[0] == Observed(run.toolCalls)
    ensures r.error.None? <==>
              hasObserver && forall i :: 0 <= i < |run.toolCalls| ==> RunTool(registry, run, run.toolCalls[i], parse).Ok?
    ensures r.error.None? ==> r.events == [Observed(run.toolCalls), Submitted(SubmitToolOutputs(registry, run, parse).value)]
    ensures hasObserver && r.error.Some? ==> r.events == [Observed(run.toolCalls)]
    ensures hasObserver && r.error.Some? ==> SubmitToolOutputs(registry, run, parse) == Err(r.error.value)
  {
    if !hasObserver then Step([], Some(NoObserver))
    else
      match SubmitToolOutputs(registry, run, parse)
      case Err(e) => Step([Observed(run.toolCalls)], Some(e))
      case Ok(s) => Step([Observed(run.toolCalls), Submitted(s)], None)
  }

  function Action(registry: seq<(string, Tool)>, hasObserver: bool, parse: string -> Parsed): RunSnapshot -> Step {
    run => ActionStep(registry, hasObserver, parse, run)
  }

  lemma ActionWellBehaved(registry: seq<(string, Tool)>, hasObserver: bool, parse: string -> Parsed)
    ensures RetrievesNothing(Action(registry, hasObserver, parse))
    ensures SubmitsOnce(Action(registry, hasObserver, parse))
  {
    var act := Action(registry, hasObserver, parse);
    forall r
      ensures Retrievals(act(r).events) == []
      ensures |Submissions(act(r).events)| == if act(r).error.None? then 1 else 0
    {
      var observed: seq<Event> := [Observed(r.toolCalls)];
      assert Retrievals(observed) == [] && Submissions(observed) == [];
      if hasObserver && SubmitToolOutputs(registry, r, parse).Ok? {
        var submitted: seq<Event> := [Submitted(SubmitToolOutputs(registry, r, parse).value)];
        assert submitted[1..] == [];
        assert Retrievals(submitted) == [] && |Submissions(submitted)| == 1;
        RetrievalsAppend(observed, submitted);
        SubmissionsAppend(observed, submitted);
        assert act(r).events == observed + submitted;
      }
    }
  }

  /**
   * retrieveRunUntilFinish({threadId, runId, executeTool}): poll the run;
   * on requires_action call the observer then submit; stop at a terminal
   * status. `script` holds what successive retrievals return; `hasObserver`
   * says whether `executeTool` was passed.
   */
  method RetrieveRunUntilFinish(
    script: seq<RunSnapshot>, registry: seq<(string, Tool)>, hasObserver: bool, parse: string -> Parsed)
    returns (outcome: Outcome, trace: seq<Event>)
    ensures outcome == Drive(script, Action(registry, hasObserver, parse)).0
    ensures trace == Drive(script, Action(registry, hasObserver, parse)).1
  {
    var act := Action(registry, hasObserver, parse);
    trace := [];
    var i := 0;
    assert script[i..] == script;
    while i < |script|
      invariant 0 <= i <= |script|
      invariant Drive(script, act).0 == Drive(script[i..], act).0
      invariant Drive(script, act).1 == trace + Drive(script[i..], act).1
    {
      var run := script[i];
      DriveAdvance(script, i, act, trace);
      // The calls this poll makes after the retrieval, and the error it throws.
      var step := Step([], None);
      if run.status == RequiresAction {
        if !hasObserver {
          step := Step([], Some(NoObserver));
        } else {
          var submitted := SubmitToolOutputs(registry, run, parse);
          if submitted.Err? {
            step := Step([Observed(run.toolCalls)], Some(submitted.error));
          } else {
            step := Step([Observed(run.toolCalls), Submitted(submitted.value)], None);
          }
        }
      }
      assert step == StepOf(run, act);
      trace := trace + ([Retrieved(run)] + step.events);
      if step.error.Some? {
        outcome := Aborted(step.error.value);
        return;
      }
      if IsTerminal(run.status) {
        outcome := Finished(run);
        return;
      }
      assert Drive(script, act).0 == Drive(script[i + 1..], act).0;
      assert Drive(script, act).1 == trace + Drive(script[i + 1..], act).1;
      i := i + 1;
    }
    DriveDone(script, i, act, trace);
    outcome := Unfinished;
  }

  /**
   * Without an observer the first requires_action snapshot throws before
   * anything is submitted.
   */
  lemma {:induction false} MissingObserverThrowsAtFirstAction(
    script: seq<RunSnapshot>, registry: seq<(string, Tool)>, parse: string -> Parsed)
    ensures var (o, t) := Drive(script, Action(registry, false, parse));
            Submissions(t) == [] &&
            (o.Aborted? <==> ActionCount(Retrievals(t)) > 0) &&
            (o.Aborted? ==> o.error == NoObserver)
  {
    var act := Action(registry, false, parse);
    if script != [] {
      var run := script[0];
      var step := StepOf(run, act);
      var head := [Retrieved(run)] + step.events;
      assert step.events == [] && head == [Retrieved(run)] && head[1..] == [];
      assert Submissions(head) == [] + Submissions(head[1..]);
      assert Retrievals(head) == [run] && Submissions(head) == [];
      assert ActionCount([run]) == (if run.status == RequiresAction then 1 else 0) + ActionCount([]);
      if step.error.None? && !IsTerminal(run.status) {
        var next := Drive(script[1..], act);
        MissingObserverThrowsAtFirstAction(script[1..], registry, parse);
        RetrievalsAppend(head, next.1);
        SubmissionsAppend(head, next.1);
        ActionCountAppend([run], Retrievals(next.1));
      }
    }
  }

  /**
   * The submission at position j of a trace answers the tool calls the
   * observer saw just before it, which came with the requires_action
   * snapshot retrieved just before that.
   */
  ghost predicate ObservedBeforeSubmitted(t: seq<Event>, j: nat)
    requires j < |t| && t[j].Submitted?
  {
    2 <= j && t[j - 2].Retrieved? && t[j - 2].run.status == RequiresAction &&
    t[j - 1] == Observed(t[j - 2].run.toolCalls) &&
    t[j].submission.threadId == t[j - 2].run.threadId &&
    t[j].submission.runId == t[j - 2].run.id &&
    Answers(t[j].submission.outputs, t[j - 2].run.toolCalls)
  }

  /** Every submission is preceded by the observer call and the snapshot it answers. */
  lemma {:induction false} ObserverPrecedesSubmission(
    script: seq<RunSnapshot>, registry: seq<(string, Tool)>, hasObserver: bool, parse: string -> Parsed)
    ensures forall j :: 0 <= j < |Drive(script, Action(registry, hasObserver, parse)).1| &&
                        Drive(script, Action(registry, hasObserver, parse)).1[j].Submitted? ==>
              ObservedBeforeSubmitted(Drive(script, Action(registry, hasObserver, parse)).1, j)
  {
    var act := Action(registry, hasObserver, parse);
    if script != [] {
      var run := script[0];
      var step := StepOf(run, act);
      var head := [Retrieved(run)] + step.events;
      var t := Drive(script, act).1;
      forall j | 0 <= j < |head| && head[j].Submitted?
        ensures ObservedBeforeSubmitted(head, j)
      {
        assert run.status == RequiresAction && hasObserver;
        var submitted := SubmitToolOutputs(registry, run, parse);
        assert submitted.Ok?;
        assert head == [Retrieved(run), Observed(run.toolCalls), Submitted(submitted.value)];
      }
      if step.error.None? && !IsTerminal(run.status) {
        var rest := Drive(script[1..], act).1;
        ObserverPrecedesSubmission(script[1..], registry, hasObserver, parse);
        assert t == head + rest;
        forall j | 0 <= j < |t| && t[j].Submitted?
          ensures ObservedBeforeSubmitted(t, j)
        {
          if j < |head| {
            assert t[..|head|] == head;
            assert ObservedBeforeSubmitted(head, j);
          } else {
            var k := j - |head|;
            assert t[j] == rest[k];
            assert ObservedBeforeSubmitted(rest, k);
            assert t[j - 1] == rest[k - 1] && t[j - 2] == rest[k - 2];
          }
        }
      } else {
        assert t == head;
      }
    }
  }

  /**
   * What a drive does, stated on the script: it retrieves a prefix of the
   * snapshots, returns the first terminal one when it finishes, and makes
   * one submission per requires_action snapshot retrieved (none for the
   * one whose tool outputs threw).
   */
  /**
   * With an observer, a drive that throws throws the error of one of the
   * tool handlers of the last snapshot it retrieved.
   */
  lemma AbortedDriveThrowsHandlerError(script: seq<RunSnapshot>, registry: seq<(string, Tool)>, parse: string -> Parsed)
    ensures var (o, t) := Drive(script, Action(registry, true, parse));
            var r := Retrievals(t);
            o.Aborted? ==>
              |r| > 0 && r[|r| - 1].status == RequiresAction &&
              var last := r[|r| - 1];
              exists i :: 0 <= i < |last.toolCalls| && RunTool(registry, last, last.toolCalls[i], parse) == Err(o.error)
  {
    ActionWellBehaved(registry, true, parse);
    DriveEndsAtLastRetrieved(script, Action(registry, true, parse));
  }

  lemma PollingContract(script: seq<RunSnapshot>, registry: seq<(string, Tool)>, hasObserver: bool, parse: string -> Parsed)
    ensures var (o, t) := Drive(script, Action(registry, hasObserver, parse));
            var k := |Retrievals(t)|;
            k <= |script| && Retrievals(t) == script[..k] &&
            (o.Finished? ==> 0 < k && o.run == script[k - 1] && IsTerminal(o.run.status) &&
                             forall j :: 0 <= j < k - 1 ==> !IsTerminal(script[j].status)) &&
            (o.Unfinished? ==> k == |script| && forall j :: 0 <= j < |script| ==> !IsTerminal(script[j].status)) &&
            |Submissions(t)| + (if o.Aborted? then 1 else 0) == ActionCount(script[..k])
  {
    ActionWellBehaved(registry, hasObserver, parse);
    DriveStopsAtFirstTerminal(script, Action(registry, hasObserver, parse));
    DriveSubmitsOncePerAction(script, Action(registry, hasObserver, parse));
  }
}
