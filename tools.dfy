/**
 * The tool registry of lib/tools.js: one tool, switchToHumanCustomerService,
 * with the declaration advertised to the assistant and the handler run
 * when the assistant calls it.
 */
module Tools {
  import opened Wrappers
  import opened JsValues
  import opened ToolCalls
  import opened Runs

  /** One parameter of a function tool: its JSON-schema type and description. */
  datatype PropertySchema = PropertySchema(kind: string, description: string)

  /** An `{type: 'object', properties, required}` parameter schema; properties keep their order. */
  datatype Parameters = Parameters(properties: seq<(string, PropertySchema)>, required: seq<string>)

  datatype FunctionDecl = FunctionDecl(name: string, description: string, parameters: Parameters)

  /** An entry of an assistant's `tools` list. */
  datatype ToolDecl = CodeInterpreter | FileSearch | FunctionTool(decl: FunctionDecl)

  /** The tools the registry holds. */
  datatype Tool = SwitchToHumanCustomerService

  /** The registry as `Object.entries(require('./tools'))` lists it: key and tool, in declaration order. */
  const Registry: seq<(string, Tool)> := [("switchToHumanCustomerService", SwitchToHumanCustomerService)]

  const NotProvided: string := "未提供"
  const Clarification: string :=
    "为了确保人工客服能高效解决您的问题，请先告诉我们您遇到的具体问题或您希望咨询的详细情况。"
  const Transfer: string := "将转接至人工客服"

  /** A tool's `assistantOptions`. */
  function Declaration(t: Tool): (d: ToolDecl)
    ensures d.FunctionTool?
    ensures forall j :: 0 <= j < |d.decl.parameters.properties| ==> d.decl.parameters.properties[j].1.kind == "string"
    ensures |d.decl.parameters.required| == |d.decl.parameters.properties|
  {
    match t
    case SwitchToHumanCustomerService =>
      FunctionTool(FunctionDecl(
        "switchToHumanCustomerService",
        "转接人工客服，当任一参数未提供时必须请客户提供。",
        Parameters(
          [ ("issue", PropertySchema("string", "使用者遇到的问题。如果无法明确的找到数值请询问使用者。")),
            ("date", PropertySchema("string", "交易或问题发生时间。如果无法明确的找到数值请询问使用者。")),
            ("details", PropertySchema("string", "订单号、提款方式或游戏名称。如果无法明确的找到数值请询问使用者。")) ],
          ["issue", "date", "details"])))
  }

  /** A field counts as given when it is truthy and not the placeholder 未提供. */
  predicate Provided(v: Option<JsValue>) {
    Truthy(v) && v != Some(JsString(NotProvided))
  }

  /** The argument text of a call, `toolCall.function?.arguments`. */
  function ArgumentText(call: ToolCall): Option<string> {
    if call.fn.Some? then call.fn.value.arguments else None
  }

  /** The fields the switchToHumanCustomerService declaration marks as required. */
  function RequiredFields(): seq<string> {
    Declaration(SwitchToHumanCustomerService).decl.parameters.required
  }

  /**
   * switchToHumanCustomerService.execute: with no argument text, ask for
   * details; parse the text (a malformed one throws); ask for details
   * unless every required field is given; otherwise confirm the transfer.
   * The run is not consulted.
   */
  function ExecuteSwitchToHuman(run: RunSnapshot, call: ToolCall, parse: string -> Parsed)
    : (r: Result<string, Error>)
    ensures r.Ok? ==> r.value == Clarification || r.value == Transfer
    ensures ArgumentText(call) in {None, Some("")} ==> r == Ok(Clarification)
    ensures r.Err? <==> ArgumentText(call) !in {None, Some("")} &&
                        parse(ArgumentText(call).value) in {Malformed, Value(JsNull)}
    ensures r.Err? ==> r.error == (if parse(ArgumentText(call).value).Malformed? then SyntaxError else PropertyOfNull)
    ensures r == Ok(Transfer) <==>
              ArgumentText(call) !in {None, Some("")} &&
              var p := parse(ArgumentText(call).value);
              p.Value? && p.v != JsNull &&
              forall f :: f in RequiredFields() ==> Provided(Field(p.v, f))
  {
    var text := ArgumentText(call);
    if text.None? || text.value == "" then Ok(Clarification)
    else
      match parse(text.value)
      case Malformed => Err(SyntaxError)
      case Value(args) =>
        if args == JsNull then Err(PropertyOfNull)
        else if
          !Provided(Field(args, "issue")) ||
          !Provided(Field(args, "date")) ||
          !Provided(Field(args, "details"))
        then Ok(Clarification)
        else Ok(Transfer)
  }

  /** Dispatch to a tool's `execute`. */
  function Execute(t: Tool, run: RunSnapshot, call: ToolCall, parse: string -> Parsed): Result<string, Error> {
    match t
    case SwitchToHumanCustomerService => ExecuteSwitchToHuman(run, call, parse)
  }

  /** The handler's answer does not depend on the run it is given. */
  lemma ExecuteIgnoresRun(run1: RunSnapshot, run2: RunSnapshot, call: ToolCall, parse: string -> Parsed)
    ensures ExecuteSwitchToHuman(run1, call, parse) == ExecuteSwitchToHuman(run2, call, parse)
  {
  }

  /**
   * Every registry entry is keyed by the name its declaration advertises,
   * and every required field is a declared property.
   */
  predicate KeysMatchNames(registry: seq<(string, Tool)>) {
    forall i :: 0 <= i < |registry| ==> Declaration(registry[i].1).decl.name == registry[i].0
  }

  lemma RegistryWellDeclared()
    ensures KeysMatchNames(Registry)
    ensures forall t: Tool, f :: f in Declaration(t).decl.parameters.required ==>
              exists j :: 0 <= j < |Declaration(t).decl.parameters.properties| &&
                          Declaration(t).decl.parameters.properties[j].0 == f
  {
    forall t: Tool, f | f in Declaration(t).decl.parameters.required
      ensures exists j :: 0 <= j < |Declaration(t).decl.parameters.properties| &&
                          Declaration(t).decl.parameters.properties[j].0 == f
    {
      var props := Declaration(t).decl.parameters.properties;
      if f == "issue" { assert props[0].0 == f; }
      else if f == "date" { assert props[1].0 == f; }
      else { assert props[2].0 == f; }
    }
  }
}
