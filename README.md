# openai-demo: run polling and tool dispatch, modelled in Dafny

This project models the decision logic of a command-line harness around a
chat-assistant service. The service does all the real work: it owns
assistants, threads and runs. Locally, the harness does five things:

- it builds the assistant-creation request;
- it polls a run until the run reaches a terminal status;
- on every `requires_action` snapshot it answers the run's tool calls in one
  batched submission;
- it dispatches each tool call to a handler;
- it dispatches command-line verbs.

Every remote call is replaced as follows:

- **Retrievals.** The service's answers are a *script*: the sequence of run
  snapshots that successive `runs.retrieve` calls return.
- **Effects.** What the drivers do is a *trace* of events: `Retrieved`,
  `Observed` (the `executeTool` observer of `lib/openai.js`) and `Submitted`
  (one batched `submitToolOutputs`).
- **`JSON.parse`.** It is an opaque parameter `parse: string -> Parsed` that
  either rejects the text or returns a JSON value.

Files:

- `wrappers.dfy`: `Option` (a `None` stands for JavaScript `undefined`) and
  `Result` (a value, or a thrown error).
- `js_values.dfy`: JSON values, truthiness, property reads, `String(n)` and
  template-literal interpolation.
- `tool_calls.dfy`: tool calls, tool outputs, submissions, the errors a call
  can throw, and `ToolOutputs`, the map from calls to
  `{tool_call_id, output}` that stops at the first failing call.
- `runs.dfy`: the polling state machine shared by both drivers. `Drive`
  specifies the do-while loop of `retrieveRunUntilFinish`, and the lemmas
  about it are general over the driver's action.
- `tools.dfy`: `lib/tools.js`, the registry and the
  `switchToHumanCustomerService` tool.
- `openai_lib.dfy`: `lib/openai.js`. It holds `createAssistant`,
  `submitToolOutputs` (which dispatches through the registry) and the
  polling driver with its observer.
- `index_cli.dfy`: `index.js`. It holds `processToolCall`, the
  `submitToolOutputs` and polling driver of `index.js`, the command dispatch
  of `execute`, and the destructuring of the `start` options.
- `duration.dfy`: the elapsed-time line of `index.js:258`. Its regular
  expression is modelled as written and proved equal to grouping the digits
  in threes from the right.

Both drivers are `while` loops. Each is proved equal to `Drive` on the same
script. What a drive guarantees is proved about `Drive` and specialised to
each driver.

Two behaviours of the code are worth stating outright:

- **Output order.** The outputs of one batch keep the calls' order
  (`Array.map`, and `Promise.all` keeps index order), and so does the model.
- **The observer.** In `lib/openai.js` a missing `executeTool` throws a
  TypeError at the first `requires_action` snapshot, before anything is
  submitted (`MissingObserverThrowsAtFirstAction`).

## Model

| member | source | states |
|---|---|---|
| `ToolCalls.ToolOutputs` | index.js:116-121 | The batch succeeds exactly when every call's handler succeeds. It then has one output per call, in order, each with its call's id and its handler's result. When it fails, its error is that of the first failing call. |
| `IndexCli.ProcessToolCall` | index.js:97-109 | Arguments are parsed before the name is looked at, so missing argument text (`JSON.parse(undefined)`) or malformed JSON throws a SyntaxError for every tool name. `reset_password` with `null` arguments throws a TypeError. Otherwise it returns the reset link, with the interpolated `clientId` between the fixed prefix ending `clientId=` and the suffix. `change_to_human_customer_service` returns exactly 切換至人工客服. Any other name returns 沒有這個功能 and never throws. |
| `IndexCli.ResetLinkCarriesClientId` | index.js:102-103 | A string client id appears verbatim after `clientId=`. Two links are equal exactly when their client ids are. |
| `IndexCli.SubmitToolOutputs` | index.js:111-124 | The submission is keyed by the run's thread id and run id. It answers each tool call once, in order, with that call's id and its `processToolCall` output. It exists only when every call succeeds. Otherwise its error is that of the first call whose `processToolCall` throws. |
| `IndexCli.ActionStep` | index.js:133-135 | On a `requires_action` snapshot the driver submits one batch exactly when every call's `processToolCall` succeeds. When one throws, nothing is submitted and that error is thrown. |
| `IndexCli.RetrieveRunUntilFinish` | index.js:126-139 | The loop returns exactly the outcome and the calls that `Drive` specifies for the `index.js` action; `PollingContract` states what those are. |
| `IndexCli.AbortedDriveThrowsFirstCallError` | index.js:116-134 | A drive that throws stopped on a `requires_action` snapshot. Its error is that of the first failing `processToolCall` among that snapshot's calls. |
| `IndexCli.PollingContract` | index.js:128-138 | The driver retrieves a prefix of the script and nothing after it. A finished drive returns the first terminal snapshot. There is one submission per `requires_action` snapshot retrieved, except the one whose outputs threw. |
| `IndexCli.SubmissionFollowsRetrieval` | index.js:133-135 | Every submission directly follows the `requires_action` snapshot it answers. It carries that run's ids and answers exactly that snapshot's tool calls. |
| `IndexCli.Execute` | index.js:264-300 | `start` is chosen exactly when the first operand is `start`, and then gets the second operand. Each noun-verb command is chosen exactly for its own pair, with `del` and `delete` both deleting. The delete and create commands get the third operand. |
| `IndexCli.ExecuteRecognises` | index.js:264-300 | `execute` acts exactly on `start` and the listed noun-verb pairs. Any other operands give `NoCommand`, which resolves, so the process exits 0. |
| `IndexCli.ExecuteReadsThreeOperands` | index.js:264-300 | Operands after the third do not change what `execute` does. |
| `IndexCli.DeleteAliases` | index.js:272-294 | `del` and `delete` select the same command for every noun except `start`. |
| `IndexCli.ChatModel` | index.js:218 | Destructuring `{ model = 'gpt-4-1106-preview' } = {}` gives the default when nothing is passed. It gives an object's own `model` property when there is one, and the default for any other non-null value (a string, a number, `{}`). It throws on `null`. |
| `IndexCli.StartIgnoresNamedModel` | index.js:297-299 | As written, `start` always gets the default model, whatever `args[1]` names. |
| `IndexCli.CorrectedStartUsesNamedModel` | index.js:218 | With `start({model: args[1]})`, the named model is used, and the default only when none is named. |
| `DurationFormat.ReplaceFrom` | index.js:258 | The global replace only inserts commas, at most |s| − p + 1 of them in all. For an input without commas, such as `String(ms)`, deleting the commas gives the input back, so every character is kept in order. |
| `DurationFormat.AddSeparators` | index.js:258 | The replacement only inserts commas. For an input without commas, such as `String(ms)`, deleting them gives the input back. |
| `DurationFormat.SeparatorsGroupDigits` | index.js:258 | The `\B(?=(\d{3})+(?!\d))` replacement on `String(ms)` equals the digits grouped in threes from the right, with a leading minus sign kept in front. |
| `DurationFormat.DurationLineGroupsDigits` | index.js:258 | The printed line is `duration: `, the grouped digits with any minus sign in front, then `ms`. |
| `DurationFormat.GroupedShape` | index.js:258 | Grouping adds `(n - 1) / 3` commas to `n` digits. A character is a comma exactly at the positions a multiple of four from the right end, so at most three digits come before the first comma and exactly three after each. |
| `DurationFormat.BelowThousandUnchanged` | index.js:258 | Durations from 0 to 999 ms are printed unchanged. |
| `DurationFormat.SeparatorsRoundTrip` | index.js:258 | Deleting the commas gives back `String(ms)`. For non-negative ms, reading the digits gives back ms. |
| `OpenAILib.CreateAssistant` | lib/openai.js:3-42 | The model and name defaults apply and the instructions pass through. `code_interpreter` and `file_search` are in the tools exactly when `fileIds` is non-empty. The registry's declarations follow them, one per entry, in registry order. `tool_resources` is present exactly when `fileIds` is non-empty, and then holds one vector store whose `file_ids` is `fileIds`. |
| `OpenAILib.FileIdsDefaultToEmpty` | lib/openai.js:6 | Leaving out `fileIds` is the same as passing `[]`: no file tools and no `tool_resources`. |
| `OpenAILib.Declarations` | lib/openai.js:25 | There is one declaration per registry entry, in registry order, each being that entry's `assistantOptions`. |
| `OpenAILib.Lookup` | lib/openai.js:47 | A tool is found exactly when some registry entry has that key, and then it is that entry's tool. |
| `OpenAILib.DeclaredToolsAreDispatchable` | lib/openai.js:17-47 | Suppose every registry key equals its declared function name. Then every function tool the assistant is created with can be found by `submitToolOutputs`. |
| `OpenAILib.RunTool` | lib/openai.js:46-57 | A call with no `function` member throws. So does a name with no registry entry. Otherwise the result is the registered tool's `execute`. |
| `OpenAILib.SubmitToolOutputs` | lib/openai.js:44-67 | The submission exists exactly when every call's handler succeeds. It is keyed by the run's ids and answers each call once, in order, with its id and with its handler's result as the output. Otherwise the error is one that some call's handler threw. |
| `OpenAILib.ActionWellBehaved` | lib/openai.js:78-83 | The `requires_action` action never retrieves. It submits exactly once when it succeeds and never when it throws. |
| `OpenAILib.ActionStep` | lib/openai.js:78-83 | Without an observer the action throws before any call. With one, the observer is called first. The batch is then submitted exactly when every call's handler succeeds. When one throws, only the observer call was made, and the error thrown is the batch's own. |
| `OpenAILib.RetrieveRunUntilFinish` | lib/openai.js:69-87 | The loop returns exactly the outcome and the calls that `Drive` specifies for the observer-then-submit action; `PollingContract` and `MissingObserverThrowsAtFirstAction` state what those are. |
| `OpenAILib.AbortedDriveThrowsHandlerError` | lib/openai.js:46-82 | With an observer, a drive that throws stopped on a `requires_action` snapshot. Its error is one that a tool handler of that snapshot's calls threw. |
| `OpenAILib.PollingContract` | lib/openai.js:72-86 | The driver retrieves a prefix of the script and nothing after it. A finished drive returns the first terminal snapshot. There is one submission per `requires_action` snapshot retrieved, except the one that threw. |
| `OpenAILib.ObserverPrecedesSubmission` | lib/openai.js:78-83 | Every submission directly follows the observer call with the same tool calls. That call directly follows the `requires_action` snapshot carrying them, and the submission answers exactly those calls for that run. |
| `OpenAILib.MissingObserverThrowsAtFirstAction` | lib/openai.js:79-82 | Without `executeTool`, nothing is ever submitted. The drive throws exactly when it meets a `requires_action` snapshot, and the error is the missing observer. |
| `Runs.Drive` | index.js:130-136 | The do-while loop: an empty script makes no call, and otherwise the first call retrieves the first snapshot. A finished drive returns a terminal snapshot. |
| `Runs.DriveRetrievesPrefix` | index.js:130-136 | The snapshots retrieved are the first ones of the script, in order. An unfinished drive retrieved all of them. |
| `Runs.DriveEndsAtLastRetrieved` | lib/openai.js:74-86 | A finished drive returns the last snapshot retrieved, and it is terminal. An aborted drive's last snapshot is a `requires_action` one whose action threw that error. |
| `Runs.DrivePassesEarlierSnapshots` | lib/openai.js:74-86 | Every snapshot retrieved before the last is non-terminal, and its action succeeded. An unfinished drive met no terminal status. |
| `Runs.DriveStopsAtFirstTerminal` | index.js:130-136 | The retrievals are a prefix of the script. Every snapshot before the last one retrieved is non-terminal, and its action succeeded. A finished drive returns the last snapshot, which is terminal. An aborted drive stopped on a `requires_action` snapshot whose action threw. An unfinished drive read the whole script without meeting a terminal status. |
| `Runs.DriveReturnsFirstTerminal` | lib/openai.js:74-86 | Suppose snapshot i is the first terminal one and every earlier action succeeds. Then the drive returns snapshot i after exactly i + 1 retrievals. |
| `Runs.DriveIsBlocks` | lib/openai.js:76-84 | The trace is one block per retrieved snapshot. `queued`, `in_progress` and every other non-terminal status cause nothing but their retrieval. |
| `Runs.DriveSubmitsOncePerAction` | index.js:133-135 | The number of submissions equals the number of `requires_action` snapshots retrieved, less one when the drive was aborted. |
| `Tools.Declaration` | lib/tools.js:2-26 | Each tool is declared as a `function` tool. Every parameter is typed `string`, and the `required` list is as long as the parameter list (`RegistryWellDeclared` shows each required name is declared). |
| `Tools.ExecuteSwitchToHuman` | lib/tools.js:32-48 | The result is always the clarification string or 将转接至人工客服. Missing or empty arguments give the clarification. Non-empty text that is malformed or parses to null throws. The transfer string comes exactly when every field the declaration marks as required is truthy and not 未提供. |
| `Tools.ExecuteIgnoresRun` | lib/tools.js:32 | The handler's result does not depend on the run it is given. |
| `Tools.RegistryWellDeclared` | lib/tools.js:1-26 | The registry key equals the declared function name. Every required field (issue, date, details) is a declared property. |

## Findings

| source | as written | input that shows it | evidently intended | confidence | as-written member | corrected member |
|---|---|---|---|---|---|---|
| index.js:297-299 | `start(args[1])` passes the model name as a bare string to a function that destructures `{ model = 'gpt-4-1106-preview' }`. A string has no `model` property, so the default is always used. | `node . start gpt-4` chats with gpt-4-1106-preview | `start({ model: args[1] })`, as the usage text `node . start {gpt-4-1106-preview}` and the `@param {string} model` comment describe | high, not executed | `IndexCli.StartIgnoresNamedModel` | `IndexCli.CorrectedStartUsesNamedModel` |

## Left out

- Remote calls are not modelled. This covers listing, getting, creating and deleting assistants, files and models, and creating threads and messages (index.js:145-211). `Execute` returns the command naming which wrapper runs.
- A retrieval or a submission rejected by the remote service is not modelled. The source propagates such a failure unchanged out of the driver.
- The source polls forever when the service never reports a terminal status. With a finite script, the drive ends `Unfinished` when the script runs out.
- The 1000 ms `delay` before each retrieval (lib/openai.js:75) has no effect in the model. `getOpenAI` only memoises the construction of an external client.
- `Promise.all` runs the handlers concurrently, and the source throws the first error to settle. The model runs them in order and reports the first failing call in index order. It does not model which error wins when several calls fail.
- The observer's own behaviour is not modelled: it is not awaited, and it could throw. Its call is recorded as an `Observed` event.
- `createAssistant` in index.js:47-91 is a fixed request whose instructions come from external configuration, so it is not modelled.
- The interactive chat loop `start` (index.js:218-262) is left out, apart from its option destructuring and its duration line. It covers readline input, lazily creating a thread, the never-resolving promise, and extracting file ids with `/(file-\w{24})/g`.
- Commander setup, usage text, config loading and all console logging are left out. `program.args` is taken as given.
- `JSON.parse` is an opaque parameter. JSON numbers are integers, so fractions and exponents are not modelled.
- `Field` is exact for the keys the program reads: issue, date, details, clientId and model. It would be wrong for keys such as `length` or `toString`, which strings, arrays or `Object.prototype` carry.
- `Stringify` writes every object as `[object Object]`. It does not model objects whose own `toString` or `valueOf` key changes or breaks the conversion.
- `IntToDecimal` writes every integer in plain decimal. JavaScript switches to exponent form (`1e+21`) at 10^21. A duration in milliseconds never reaches that, but a numeric `clientId` interpolated into the reset link (index.js:103) can, and the model then writes all its digits where JavaScript writes the exponent form.
- The batch test harness, message coalescing, bounded-concurrency pool and spreadsheet export live outside `index.js` and `lib/`, and are not modelled.
