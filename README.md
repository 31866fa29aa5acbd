# execute_js: running JavaScript in a Tauri webview, modelled in Dafny

The MCP bridge plugin for Tauri has an `execute_js` command. It evaluates a
caller's JavaScript in the app's webview and returns the script's value as
JSON. This project models the three pieces of logic in that command and
proves what they promise:

- **`prepare_script`** decides whether the caller's script needs `return ` put
  in front of it, so that the async wrapper it is pasted into yields the
  script's value (`prepare_script.dfy`, module `PrepareScript`). Rust's
  `str::trim` is modelled with the Unicode White_Space set that
  `char::is_whitespace` uses.
- **Result normalisation.** The `__script_result` listener reduces the
  webview's reply to `{"success": true, "data": …}` or
  `{"success": false, "error": "…"}` (`script_result.dfy`, module
  `ScriptResult`, over the JSON values of `json.dfy`).
- **Result correlation.** Each execution stores the sending half of a one-shot
  channel in the executor's `pending_results` map under a fresh execution id.
  Exactly one of three things removes it: the matching reply, an eval failure
  or the timeout. The command always answers `Ok` with a success or failure
  object (`execute_js.dfy`, module `ExecuteJs`, class `ScriptExecutor`).

The Rust code is asynchronous. The model runs it sequentially:

- Each listener invocation, the eval failure and the timeout become a method
  call on `ScriptExecutor`.
- `ScriptExecutor.ExecuteJs` takes the eval result and the list of events
  the listener sees before the deadline.
- Field `receipts` records what each execution's receiving half ends up
  with: the reply that was sent, or a dropped sender.
- `Valid()` keeps the pending ids apart from the settled ones. Because of
  this, an execution is settled at most once. A second reply, or a reply
  after the timeout, finds nothing to settle (`SettledOnceScenario` walks
  through this race).

The doc comment on `execute_js` (lines 20-23) says a successful result has a
`result` field. The code puts the value under `data`. The model follows the
code.

## Model

| member | source | states |
|---|---|---|
| `PrepareScript.Trim` | packages/tauri-plugin-mcp-bridge/src/commands/execute_js.rs:193 | the trimmed script is the slice of the input between its leading and trailing whitespace, starts and ends with non-whitespace, and is empty exactly when the input is all whitespace |
| `PrepareScript.TrimFixedPoint` | packages/tauri-plugin-mcp-bridge/src/commands/execute_js.rs:193 | a string with no whitespace at either end is its own trim |
| `PrepareScript.TrimIdempotent` | packages/tauri-plugin-mcp-bridge/src/commands/execute_js.rs:193 | trimming twice equals trimming once |
| `PrepareScript.PrepareScript` | packages/tauri-plugin-mcp-bridge/src/commands/execute_js.rs:192-232 | the output is either the original untrimmed script or `return ` followed by the trimmed script; a trimmed script already starting with `return ` is returned unchanged |
| `PrepareScript.WrappedIsSingle` | packages/tauri-plugin-mcp-bridge/src/commands/execute_js.rs:215-225 | every wrapped-expression pattern is also a single-expression pattern |
| `PrepareScript.NeedsReturnIsRewrites` | packages/tauri-plugin-mcp-bridge/src/commands/execute_js.rs:215-227 | the rewrite decision is unchanged when the wrapped-expression test is removed |
| `PrepareScript.PrepareScriptExact` | packages/tauri-plugin-mcp-bridge/src/commands/execute_js.rs:192-232 | exact behaviour: rewritten iff the trimmed script does not start with `return ` and is a single expression or not multi-statement; the output equals the input iff it is not rewritten |
| `PrepareScript.RewrittenDiffersFromInput` | packages/tauri-plugin-mcp-bridge/src/commands/execute_js.rs:227-230 | the two output shapes never coincide: no script equals `return ` followed by its own trim |
| `PrepareScript.ReturnPrefixedKept` | packages/tauri-plugin-mcp-bridge/src/commands/execute_js.rs:193-231 | a script whose trim starts with `return ` is passed through as given |
| `PrepareScript.SingleExpressionGetsReturn` | packages/tauri-plugin-mcp-bridge/src/commands/execute_js.rs:215-228 | a script starting with `await `, `(`, `JSON.`, `{` or `[`, or ending with `)()`, gets `return ` even when it also looks multi-statement |
| `PrepareScript.TrailingSemicolonIsExpression` | packages/tauri-plugin-mcp-bridge/src/commands/execute_js.rs:197-228 | a single final `;` is not a separator: a script with no other `;` and no statement keyword is not multi-statement and gets `return ` |
| `PrepareScript.MultiStatementKept` | packages/tauri-plugin-mcp-bridge/src/commands/execute_js.rs:203-230 | a keyword-prefixed or multi-semicolon script that matches no single-expression pattern is returned unchanged |
| `PrepareScript.BlankBecomesBareReturn` | packages/tauri-plugin-mcp-bridge/src/commands/execute_js.rs:193-228 | an all-whitespace script becomes exactly `return ` |
| `PrepareScript.PrepareScriptIdempotent` | packages/tauri-plugin-mcp-bridge/src/commands/execute_js.rs:192-232 | for a script that is not all whitespace, preparing it twice gives the same result as preparing it once |
| `PrepareScript.BareReturnRewritten` | packages/tauri-plugin-mcp-bridge/src/commands/execute_js.rs:193-228 | `return ` on its own is rewritten to `return return` |
| `PrepareScript.BlankNotIdempotent` | packages/tauri-plugin-mcp-bridge/src/commands/execute_js.rs:193-228 | for an all-whitespace script, preparing twice gives `return return`, so idempotence fails there |
| `PrepareScript.ReturnSemicolonDoubled` | packages/tauri-plugin-mcp-bridge/src/commands/execute_js.rs:194 | `return;` is rewritten to `return return;` |
| `PrepareScript.PrepareScriptCorrected` | packages/tauri-plugin-mcp-bridge/src/commands/execute_js.rs:192-232 | corrected rewrite: a script that already opens with a `return` statement is kept as given |
| `PrepareScript.CorrectedAgrees` | packages/tauri-plugin-mcp-bridge/src/commands/execute_js.rs:194-231 | the corrected rewrite differs from the written one only on scripts that already return |
| `PrepareScript.CorrectedIdempotent` | packages/tauri-plugin-mcp-bridge/src/commands/execute_js.rs:192-232 | the corrected rewrite is idempotent on every script, blank ones included |
| `ScriptResult.Normalize` | packages/tauri-plugin-mcp-bridge/src/commands/execute_js.rs:72-88 | the normalised reply has exactly one of the two shapes and never both `data` and `error`; it reports success iff the payload's `success` is the boolean `true` |
| `ScriptResult.NormalizeSuccess` | packages/tauri-plugin-mcp-bridge/src/commands/execute_js.rs:72-80 | on success the reply carries the payload's `data`, or `null` when it is absent |
| `ScriptResult.NormalizeFailure` | packages/tauri-plugin-mcp-bridge/src/commands/execute_js.rs:81-87 | on failure (missing or non-boolean `success` included) the reply carries `error` when it is a string, else "Unknown error" |
| `ScriptResult.NormalizeIdempotent` | packages/tauri-plugin-mcp-bridge/src/commands/execute_js.rs:72-88 | a normalised reply, received again as a payload, normalises to itself |
| `ScriptResult.ShapesAreFixedPoints` | packages/tauri-plugin-mcp-bridge/src/commands/execute_js.rs:72-88 | every object of either shape is the normalisation of itself |
| `ExecuteJs.Response` | packages/tauri-plugin-mcp-bridge/src/commands/execute_js.rs:152-183 | the command always returns `Ok`: the received reply, or a failure object whose error is "Failed to execute script: …", "Script execution failed: channel closed" or "Script execution timeout" |
| `ExecuteJs.EventExecId` | packages/tauri-plugin-mcp-bridge/src/commands/execute_js.rs:62 | an event names an execution exactly when its `exec_id` field is a JSON string, and it names that string |
| `ExecuteJs.FirstMatch` | packages/tauri-plugin-mcp-bridge/src/commands/execute_js.rs:62-71 | the reply forwarded is the first arrival naming the execution, with arrivals ordered as their forwarding tasks take the lock on the pending map; there is none iff no arrival names it |
| `ExecuteJs.ExpectedOutcome` | packages/tauri-plugin-mcp-bridge/src/commands/execute_js.rs:152-183 | the command ends in eval failure iff eval failed; otherwise with the normalised first matching reply iff one arrives, else with the timeout; it never ends with a closed channel |
| `ExecuteJs.LaterArrivalsIgnored` | packages/tauri-plugin-mcp-bridge/src/commands/execute_js.rs:62-91 | once a matching event has arrived, later events do not change the outcome |
| `ExecuteJs.OtherExecutionsIgnored` | packages/tauri-plugin-mcp-bridge/src/commands/execute_js.rs:62-63 | an event naming another execution id changes nothing, wherever it arrives |
| `ExecuteJs.ExecuteJsSucceedsIff` | packages/tauri-plugin-mcp-bridge/src/commands/execute_js.rs:72-183 | the command reports success iff eval went through and the first matching event says `"success": true` |
| `ExecuteJs.ScriptExecutor.Register` | packages/tauri-plugin-mcp-bridge/src/commands/execute_js.rs:48-51 | a fresh id is added to the pending map with its own waiter; settled ids are unchanged |
| `ExecuteJs.ScriptExecutor.Deliver` | packages/tauri-plugin-mcp-bridge/src/commands/execute_js.rs:60-92 | a reply is forwarded iff its `exec_id` is this listener's id and that id is still pending; the sender it takes is the one registered under that id; forwarding removes only that entry and settles it with the normalised reply; otherwise nothing changes |
| `ExecuteJs.ScriptExecutor.Listen` | packages/tauri-plugin-mcp-bridge/src/commands/execute_js.rs:57-100 | the listener, fed events in order, settles its execution with the first event naming it if it is still pending, and changes nothing else |
| `ExecuteJs.ScriptExecutor.Abandon` | packages/tauri-plugin-mcp-bridge/src/commands/execute_js.rs:154-155 | removing an id from the pending map changes no other entry and drops that id's sender if it was still pending |
| `ExecuteJs.ScriptExecutor.EvalFail` | packages/tauri-plugin-mcp-bridge/src/commands/execute_js.rs:152-161 | eval failure removes only this id, drops its sender, and answers "Failed to execute script: …" |
| `ExecuteJs.ScriptExecutor.Timeout` | packages/tauri-plugin-mcp-bridge/src/commands/execute_js.rs:173-182 | the timeout removes only this id, drops its sender if still pending, and answers "Script execution timeout" |
| `ExecuteJs.ScriptExecutor.ExecuteJs` | packages/tauri-plugin-mcp-bridge/src/commands/execute_js.rs:36-189 | one execution returns `Ok` with the response of `ExpectedOutcome`; afterwards its id is not pending and its receipt is the received reply, or a dropped sender after eval failure or timeout; every other entry is as it was |

## Left out

- The JavaScript wrapper text (lines 107-149) is left out. It runs in the webview. Its effect reaches the model only as the eval result and the `__script_result` events given to `ExecuteJs`.
- ExecuteJs: does not take the caller's script or call `PrepareScript`. The prepared script only goes into the wrapper text, which is left out.
- Tauri's `window.listen`, `window.eval` and `window.unlisten` are foreign calls. Eval success or failure is a parameter.
- Unregistering the listener (line 186) is not modelled. The model has no registry of listeners. A later event for a settled id finds nothing pending anyway.
- The eval-failure path returns at line 157, before the `window.unlisten` at line 186. In the source that listener therefore stays registered after the command has returned. This was not executed. The model cannot show the leak because it has no listener registry.
- The execution id comes from `Uuid::new_v4` (line 42). Here it is a parameter, and `Unused` requires that it is neither pending nor settled.
- Parsing the raw event text with `serde_json::from_str` (line 60) and the `eprintln!` on a parse failure (line 97) are left out. Events arrive as already-parsed JSON objects. An unparsable event is ignored, just like one that names no execution.
- The tokio `Mutex`, `tokio::spawn`, the oneshot channel and the 5-second `tokio::time::timeout` are left out. The timeout is an event: it fires when the listed arrivals contain no matching reply. Arrivals are listed in the order their spawned forwarding tasks take the lock (line 70). That order need not be the order in which the listener saw the events.
- ExecuteJs: cannot produce the channel-closed outcome. In the source a sender leaves the map only to be sent on, or when the waiting side itself gives up. `Response` still maps that outcome to its failure reply.
- JSON numbers are integers. No part of the model inspects them.
- The `ScriptExecutor` struct is defined in `script_executor.rs`, which is not part of this model. Its constructor here just starts with empty maps.
- The demo app's `greet`, `add_numbers`, `get_config` and `run` (packages/test-app/src-tauri/src/lib.rs) are one-line fixtures and builder wiring with no logic to verify.

## Findings

| source | as written | input that shows it | evidently intended | confidence | as-written member | corrected member |
|---|---|---|---|---|---|---|
| packages/tauri-plugin-mcp-bridge/src/commands/execute_js.rs:194 | only a trimmed script starting with `return ` plus a space counts as already returning | `return;` becomes `return return;` (also `return(x)`, `return` followed by a tab or newline, and a blank script prepared twice) | a script that already opens with a `return` statement is left as it is | medium, not executed | `PrepareScript.ReturnSemicolonDoubled` | `PrepareScript.CorrectedIdempotent` |
