# denops worker bootstrap, modelled in Dafny

This project models the script that runs inside each denops plugin worker
(`denops/@denops-private/worker/script.ts`). A worker waits for exactly one
startup message, validates it, builds an RPC session toward the host, and
installs two handlers: the session's error callback and the
`unhandledrejection` handler. It then loads the plugin module under a fresh
locator, fires the `DenopsPluginPre`/`Post`/`Fail` user autocommands around
the plugin's entry function, waits for the session to drain and closes itself.

Modules, one per concern of the script:

- `Values` (values.dfy): the untyped payload (`Value`, with `undefined`),
  property access, `Option` and `Result`.
- `Handshake` (handshake.dfy): `isMeta` as its guard chain (`IsMeta`), a typed
  decode of the metadata and of the startup payload, and their inverses.
- `Events` (events.dfy): the observable events of a run (session opened,
  import, editor command, entry call, log, notify, `preventDefault`,
  `waitClosed`, close) and projections of a trace: its commands, its
  `reload` notifications, and the trace without warnings.
- `Decimal` (decimal.dfy): decimal rendering of the generation token and its
  inverse.
- `Policy` (policy.dfy): the session error filter and the unhandled-rejection
  handler as functions from an error to the events they emit.
- `Lifecycle` (lifecycle.dfy): the autocommand text, the module locator, the
  state machine `Idle → Loading → Running → Succeeded/Failed → Closing →
  Closed`, the specification function `LifecycleTrace` of a whole `main` run, and the
  ordering and exclusivity lemmas about it.
- `WorkerScript` (worker.dfy): the class `Worker`. `Deliver` is the one-shot
  message listener. `RunMain`, `LoadAndRun`, `Settle`, `EmitBestEffort`, `Catch` and
  `DrainAndClose` are `main` with its `try`/`catch`/`finally`.
  `OnSessionError` and `OnUnhandledRejection` are the two handlers, and
  `Handle` routes a failure to the one registered for its kind. Each method appends to the `trace` field and is proved
  against the specification functions.

What the worker cannot see is a parameter `Outcomes`. It says whether the
import fails, whether each `denops.cmd` fails, whether the entry function
fails, and which asynchronous failures (session errors, unhandled rejections)
arrive in each of three windows: while the import is pending (this includes
what the module's top-level code leaves behind), while the entry function is
pending, and while `main` waits for the session to close. `performance.now()` is replaced
by a generation counter `token: nat`, rendered in decimal.

Three facts about the code that shape the model:

- The accepted `host` values are exactly `"vim"` and `"nvim"`
  (script.ts:93). Any other spelling, such as `"vim-editor"`, is refused as
  invalid metadata (`WorkerScript.ExampleLongHostRefused`).
- A failed import goes from Loading straight to Failed, because the `catch`
  at script.ts:70 also covers the import at script.ts:60.
- The `unhandledrejection` listener (script.ts:39) is registered on the
  global object and never removed. The handlers are installed before the
  import, so failures reach them in all three windows. Those of the import
  window are handled before the Pre command and the entry call.

## Model

| member | source | states |
|---|---|---|
| Handshake.ParseMode | denops/@denops-private/worker/script.ts:90 | a mode parses exactly when it is one of release, debug, test, and parsing inverts `ModeName` |
| Handshake.ParseHost | denops/@denops-private/worker/script.ts:93 | a host parses exactly when it is "vim" or "nvim", and parsing inverts `HostName` |
| Handshake.ParsePlatform | denops/@denops-private/worker/script.ts:99-103 | a platform parses exactly when it is one of windows, mac, linux, and parsing inverts `PlatformName` |
| Handshake.DecodeMeta | denops/@denops-private/worker/script.ts:86-105 | the typed decode succeeds exactly when the `isMeta` guard chain accepts; the decoded fields are the strings read from the object |
| Handshake.DecodeInit | denops/@denops-private/worker/script.ts:108-115 | the payload is accepted exactly when it is an object with string `name` and `scriptUrl` and a `meta` accepted by `isMeta`; `main` then gets those fields; a non-object fails with NotAnObject; an InvalidMeta error carries a value `isMeta` rejects |
| Handshake.DecodeEncodeMeta | denops/@denops-private/worker/script.ts:86-105 | every well-formed metadata value is accepted and decodes to itself |
| Handshake.DecodeEncodeInit | denops/@denops-private/worker/script.ts:108-115 | every well-formed startup payload is accepted with its own name, script URL and metadata |
| Handshake.EncodeDecodeMeta | denops/@denops-private/worker/script.ts:86-105 | an accepted metadata value is reproduced on each of the four checked keys by re-encoding its decode |
| Policy.ErrorCallback | denops/@denops-private/worker/script.ts:29-34 | an error named "Interrupted" emits nothing; any other emits exactly one error log tagged with the plugin name and carrying the error's message, and never a reload |
| Policy.ReportedText | denops/@denops-private/worker/script.ts:44-47 | the reported text is the stack when the reason is an Error with a non-empty stack, and the reason's own string otherwise |
| Policy.RejectionEffects | denops/@denops-private/worker/script.ts:44-54 | an unhandled rejection gives, in order, one error log naming the plugin, one zero-argument `reload` notify, and `preventDefault` |
| Policy.IncidentsReloads | denops/@denops-private/worker/script.ts:29-55 | over any sequence of asynchronous failures, exactly one `reload` is sent per unhandled rejection and none per session error |
| Policy.IncidentsOnlyHandlerEffects | denops/@denops-private/worker/script.ts:29-55 | the handlers emit only error logs naming the plugin, `reload` notifies and `preventDefault`; never an editor command or a lifecycle step |
| Decimal.ParseToDecimal | denops/@denops-private/worker/script.ts:60 | the decimal rendering of a token reads back as the token |
| Decimal.ToDecimalInjective | denops/@denops-private/worker/script.ts:60 | two tokens render alike exactly when they are equal |
| Lifecycle.CommandInjective | denops/@denops-private/worker/script.ts:61-73 | each `doautocmd <nomodeline> User DenopsPlugin<Phase>:<name>` command names exactly one phase and one plugin |
| Lifecycle.LocatorInjective | denops/@denops-private/worker/script.ts:60 | for a fixed script URL, `scriptUrl#token` locators are equal exactly when the tokens are |
| Lifecycle.LocatorsDistinct | denops/@denops-private/worker/script.ts:60 | for one script URL, strictly increasing tokens never give the same locator twice. The increasing tokens are an assumption of the model's counter. script.ts imports once per worker, and each worker's `performance.now()` counts from its own time origin |
| Lifecycle.StatePathFollowsMachine | denops/@denops-private/worker/script.ts:57-83 | every run follows the lifecycle state machine from Idle to Closed, and passes through Succeeded exactly when the import and the entry succeed, through Failed otherwise |
| Lifecycle.LifecycleCommands | denops/@denops-private/worker/script.ts:57-80 | the commands of a run are [Fail] after a failed import, [Pre, Post] after a successful entry, [Pre, Fail] after a failed one, whatever the deliveries do |
| Lifecycle.PostXorFail | denops/@denops-private/worker/script.ts:66-77 | Post is sent exactly when import and entry succeed, and Fail is sent exactly when Post is not |
| Lifecycle.EntryBetweenPreAndOutcome | denops/@denops-private/worker/script.ts:60-77 | the entry function is called exactly when the import succeeds, and then once; at its call the only command sent so far is Pre, and afterwards exactly one of Post or Fail follows |
| Lifecycle.SessionFirstCloseLast | denops/@denops-private/worker/script.ts:26-83 | the session is built first and the import of `scriptUrl#token` follows it; `waitClosed` comes after every other step and close comes last, each once |
| Lifecycle.DeliveryFailuresOnlyWarn | denops/@denops-private/worker/script.ts:61-77 | a failed command delivery only adds a warning: runs that differ only in delivery outcomes agree once warnings are removed |
| Lifecycle.LifecycleReloads | denops/@denops-private/worker/script.ts:39-80 | a run sends exactly one `reload` per unhandled rejection, whether it arrives during the import, during the entry function (which only runs after a successful import) or while the session drains; session errors, a failing import and a failing entry send none |
| WorkerScript.StartupRejectedBeforeSession | denops/@denops-private/worker/script.ts:108-116 | a refused handshake yields only its startup error, with no session, command or reload; an accepted one opens the session first |
| WorkerScript.Worker.Deliver | denops/@denops-private/worker/script.ts:108-121 | the first message is validated and either refused, leaving the worker Idle, or handed to `main` once with its fields; the listener is gone afterwards, so later messages never reach the startup listener |
| WorkerScript.Worker.RunMain | denops/@denops-private/worker/script.ts:19-84 | `main` appends exactly `LifecycleTrace` for its arguments, token and outcomes, records its one start and ends Closed after the state path of the machine |
| WorkerScript.Worker.LoadAndRun | denops/@denops-private/worker/script.ts:39-78 | the `try`/`catch` handles the failures of the import window first, then appends the rest of the lifecycle body, and ends Succeeded exactly when import and entry succeed, Failed otherwise |
| WorkerScript.Worker.Settle | denops/@denops-private/worker/script.ts:60-77 | once the import has settled, a failed import appends the `catch` block; a successful one appends Pre, the entry call, the entry window's failures and the outcome; it ends Succeeded exactly when both succeed |
| WorkerScript.Worker.DrainAndClose | denops/@denops-private/worker/script.ts:78-83 | while `waitClosed` is pending the handlers still run; then `waitClosed` and close are appended and the worker ends Closed |
| WorkerScript.Worker.DispatchIncidents | denops/@denops-private/worker/script.ts:29-55 | asynchronous failures reach the installed handlers one by one, each adding its handler's effects |
| WorkerScript.Worker.Handle | denops/@denops-private/worker/script.ts:29-55 | a session error goes to the error callback and a rejection to the `unhandledrejection` handler, adding exactly that handler's effects |
| WorkerScript.Worker.EmitBestEffort | denops/@denops-private/worker/script.ts:61-64 | a lifecycle command is sent, and a failed delivery adds only a warning naming the plugin |
| WorkerScript.Worker.Catch | denops/@denops-private/worker/script.ts:70-77 | a caught failure is logged with the plugin name, then Fail is sent best-effort |
| WorkerScript.Worker.OnSessionError | denops/@denops-private/worker/script.ts:29-34 | the installed error callback appends what the session error filter emits |
| WorkerScript.Worker.OnUnhandledRejection | denops/@denops-private/worker/script.ts:39-55 | the installed handler appends the log, the `reload` notify and `preventDefault` of the rejection policy |
| WorkerScript.DeliverTwice | denops/@denops-private/worker/script.ts:108-121 | of two messages only the first reaches the startup listener, which starts `main` at most once; the second never reaches it |
| WorkerScript.ExampleRun | denops/@denops-private/worker/script.ts:56-121 | a valid handshake for plugin "foo" whose entry returns at once gives session, import of `file:///p.js#0`, Pre, entry, Post, `waitClosed`, close, and no reload |
| WorkerScript.ExampleImportRejection | denops/@denops-private/worker/script.ts:39-65 | a rejection left by the module's top-level code is logged, answered with `reload` and `preventDefault` before the Pre command and the entry call |
| WorkerScript.ExampleLongHostRefused | denops/@denops-private/worker/script.ts:93 | a payload whose host is "vim-editor" is refused as invalid metadata |

## Left out

- The RPC session itself (call/notify transport, `responseTimeout`, draining in `waitClosed`): `notify`, `waitClosed` and the session's construction are events in the trace.
- `WorkerReader` (denops/@denops-private/worker/script.ts:24): once `main` has started, it hands every later message on the worker's channel to the RPC session (script.ts:27); that session input is not modelled, so the model says only that later messages never reach the startup listener.
- `WorkerWriter` and the `self` worker global: the outgoing stream and the channel object, left out with the RPC session.
- `using` and `DenopsImpl`/`denops.cmd`: external code. `cmd` is an outcome that succeeds or fails with an error text.
- Dynamic `import()` and the plugin's own `main`: foreign code execution, each reduced to an outcome that succeeds or fails with an error text.
- `performance.now()`: replaced by a natural-number generation token.
- Async scheduling and promises: the run is one sequential pass. Asynchronous failures are delivered at three points: while the import is pending (before Pre), while the entry function is pending (after the entry call), and while `main` waits for the session to close. A failure that arrives while a lifecycle command or the `catch` block's log is in flight is placed at the nearest of those points, so only its position among the commands is not modelled.
- Error values are assumed to convert to a string. The source interpolates thrown values and rejection reasons into template literals, which throw a `TypeError` for a Symbol or an object without a usable `toString`. None of these paths are modelled. Where each such throw would go:
  - script.ts:49, in the `unhandledrejection` listener: the `reload` notify and `preventDefault` are skipped. The error is reported as an uncaught error of the listener and never reaches `main`.
  - script.ts:63, in the Pre delivery's `.catch`: the awaited promise rejects and control goes to the `catch` block after Pre was sent. The entry function is never called, and Fail follows Pre.
  - script.ts:68, in the Post delivery's `.catch`: the same path, after Post was sent, so Fail follows a sent Post.
  - script.ts:71, in the `catch` block's log: Fail is not sent. `finally` still waits for the session to close, then the error escapes `main` and `self.close()` is skipped.
  - script.ts:76, in the Fail delivery's `.catch`: the error escapes through `finally` after `waitClosed`, and `self.close()` is skipped.
- The `.catch` that `main`'s caller attaches (script.ts:116-120): it receives what escapes `main`. That is a throwing session or `DenopsImpl` construction (script.ts:27, :56), a failing `waitClosed`, and the conversion failures at script.ts:71 and :76. None of these are modelled, so nothing in the model reaches it.
- Exact log texts: a log is a level, the plugin name and the error text it reports. The session error callback prints the error object itself; the model keeps its message.
- The raw metadata object: `main` receives the object as it was sent, extra keys included. The typed `Meta` keeps the four checked fields only.
- `isObject`: a plain object is an `Object` value. Arrays, `null`, `undefined` and primitives are not objects. Numbers are abstracted to integers.
