/** What the worker does with failures it did not await: errors reported by
    the RPC session and unhandled promise rejections. */
module Policy {
  import opened Values
  import opened Events

  /** An error the session hands to its error callback. */
  datatype SessionError = SessionError(name: string, message: string)

  /** A rejection reason: an `Error` object (whose stack may be absent or
      empty), or any other thrown value, by its string conversion. */
  datatype Reason =
    | ErrorObject(name: string, message: string, stack: Option<string>)
    | Other(text: string)

  /** An asynchronous failure delivered to the worker while its session is
      open. */
  datatype Incident =
    | SessionFault(error: SessionError)
    | Rejection(reason: Reason)

  /** `Error.prototype.toString` (section 20.5.3.4 of ECMA-262) for an error
      whose name and message are both strings. */
  function ErrorToString(name: string, message: string): string
  {
    if name == "" then message
    else if message == "" then name
    else name + ": " + message
  }

  /** The session's `errorCallback`: an "Interrupted" error is an expected
      cancellation and leaves no trace; any other error is logged once,
      tagged with the plugin name. The console prints the error object
      itself; the log keeps its message. */
  function ErrorCallback(plugin: string, e: SessionError): (effects: seq<Event>)
    ensures effects == [] <==> e.name == "Interrupted"
    ensures |effects| <= 1
    ensures forall ev :: ev in effects ==> ev == Log(Error, plugin, e.message)
    ensures Reloads(effects) == 0
  {
    if e.name == "Interrupted" then [] else [Log(Error, plugin, e.message)]
  }

  /** `reason instanceof Error && reason.stack`: an error with a non-empty
      stack. */
  predicate HasStack(reason: Reason)
  {
    reason.ErrorObject? && reason.stack.Some? && reason.stack.value != ""
  }

  /** The text `${reason}` interpolates. */
  function Display(reason: Reason): string
  {
    match reason
    case ErrorObject(name, message, _) => ErrorToString(name, message)
    case Other(text) => text
  }

  /** The text the handler reports: the stack when there is one, otherwise
      the reason itself. */
  function ReportedText(reason: Reason): (text: string)
    ensures HasStack(reason) ==> text == reason.stack.value
    ensures !HasStack(reason) ==> text == Display(reason)
    ensures text == "" ==> !HasStack(reason)
  {
    if HasStack(reason) then reason.stack.value else Display(reason)
  }

  /** The `unhandledrejection` handler: one log naming the plugin, then one
      zero-argument `reload` notification, then `preventDefault`. */
  function RejectionEffects(plugin: string, reason: Reason): (effects: seq<Event>)
    ensures |effects| == 3
    ensures effects[0] == Log(Error, plugin, ReportedText(reason))
    ensures effects[1] == Notify("reload", []) && Reloads(effects) == 1
    ensures effects[2] == PreventDefault
  {
    var effects := [Log(Error, plugin, ReportedText(reason)), Notify("reload", []), PreventDefault];
    assert effects[..2] == [effects[0], effects[1]] && effects[..2][..1] == [effects[0]];
    assert Reloads(effects[..2][..1]) == 0;
    effects
  }

  function Dispatch(plugin: string, incident: Incident): seq<Event>
  {
    match incident
    case SessionFault(e) => ErrorCallback(plugin, e)
    case Rejection(reason) => RejectionEffects(plugin, reason)
  }

  /** The effects of a sequence of incidents, dispatched one by one. */
  function IncidentsTrace(plugin: string, incidents: seq<Incident>): seq<Event>
  {
    if incidents == [] then []
    else IncidentsTrace(plugin, incidents[..|incidents| - 1]) + Dispatch(plugin, incidents[|incidents| - 1])
  }

  lemma IncidentsTraceSnoc(plugin: string, incidents: seq<Incident>, i: nat)
    requires i < |incidents|
    ensures IncidentsTrace(plugin, incidents[..i + 1]) ==
      IncidentsTrace(plugin, incidents[..i]) + Dispatch(plugin, incidents[i])
  {
    assert incidents[..i + 1][..i] == incidents[..i];
  }

  function RejectionCount(incidents: seq<Incident>): nat
  {
    if incidents == [] then 0
    else RejectionCount(incidents[..|incidents| - 1]) + (if incidents[|incidents| - 1].Rejection? then 1 else 0)
  }

  /** What a handler may emit: an error log naming the plugin, a `reload`
      notification, or the suppression of a default crash. */
  predicate IsHandlerEffect(plugin: string, e: Event)
  {
    (e.Log? && e.level == Error && e.plugin == plugin) || e == Notify("reload", []) || e == PreventDefault
  }

  /** Exactly one `reload` is sent per unhandled rejection; session errors
      never send one. */
  lemma {:induction false} IncidentsReloads(plugin: string, incidents: seq<Incident>)
    ensures Reloads(IncidentsTrace(plugin, incidents)) == RejectionCount(incidents)
  {
    if incidents != [] {
      var init := incidents[..|incidents| - 1];
      IncidentsReloads(plugin, init);
      ReloadsAppend(IncidentsTrace(plugin, init), Dispatch(plugin, incidents[|incidents| - 1]));
    }
  }

  /** Handlers emit nothing but handler effects: no editor command, no
      warning, no lifecycle step. */
  lemma {:induction false} IncidentsOnlyHandlerEffects(plugin: string, incidents: seq<Incident>)
    ensures forall i :: 0 <= i < |IncidentsTrace(plugin, incidents)| ==>
      IsHandlerEffect(plugin, IncidentsTrace(plugin, incidents)[i])
  {
    if incidents != [] {
      var init := incidents[..|incidents| - 1];
      var before := IncidentsTrace(plugin, init);
      var last := Dispatch(plugin, incidents[|incidents| - 1]);
      IncidentsOnlyHandlerEffects(plugin, init);
      assert forall i :: 0 <= i < |last| ==> IsHandlerEffect(plugin, last[i]);
      var t := before + last;
      assert forall i :: 0 <= i < |t| ==> t[i] == if i < |before| then before[i] else last[i - |before|];
    }
  }

  /** A trace of handler effects holds no editor command and no warning. */
  lemma {:induction false} HandlerEffectsQuiet(plugin: string, t: seq<Event>)
    requires forall i :: 0 <= i < |t| ==> IsHandlerEffect(plugin, t[i])
    ensures Commands(t) == []
    ensures WithoutWarnings(t) == t
  {
    if t != [] {
      HandlerEffectsQuiet(plugin, t[..|t| - 1]);
      assert IsHandlerEffect(plugin, t[|t| - 1]);
      assert t == t[..|t| - 1] + [t[|t| - 1]];
    }
  }
}
