/** The worker script itself: a one-shot startup listener that validates
    the handshake and starts `main`, and `main`'s run from session to close. */
module WorkerScript {
  import opened Values
  import opened Handshake
  import opened Events
  import opened Policy
  import opened Lifecycle

  /** What a worker does with the first startup message it receives. */
  function StartupTrace(data: Value, token: nat, o: Outcomes): seq<Event>
  {
    match DecodeInit(data)
    case Err(e) => [StartupError(e)]
    case Ok(init) => LifecycleTrace(init, token, o)
  }

  /** A refused handshake is reported as a startup error and nothing else
      happens: no session, no plugin code, no command, no reload. An
      accepted one opens the session first. */
  lemma StartupRejectedBeforeSession(data: Value, token: nat, o: Outcomes)
    ensures DecodeInit(data).Err? ==>
      StartupTrace(data, token, o) == [StartupError(DecodeInit(data).error)]
    ensures DecodeInit(data).Err? ==>
      Commands(StartupTrace(data, token, o)) == [] && Reloads(StartupTrace(data, token, o)) == 0
    ensures DecodeInit(data).Ok? ==> StartupTrace(data, token, o)[0] == SessionOpened
    ensures SessionOpened in StartupTrace(data, token, o) <==> DecodeInit(data).Ok?
  {
    match DecodeInit(data) {
      case Err(e) =>
        assert [StartupError(e)][..0] == [];
      case Ok(init) =>
        SessionFirstCloseLast(init, token, o);
    }
  }

  class Worker {
    /** The one-shot `message` listener is still attached. */
    var listening: bool
    var state: State
    /** The arguments `main` was started with, if it was. */
    var started: seq<Init>
    /** The plugin name the session handlers tag their logs with. */
    var plugin: string
    /** Everything the worker has done, in order. */
    var trace: seq<Event>
    /** The states `main` has passed through after Idle. */
    ghost var history: seq<State>

    ghost predicate Valid()
      reads this
    {
      && |started| <= 1
      && (listening ==> started == [] && trace == [])
      && (started == [] <==> state == Idle)
      && (started != [] ==> plugin == started[0].name)
      && (state == Idle ==> history == [])
    }

    /** A worker that has only registered its startup listener. */
    constructor ()
      ensures Valid()
      ensures listening && state == Idle && started == [] && trace == []
    {
      listening := true;
      state := Idle;
      started := [];
      plugin := "";
      trace := [];
      history := [];
    }

    /** The session exists and its handlers are installed. */
    predicate HandlersInstalled()
      reads this
    {
      state != Idle && state != Closed
    }

    /** A message reaches the worker. Only the first is handled: it is
        validated, and either refused with a startup error or handed to
        `main`. Later messages never reach this startup listener: after a
        refused handshake nothing listens, and after an accepted one they are
        input to the session's reader, which is not part of this model. */
    method Deliver(data: Value, token: nat, o: Outcomes)
      requires Valid()
      modifies this
      ensures Valid() && !listening
      ensures old(listening) ==> trace == StartupTrace(data, token, o)
      ensures old(listening) ==>
        started == (match DecodeInit(data) case Ok(init) => [init] case Err(_) => [])
      ensures old(listening) && DecodeInit(data).Ok? ==>
        state == Closed && history == StatePath(o)
      ensures old(listening) && DecodeInit(data).Ok? ==> plugin == DecodeInit(data).value.name
      ensures old(listening) && DecodeInit(data).Err? ==>
        state == Idle && plugin == old(plugin) && history == old(history)
      ensures !old(listening) ==> unchanged(this)
    {
      if !listening {
        return;
      }
      listening := false;
      var decoded := DecodeInit(data);
      match decoded {
        case Err(e) =>
          trace := trace + [StartupError(e)];
        case Ok(init) =>
          RunMain(init, token, o);
      }
    }

    /** `main`: build the session and install its handlers, import the
        module under a fresh locator, run the `try`/`catch`, wait for the
        session to close, close. */
    method RunMain(init: Init, token: nat, o: Outcomes)
      requires state == Idle && started == []
      modifies this
      ensures trace == old(trace) + LifecycleTrace(init, token, o)
      ensures started == [init] && plugin == init.name
      ensures state == Closed && history == old(history) + StatePath(o)
      ensures listening == old(listening)
    {
      ghost var t0 := trace;
      ghost var h0 := history;
      started := [init];
      plugin := init.name;
      trace := trace + [SessionOpened];
      state := Loading;
      history := history + [Loading];
      trace := trace + [Import(Locator(init.scriptUrl, token))];
      ghost var head := Opening(Locator(init.scriptUrl, token));
      assert trace == t0 + head;
      LoadAndRun(o);
      DrainAndClose(o);
      Regroup(t0, head, Body(init.name, o), Draining(init.name, o), []);
      Regroup(h0, [Loading], Settlement(o), [Closing, Closed], []);
    }

    /** `main`'s `finally` block, `await session.waitClosed()`, during
        which the handlers stay installed, then `self.close()`. */
    method DrainAndClose(o: Outcomes)
      requires state == Succeeded || state == Failed
      modifies this`trace, this`state, this`history
      ensures trace == old(trace) + Draining(plugin, o)
      ensures state == Closed && history == old(history) + [Closing, Closed]
    {
      state := Closing;
      history := history + [Closing];
      DispatchIncidents(o.closingIncidents);
      trace := trace + [WaitClosed];
      state := Closed;
      history := history + [Closed];
      trace := trace + [Close];
    }

    /** The `try`/`catch` of `main`, from the import's outcome on. */
    method LoadAndRun(o: Outcomes)
      requires state == Loading
      modifies this`trace, this`state, this`history
      ensures trace == old(trace) + Body(plugin, o)
      ensures state == (if o.importError.None? && o.entryError.None? then Succeeded else Failed)
      ensures history == old(history) + Settlement(o)
    {
      ghost var t0 := trace;
      DispatchIncidents(o.importIncidents);
      ghost var t1 := trace;
      Settle(o);
      assert trace == t1 + AfterImport(plugin, o);
      assert t1 == t0 + IncidentsTrace(plugin, o.importIncidents);
      Regroup(t0, IncidentsTrace(plugin, o.importIncidents), AfterImport(plugin, o), [], []);
    }

    /** The `try`/`catch` of `main` once the import has settled: either
        the `catch` block, or the Pre command, the entry call and its
        outcome. */
    method Settle(o: Outcomes)
      requires state == Loading
      modifies this`trace, this`state, this`history
      ensures trace == old(trace) + AfterImport(plugin, o)
      ensures state == (if o.importError.None? && o.entryError.None? then Succeeded else Failed)
      ensures history == old(history) + Settlement(o)
    {
      ghost var t0 := trace;
      match o.importError {
        case Some(e) =>
          state := Failed;
          history := history + [Failed];
          Catch(e, o.failError);
        case None =>
          state := Running;
          history := history + [Running];
          EmitBestEffort(Pre, o.preError);
          trace := trace + [Entry];
          DispatchIncidents(o.entryIncidents);
          ghost var t3 := trace;
          match o.entryError {
            case Some(e) =>
              state := Failed;
              history := history + [Failed];
              Catch(e, o.failError);
            case None =>
              state := Succeeded;
              history := history + [Succeeded];
              EmitBestEffort(Post, o.postError);
          }
          assert trace == t3 + Settled(plugin, o);
          Regroup(t0, Emit(Pre, plugin, o.preError), [Entry], IncidentsTrace(plugin, o.entryIncidents), Settled(plugin, o));
      }
    }

    /** Failures the plugin leaves unhandled reach the handlers, one by one,
        while `main` is suspended at an `await`. */
    method DispatchIncidents(incidents: seq<Incident>)
      requires HandlersInstalled()
      modifies this`trace
      ensures trace == old(trace) + IncidentsTrace(plugin, incidents)
    {
      var i := 0;
      while i < |incidents|
        invariant 0 <= i <= |incidents|
        invariant trace == old(trace) + IncidentsTrace(plugin, incidents[..i])
      {
        Handle(incidents[i]);
        IncidentsTraceSnoc(plugin, incidents, i);
        i := i + 1;
      }
      assert incidents[..i] == incidents;
    }

    /** One failure reaches the listener registered for its kind. */
    method Handle(incident: Incident)
      requires HandlersInstalled()
      modifies this`trace
      ensures trace == old(trace) + Dispatch(plugin, incident)
    {
      match incident {
        case SessionFault(err) => OnSessionError(err);
        case Rejection(reason) => OnUnhandledRejection(reason);
      }
    }

    /** `denops.cmd(...).catch(warn)` for one lifecycle phase. */
    method EmitBestEffort(p: Phase, failure: Option<string>)
      modifies this`trace
      ensures trace == old(trace) + Emit(p, plugin, failure)
    {
      trace := trace + [Cmd(Command(p, plugin))];
      if failure.Some? {
        trace := trace + [Log(Warn, plugin, failure.value)];
      }
    }

    /** `main`'s `catch` block. */
    method Catch(error: string, failError: Option<string>)
      modifies this`trace
      ensures trace == old(trace) + Caught(plugin, error, failError)
    {
      trace := trace + [Log(Error, plugin, error)];
      EmitBestEffort(Fail, failError);
    }

    /** The session's error callback. */
    method OnSessionError(e: SessionError)
      requires HandlersInstalled()
      modifies this`trace
      ensures trace == old(trace) + ErrorCallback(plugin, e)
    {
      if e.name == "Interrupted" {
        return;
      }
      trace := trace + [Log(Error, plugin, e.message)];
    }

    /** The `unhandledrejection` handler. */
    method OnUnhandledRejection(reason: Reason)
      requires HandlersInstalled()
      modifies this`trace
      ensures trace == old(trace) + RejectionEffects(plugin, reason)
    {
      var text := Display(reason);
      if reason.ErrorObject? && reason.stack.Some? && reason.stack.value != "" {
        text := reason.stack.value;
      }
      trace := trace + [Log(Error, plugin, text)];
      trace := trace + [Notify("reload", [])];
      trace := trace + [PreventDefault];
    }
  }

  /** Only the first of two messages reaches the startup listener; the
      second never does: what the listener did, and the arguments `main`
      was started with. */
  method DeliverTwice(first: Value, second: Value, token: nat, o: Outcomes, o': Outcomes)
    returns (done: seq<Event>, mains: seq<Init>)
    ensures done == StartupTrace(first, token, o)
    ensures mains == (match DecodeInit(first) case Ok(init) => [init] case Err(_) => [])
  {
    var w := new Worker();
    w.Deliver(first, token, o);
    w.Deliver(second, token + 1, o');
    done, mains := w.trace, w.started;
  }

  /** The startup payload with which a test plugin named "foo" is started. */
  function ExamplePayload(host: string): Value
  {
    Object(map[
      "name" := Str("foo"),
      "scriptUrl" := Str("file:///p.js"),
      "meta" := Object(map[
        "mode" := Str("test"),
        "host" := Str(host),
        "version" := Str("1.0"),
        "platform" := Str("linux")])])
  }

  /** End to end: a valid handshake and an entry function that returns at
      once give exactly Pre then Post, no reload, then drain and close. */
  lemma ExampleRun()
    ensures StartupTrace(ExamplePayload("vim"), 0, Outcomes(None, [], None, [], None, None, None, [])) ==
      [SessionOpened, Import("file:///p.js#0"), Cmd(Command(Pre, "foo")), Entry,
       Cmd(Command(Post, "foo")), WaitClosed, Close]
  {
    var v := ExamplePayload("vim");
    var meta := Get(v, "meta");
    assert Get(v, "name") == Str("foo");
    assert Get(v, "scriptUrl") == Str("file:///p.js");
    assert Get(meta, "mode") == Str("test") && Get(meta, "host") == Str("vim");
    assert Get(meta, "version") == Str("1.0") && Get(meta, "platform") == Str("linux");
    assert DecodeInit(v) == Ok(Init("foo", "file:///p.js", Meta(Test, Vim, "1.0", Linux)));
    assert Decimal.ToDecimal(0) == "0";
    assert Locator("file:///p.js", 0) == "file:///p.js#0";
    var o := Outcomes(None, [], None, [], None, None, None, []);
    assert IncidentsTrace("foo", []) == [];
    assert Body("foo", o) == [Cmd(Command(Pre, "foo")), Entry, Cmd(Command(Post, "foo"))];
  }

  /** A rejection left behind by the module's top-level code is handled
      while the import is pending: its log, `reload` and `preventDefault`
      come before the Pre command and the entry call. */
  lemma ExampleImportRejection()
    ensures LifecycleTrace(Init("foo", "file:///p.js", Meta(Test, Vim, "1.0", Linux)), 0,
      Outcomes(None, [Rejection(Other("x"))], None, [], None, None, None, []))[2..7] ==
      [Log(Error, "foo", "x"), Notify("reload", []), PreventDefault, Cmd(Command(Pre, "foo")), Entry]
  {
    var init := Init("foo", "file:///p.js", Meta(Test, Vim, "1.0", Linux));
    var o := Outcomes(None, [Rejection(Other("x"))], None, [], None, None, None, []);
    var r := Rejection(Other("x"));
    assert [r][..0] == [];
    assert IncidentsTrace("foo", [r]) == [Log(Error, "foo", "x"), Notify("reload", []), PreventDefault];
    assert IncidentsTrace("foo", []) == [];
    assert AfterImport("foo", o) == [Cmd(Command(Pre, "foo")), Entry, Cmd(Command(Post, "foo"))];
    var loc := Locator(init.scriptUrl, 0);
    assert LifecycleTrace(init, 0, o) ==
      [SessionOpened, Import(loc)] + IncidentsTrace("foo", [r]) + AfterImport("foo", o) + Draining("foo", o);
  }

  /** The host names are the editors' own command names: a payload naming
      the host "vim-editor" is refused. */
  lemma ExampleLongHostRefused()
    ensures DecodeInit(ExamplePayload("vim-editor")).Err?
    ensures DecodeInit(ExamplePayload("vim-editor")).error.InvalidMeta?
  {
    var v := ExamplePayload("vim-editor");
    var meta := Get(v, "meta");
    assert Get(v, "name") == Str("foo");
    assert Get(v, "scriptUrl") == Str("file:///p.js");
    assert Get(meta, "host") == Str("vim-editor");
    assert !IsOneOf(Get(meta, "host"), HostNames);
  }
}
