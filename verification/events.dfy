/** What a worker run does that can be observed from outside, in order. */
module Events {
  import opened Values
  import opened Handshake

  datatype Level = Warn | Error

  datatype Event =
    | StartupError(error: ValidationError)   // the message listener threw
    | SessionOpened                         // RPC session built, handlers installed
    | Import(locator: string)               // dynamic import of the plugin module
    | Cmd(command: string)                  // an editor command sent through `denops.cmd`
    | Entry                                 // the plugin's `main` is invoked
    | Log(level: Level, plugin: string, detail: string)
    | Notify(methodName: string, params: seq<Value>)
    | PreventDefault                        // default crash of an event suppressed
    | WaitClosed                            // the session is drained
    | Close                                 // the worker terminates itself

  /** The editor commands of a trace, in order. */
  function Commands(t: seq<Event>): seq<string>
  {
    if t == [] then []
    else Commands(t[..|t| - 1]) + (if t[|t| - 1].Cmd? then [t[|t| - 1].command] else [])
  }

  /** How many zero-argument `reload` notifications a trace sends. */
  function Reloads(t: seq<Event>): nat
  {
    if t == [] then 0
    else Reloads(t[..|t| - 1]) + (if t[|t| - 1] == Notify("reload", []) then 1 else 0)
  }

  /** A trace with its warnings removed. */
  function WithoutWarnings(t: seq<Event>): seq<Event>
  {
    if t == [] then []
    else
      var last := t[|t| - 1];
      WithoutWarnings(t[..|t| - 1]) + (if last.Log? && last.level == Warn then [] else [last])
  }

  /** The projections of a one-event trace. */
  lemma Single(e: Event)
    ensures Commands([e]) == (if e.Cmd? then [e.command] else [])
    ensures Reloads([e]) == (if e == Notify("reload", []) then 1 else 0)
    ensures WithoutWarnings([e]) == (if e.Log? && e.level == Warn then [] else [e])
  {
    assert [e][..0] == [];
  }

  lemma {:induction false} CommandsAppend(a: seq<Event>, b: seq<Event>)
    ensures Commands(a + b) == Commands(a) + Commands(b)
    decreases |b|
  {
    if b == [] {
      assert a + b == a;
    } else {
      var b' := b[..|b| - 1];
      assert (a + b)[..|a + b| - 1] == a + b';
      CommandsAppend(a, b');
    }
  }

  lemma {:induction false} ReloadsAppend(a: seq<Event>, b: seq<Event>)
    ensures Reloads(a + b) == Reloads(a) + Reloads(b)
    decreases |b|
  {
    if b == [] {
      assert a + b == a;
    } else {
      var b' := b[..|b| - 1];
      assert (a + b)[..|a + b| - 1] == a + b';
      ReloadsAppend(a, b');
    }
  }

  lemma {:induction false} WithoutWarningsAppend(a: seq<Event>, b: seq<Event>)
    ensures WithoutWarnings(a + b) == WithoutWarnings(a) + WithoutWarnings(b)
    decreases |b|
  {
    if b == [] {
      assert a + b == a;
    } else {
      var b' := b[..|b| - 1];
      assert (a + b)[..|a + b| - 1] == a + b';
      WithoutWarningsAppend(a, b');
    }
  }

  /** The parts of a concatenation of up to five traces may be regrouped
      freely; the unused trailing parts are passed empty. */
  lemma Regroup<T>(a: seq<T>, b: seq<T>, c: seq<T>, d: seq<T>, e: seq<T>)
    ensures a + b + c + d + e == a + (b + c + d + e)
    ensures a + (b + c + d) + e == (a + b) + c + (d + e)
    ensures a + b + c + d == a + (b + c + d)
    ensures a + b + (c + d) == a + b + c + d
    ensures a + b + c == a + (b + c)
  {
  }

  /** Commands framed by command-free parts are the middle part's. */
  lemma CommandsFramed(head: seq<Event>, body: seq<Event>, tail: seq<Event>)
    requires Commands(head) == [] && Commands(tail) == []
    ensures Commands(head + body + tail) == Commands(body)
  {
    CommandsAppend(head + body, tail);
    CommandsAppend(head, body);
  }

  /** A command is in the projection exactly when the trace sends it. */
  lemma {:induction false} CommandsMember(t: seq<Event>, c: string)
    ensures c in Commands(t) <==> Cmd(c) in t
  {
    if t != [] {
      var t' := t[..|t| - 1];
      CommandsMember(t', c);
      assert t == t' + [t[|t| - 1]];
    }
  }
}
