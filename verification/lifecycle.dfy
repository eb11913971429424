/** The plugin lifecycle of a worker run: what `main` emits, in which order,
    for every combination of outcomes of the steps it cannot control. */
module Lifecycle {
  import opened Values
  import opened Events
  import opened Policy
  import Decimal

  datatype Phase = Pre | Post | Fail

  function PhaseName(p: Phase): string
  {
    match p
    case Pre => "Pre"
    case Post => "Post"
    case Fail => "Fail"
  }

  const CommandPrefix: string := "doautocmd <nomodeline> User DenopsPlugin"

  /** The editor command that fires the `DenopsPlugin<Phase>:<name>` user
      autocommand. */
  function Command(p: Phase, name: string): string
  {
    CommandPrefix + PhaseName(p) + ":" + name
  }

  /** Each command names one phase and one plugin. */
  lemma CommandInjective(p: Phase, q: Phase, n: string, m: string)
    ensures Command(p, n) == Command(q, m) <==> p == q && n == m
  {
    if Command(p, n) == Command(q, m) {
      var c := Command(p, n);
      var k := |CommandPrefix|;
      assert c[k] == PhaseName(p)[0] && c[k + 1] == PhaseName(p)[1];
      assert c[k] == PhaseName(q)[0] && c[k + 1] == PhaseName(q)[1];
      var j := k + |PhaseName(p)| + 1;
      assert c[j..] == n;
      assert Command(q, m)[j..] == m;
    }
  }

  /** The module specifier of the load: the script URL with the token
      standing for `performance.now()` as its fragment. A worker imports
      once; distinct tokens give distinct specifiers. */
  function Locator(scriptUrl: string, token: nat): string
  {
    scriptUrl + "#" + Decimal.ToDecimal(token)
  }

  /** For a fixed script URL, two loads share a locator only if they share
      a token. */
  lemma LocatorInjective(scriptUrl: string, t1: nat, t2: nat)
    ensures Locator(scriptUrl, t1) == Locator(scriptUrl, t2) <==> t1 == t2
  {
    if Locator(scriptUrl, t1) == Locator(scriptUrl, t2) {
      var k := |scriptUrl| + 1;
      assert Locator(scriptUrl, t1)[k..] == Decimal.ToDecimal(t1);
      assert Locator(scriptUrl, t2)[k..] == Decimal.ToDecimal(t2);
      Decimal.ToDecimalInjective(t1, t2);
    }
  }

  /** Loads given strictly increasing tokens never repeat a locator. The
      increase is an assumption about the token source: each worker takes
      its token from its own clock. */
  lemma LocatorsDistinct(scriptUrl: string, tokens: seq<nat>)
    requires forall i, j :: 0 <= i < j < |tokens| ==> tokens[i] < tokens[j]
    ensures forall i, j :: 0 <= i < j < |tokens| ==>
      Locator(scriptUrl, tokens[i]) != Locator(scriptUrl, tokens[j])
  {
    forall i, j | 0 <= i < j < |tokens|
      ensures Locator(scriptUrl, tokens[i]) != Locator(scriptUrl, tokens[j])
    {
      LocatorInjective(scriptUrl, tokens[i], tokens[j]);
    }
  }

  /** What the steps outside the worker's control do: `None` means the step
      succeeds, `Some(e)` that it fails with error text `e`. The
      asynchronous failures are delivered while the import is pending
      (`importIncidents`, which includes what the module's top-level code
      leaves behind), while the entry function is pending
      (`entryIncidents`), and while `main` waits for the session to close
      (`closingIncidents`). */
  datatype Outcomes = Outcomes(
    importError: Option<string>,
    importIncidents: seq<Incident>,
    preError: Option<string>,
    entryIncidents: seq<Incident>,
    entryError: Option<string>,
    postError: Option<string>,
    failError: Option<string>,
    closingIncidents: seq<Incident>)

  /** A best-effort `denops.cmd(...).catch(warn)`: the command is sent; a
      delivery failure only adds a warning naming the plugin. */
  function Emit(p: Phase, name: string, failure: Option<string>): seq<Event>
  {
    [Cmd(Command(p, name))] + (match failure case None => [] case Some(e) => [Log(Warn, name, e)])
  }

  /** The `catch` block: the error is logged, tagged with the plugin name,
      and the Fail command is emitted best-effort. */
  function Caught(name: string, error: string, failError: Option<string>): seq<Event>
  {
    [Log(Error, name, error)] + Emit(Fail, name, failError)
  }

  /** The `try`/`catch` part of `main`: the handlers see the failures
      that arrive while the import is pending, then the import settles. */
  function Body(name: string, o: Outcomes): seq<Event>
  {
    IncidentsTrace(name, o.importIncidents) + AfterImport(name, o)
  }

  /** The `try`/`catch` part of `main` once the import has settled. */
  function AfterImport(name: string, o: Outcomes): seq<Event>
  {
    match o.importError
    case Some(e) => Caught(name, e, o.failError)
    case None =>
      Emit(Pre, name, o.preError) + [Entry] + IncidentsTrace(name, o.entryIncidents) + Settled(name, o)
  }

  /** Everything a started `main` emits, from building the session to the
      worker closing itself. */
  function LifecycleTrace(init: Handshake.Init, token: nat, o: Outcomes): seq<Event>
  {
    Opening(Locator(init.scriptUrl, token)) + Body(init.name, o) + Draining(init.name, o)
  }

  /** The `finally` block and what follows it: the handlers still see the
      failures that arrive while the session drains, then `waitClosed`
      resolves and the worker closes itself. */
  function Draining(name: string, o: Outcomes): seq<Event>
  {
    IncidentsTrace(name, o.closingIncidents) + Shutdown
  }

  /** The steps of `main` before its `try`: the session is built and its
      handlers installed, then the plugin module is imported. */
  function Opening(locator: string): seq<Event>
  {
    [SessionOpened, Import(locator)]
  }

  /** The last two steps of `main`. */
  const Shutdown: seq<Event> := [WaitClosed, Close]

  datatype State = Idle | Loading | Running | Succeeded | Failed | Closing | Closed

  /** The transitions of the lifecycle driver. A failed import goes from
      Loading straight to Failed, as `main`'s `catch` covers the import. */
  predicate Step(s: State, s': State)
  {
    match s
    case Idle => s' == Loading
    case Loading => s' == Running || s' == Failed
    case Running => s' == Succeeded || s' == Failed
    case Succeeded => s' == Closing
    case Failed => s' == Closing
    case Closing => s' == Closed
    case Closed => false
  }

  /** The states the `try`/`catch` of `main` passes through. */
  function Settlement(o: Outcomes): seq<State>
  {
    if o.importError.Some? then [Failed]
    else if o.entryError.Some? then [Running, Failed]
    else [Running, Succeeded]
  }

  /** The states `main` passes through after Idle. */
  function StatePath(o: Outcomes): seq<State>
  {
    [Loading] + Settlement(o) + [Closing, Closed]
  }

  /** Every run follows the state machine from Idle to Closed, and it
      succeeds exactly when both the import and the entry function do. */
  lemma StatePathFollowsMachine(o: Outcomes)
    ensures Step(Idle, StatePath(o)[0])
    ensures forall i :: 0 <= i < |StatePath(o)| - 1 ==> Step(StatePath(o)[i], StatePath(o)[i + 1])
    ensures StatePath(o)[|StatePath(o)| - 1] == Closed
    ensures Succeeded in StatePath(o) <==> o.importError.None? && o.entryError.None?
    ensures Failed in StatePath(o) <==> !(Succeeded in StatePath(o))
  {
  }

  lemma EmitFacts(p: Phase, n: string, f: Option<string>)
    ensures Commands(Emit(p, n, f)) == [Command(p, n)]
    ensures Reloads(Emit(p, n, f)) == 0
    ensures WithoutWarnings(Emit(p, n, f)) == [Cmd(Command(p, n))]
    ensures Entry !in Emit(p, n, f) && WaitClosed !in Emit(p, n, f) && Close !in Emit(p, n, f)
  {
    var c := Cmd(Command(p, n));
    match f {
      case None =>
        assert Emit(p, n, f) == [c];
        Single(c);
      case Some(e) =>
        var w := Log(Warn, n, e);
        assert Emit(p, n, f) == [c] + [w];
        assert Commands(Emit(p, n, f)) == [Command(p, n)] by {
          Single(c);
          Single(w);
          CommandsAppend([c], [w]);
        }
        assert Reloads(Emit(p, n, f)) == 0 by {
          Single(c);
          Single(w);
          ReloadsAppend([c], [w]);
        }
        assert WithoutWarnings(Emit(p, n, f)) == [c] by {
          Single(c);
          Single(w);
          WithoutWarningsAppend([c], [w]);
        }
    }
  }

  lemma CaughtFacts(n: string, e: string, f: Option<string>)
    ensures Commands(Caught(n, e, f)) == [Command(Fail, n)]
    ensures Reloads(Caught(n, e, f)) == 0
    ensures Entry !in Caught(n, e, f) && WaitClosed !in Caught(n, e, f) && Close !in Caught(n, e, f)
  {
    var l := Log(Error, n, e);
    var emit := Emit(Fail, n, f);
    assert Caught(n, e, f) == [l] + emit;
    assert Commands(Caught(n, e, f)) == [Command(Fail, n)] by {
      EmitFacts(Fail, n, f);
      Single(l);
      CommandsAppend([l], emit);
    }
    assert Reloads(Caught(n, e, f)) == 0 by {
      EmitFacts(Fail, n, f);
      Single(l);
      ReloadsAppend([l], emit);
    }
    assert Entry !in Caught(n, e, f) && WaitClosed !in Caught(n, e, f) && Close !in Caught(n, e, f) by {
      EmitFacts(Fail, n, f);
    }
  }

  lemma CaughtWithoutWarnings(n: string, e: string, f: Option<string>)
    ensures WithoutWarnings(Caught(n, e, f)) == [Log(Error, n, e), Cmd(Command(Fail, n))]
  {
    var l := Log(Error, n, e);
    var emit := Emit(Fail, n, f);
    assert Caught(n, e, f) == [l] + emit;
    EmitFacts(Fail, n, f);
    Single(l);
    WithoutWarningsAppend([l], emit);
  }

  /** The part of a successful import's body after the entry call. */
  function Settled(name: string, o: Outcomes): seq<Event>
  {
    match o.entryError
    case Some(e) => Caught(name, e, o.failError)
    case None => Emit(Post, name, o.postError)
  }

  lemma SettledFacts(n: string, o: Outcomes)
    ensures Commands(Settled(n, o)) == [Command(if o.entryError.None? then Post else Fail, n)]
    ensures Reloads(Settled(n, o)) == 0
    ensures Entry !in Settled(n, o) && WaitClosed !in Settled(n, o) && Close !in Settled(n, o)
  {
    match o.entryError {
      case Some(e) => CaughtFacts(n, e, o.failError);
      case None => EmitFacts(Post, n, o.postError);
    }
  }

  lemma IncidentsFacts(n: string, incidents: seq<Incident>)
    ensures Commands(IncidentsTrace(n, incidents)) == []
    ensures WithoutWarnings(IncidentsTrace(n, incidents)) == IncidentsTrace(n, incidents)
    ensures Entry !in IncidentsTrace(n, incidents)
    ensures WaitClosed !in IncidentsTrace(n, incidents) && Close !in IncidentsTrace(n, incidents)
  {
    var inc := IncidentsTrace(n, incidents);
    IncidentsOnlyHandlerEffects(n, incidents);
    HandlerEffectsQuiet(n, inc);
    assert !IsHandlerEffect(n, Entry) && !IsHandlerEffect(n, WaitClosed) && !IsHandlerEffect(n, Close);
  }

  lemma AfterImportCommands(n: string, o: Outcomes)
    ensures Commands(AfterImport(n, o)) ==
      if o.importError.Some? then [Command(Fail, n)]
      else [Command(Pre, n), Command(if o.entryError.None? then Post else Fail, n)]
  {
    match o.importError {
      case Some(e) => CaughtFacts(n, e, o.failError);
      case None =>
        var pre := Emit(Pre, n, o.preError);
        var inc := IncidentsTrace(n, o.entryIncidents);
        assert AfterImport(n, o) == pre + [Entry] + inc + Settled(n, o);
        CommandsAppend(pre + [Entry] + inc, Settled(n, o));
        CommandsAppend(pre + [Entry], inc);
        CommandsAppend(pre, [Entry]);
        assert [Entry][..0] == [];
        EmitFacts(Pre, n, o.preError);
        IncidentsFacts(n, o.entryIncidents);
        SettledFacts(n, o);
    }
  }

  lemma BodyCommands(n: string, o: Outcomes)
    ensures Commands(Body(n, o)) ==
      if o.importError.Some? then [Command(Fail, n)]
      else [Command(Pre, n), Command(if o.entryError.None? then Post else Fail, n)]
  {
    IncidentsFacts(n, o.importIncidents);
    AfterImportCommands(n, o);
    CommandsAppend(IncidentsTrace(n, o.importIncidents), AfterImport(n, o));
  }

  lemma OpeningFacts(locator: string)
    ensures Commands(Opening(locator)) == [] && Reloads(Opening(locator)) == 0
    ensures Entry !in Opening(locator)
  {
    var i := Import(locator);
    Single(SessionOpened);
    Single(i);
    assert Opening(locator) == [SessionOpened] + [i];
    CommandsAppend([SessionOpened], [i]);
    ReloadsAppend([SessionOpened], [i]);
  }

  lemma ShutdownFacts()
    ensures Commands(Shutdown) == [] && Reloads(Shutdown) == 0
    ensures Entry !in Shutdown
  {
    assert Shutdown == [WaitClosed] + [Close];
    assert Commands(Shutdown) == [] by {
      Single(WaitClosed);
      Single(Close);
      CommandsAppend([WaitClosed], [Close]);
    }
    assert Reloads(Shutdown) == 0 by {
      Single(WaitClosed);
      Single(Close);
      ReloadsAppend([WaitClosed], [Close]);
    }
  }

  lemma DrainingFacts(n: string, o: Outcomes)
    ensures Commands(Draining(n, o)) == []
    ensures Reloads(Draining(n, o)) == RejectionCount(o.closingIncidents)
    ensures Entry !in Draining(n, o)
  {
    var inc := IncidentsTrace(n, o.closingIncidents);
    assert Commands(Draining(n, o)) == [] by {
      IncidentsFacts(n, o.closingIncidents);
      ShutdownFacts();
      CommandsAppend(inc, Shutdown);
    }
    assert Reloads(Draining(n, o)) == RejectionCount(o.closingIncidents) by {
      IncidentsReloads(n, o.closingIncidents);
      ShutdownFacts();
      ReloadsAppend(inc, Shutdown);
    }
    assert Entry !in Draining(n, o) by {
      IncidentsFacts(n, o.closingIncidents);
      ShutdownFacts();
    }
  }

  /** The editor commands of a run: only Fail after a failed import, Pre
      then Post after a successful entry, Pre then Fail after a failed
      one. Delivery failures do not change them. */
  lemma LifecycleCommands(init: Handshake.Init, token: nat, o: Outcomes)
    ensures Commands(LifecycleTrace(init, token, o)) ==
      if o.importError.Some? then [Command(Fail, init.name)]
      else if o.entryError.Some? then [Command(Pre, init.name), Command(Fail, init.name)]
      else [Command(Pre, init.name), Command(Post, init.name)]
  {
    var head := Opening(Locator(init.scriptUrl, token));
    OpeningFacts(Locator(init.scriptUrl, token));
    DrainingFacts(init.name, o);
    CommandsFramed(head, Body(init.name, o), Draining(init.name, o));
    BodyCommands(init.name, o);
  }

  /** Post and Fail are never both emitted: Post is emitted exactly when
      the import and the entry function succeed, Fail exactly otherwise. */
  lemma PostXorFail(init: Handshake.Init, token: nat, o: Outcomes)
    ensures Cmd(Command(Post, init.name)) in LifecycleTrace(init, token, o) <==>
      o.importError.None? && o.entryError.None?
    ensures Cmd(Command(Fail, init.name)) in LifecycleTrace(init, token, o) <==>
      !(Cmd(Command(Post, init.name)) in LifecycleTrace(init, token, o))
  {
    var n := init.name;
    var t := LifecycleTrace(init, token, o);
    LifecycleCommands(init, token, o);
    CommandsMember(t, Command(Post, n));
    CommandsMember(t, Command(Fail, n));
    CommandInjective(Post, Fail, n, n);
    CommandInjective(Pre, Fail, n, n);
    CommandInjective(Pre, Post, n, n);
  }

  /** `x` occurs once in `a + [x] + b` when it occurs in neither part. */
  lemma OnlyOccurrence<T>(a: seq<T>, x: T, b: seq<T>, k: int)
    requires x !in a && x !in b
    requires 0 <= k < |a + [x] + b| && (a + [x] + b)[k] == x
    ensures k == |a|
    ensures (a + [x] + b)[..k] == a && (a + [x] + b)[k + 1..] == b
  {
    var s := a + [x] + b;
    assert forall i :: 0 <= i < |a| ==> s[i] == a[i];
    assert forall i :: |a| < i < |s| ==> s[i] == b[i - |a| - 1];
  }

  /** What follows a successful import, cut at the entry call. */
  lemma AfterImportEntrySplit(n: string, o: Outcomes) returns (p: seq<Event>, q: seq<Event>)
    requires o.importError.None?
    ensures AfterImport(n, o) == p + [Entry] + q
    ensures Entry !in p && Entry !in q
    ensures Commands(p) == [Command(Pre, n)]
    ensures Commands(q) == [Command(if o.entryError.None? then Post else Fail, n)]
  {
    var inc := IncidentsTrace(n, o.entryIncidents);
    var settled := Settled(n, o);
    p := Emit(Pre, n, o.preError);
    q := inc + settled;
    assert AfterImport(n, o) == p + [Entry] + q;
    assert Entry !in p && Commands(p) == [Command(Pre, n)] by {
      EmitFacts(Pre, n, o.preError);
    }
    assert Entry !in q by {
      IncidentsFacts(n, o.entryIncidents);
      SettledFacts(n, o);
    }
    assert Commands(q) == [Command(if o.entryError.None? then Post else Fail, n)] by {
      IncidentsFacts(n, o.entryIncidents);
      SettledFacts(n, o);
      CommandsAppend(inc, settled);
    }
  }

  /** A successful import's body, cut at the entry call. */
  lemma BodyEntrySplit(n: string, o: Outcomes) returns (p: seq<Event>, q: seq<Event>)
    requires o.importError.None?
    ensures Body(n, o) == p + [Entry] + q
    ensures Entry !in p && Entry !in q
    ensures Commands(p) == [Command(Pre, n)]
    ensures Commands(q) == [Command(if o.entryError.None? then Post else Fail, n)]
  {
    var loading := IncidentsTrace(n, o.importIncidents);
    var p', q' := AfterImportEntrySplit(n, o);
    p := loading + p';
    q := q';
    assert Body(n, o) == p + [Entry] + q;
    assert Entry !in p && Commands(p) == [Command(Pre, n)] by {
      IncidentsFacts(n, o.importIncidents);
      CommandsAppend(loading, p');
    }
  }

  /** A successful import's trace, cut at the entry call. */
  lemma EntrySplit(init: Handshake.Init, token: nat, o: Outcomes) returns (a: seq<Event>, b: seq<Event>)
    requires o.importError.None?
    ensures LifecycleTrace(init, token, o) == a + [Entry] + b
    ensures Entry !in a && Entry !in b
    ensures Commands(a) == [Command(Pre, init.name)]
    ensures Commands(b) == [Command(if o.entryError.None? then Post else Fail, init.name)]
  {
    var head := Opening(Locator(init.scriptUrl, token));
    var p, q := BodyEntrySplit(init.name, o);
    var tail := Draining(init.name, o);
    OpeningFacts(Locator(init.scriptUrl, token));
    DrainingFacts(init.name, o);
    a := head + p;
    b := q + tail;
    Regroup(head, p, [Entry], q, tail);
    CommandsAppend(head, p);
    CommandsAppend(q, tail);
  }

  /** The entry function is called only after a successful import, once,
      with exactly the Pre command sent before it and exactly one of Post
      or Fail after it. */
  lemma EntryBetweenPreAndOutcome(init: Handshake.Init, token: nat, o: Outcomes)
    ensures Entry in LifecycleTrace(init, token, o) <==> o.importError.None?
    ensures forall k :: 0 <= k < |LifecycleTrace(init, token, o)| && LifecycleTrace(init, token, o)[k] == Entry ==>
      && Commands(LifecycleTrace(init, token, o)[..k]) == [Command(Pre, init.name)]
      && Commands(LifecycleTrace(init, token, o)[k + 1..]) ==
           [Command(if o.entryError.None? then Post else Fail, init.name)]
    ensures forall k1, k2 ::
      0 <= k1 < |LifecycleTrace(init, token, o)| && LifecycleTrace(init, token, o)[k1] == Entry &&
      0 <= k2 < |LifecycleTrace(init, token, o)| && LifecycleTrace(init, token, o)[k2] == Entry ==>
      k1 == k2
  {
    var t := LifecycleTrace(init, token, o);
    match o.importError {
      case Some(e) =>
        assert Entry !in Body(init.name, o) by {
          assert Body(init.name, o) == IncidentsTrace(init.name, o.importIncidents) + Caught(init.name, e, o.failError);
          IncidentsFacts(init.name, o.importIncidents);
          CaughtFacts(init.name, e, o.failError);
        }
        OpeningFacts(Locator(init.scriptUrl, token));
        DrainingFacts(init.name, o);
        assert Entry !in t;
      case None =>
        var a, b := EntrySplit(init, token, o);
        forall k | 0 <= k < |t| && t[k] == Entry
          ensures Commands(t[..k]) == [Command(Pre, init.name)]
          ensures Commands(t[k + 1..]) == [Command(if o.entryError.None? then Post else Fail, init.name)]
        {
          OnlyOccurrence(a, Entry, b, k);
        }
        forall k1, k2 | 0 <= k1 < |t| && t[k1] == Entry && 0 <= k2 < |t| && t[k2] == Entry
          ensures k1 == k2
        {
          OnlyOccurrence(a, Entry, b, k1);
          OnlyOccurrence(a, Entry, b, k2);
        }
    }
  }

  lemma LastTwo<T>(a: seq<T>, x: T, y: T)
    requires x !in a && y !in a && x != y
    ensures |a + [x, y]| >= 2
    ensures (a + [x, y])[|a + [x, y]| - 2] == x && (a + [x, y])[|a + [x, y]| - 1] == y
    ensures x !in (a + [x, y])[..|a + [x, y]| - 2]
    ensures y !in (a + [x, y])[..|a + [x, y]| - 1]
  {
    var s := a + [x, y];
    assert s[..|s| - 2] == a;
    assert s[..|s| - 1] == a + [x];
  }

  lemma BodyShape(n: string, o: Outcomes)
    ensures |Body(n, o)| >= 1
    ensures WaitClosed !in Body(n, o) && Close !in Body(n, o)
  {
    IncidentsFacts(n, o.importIncidents);
    match o.importError {
      case Some(e) =>
        CaughtFacts(n, e, o.failError);
      case None =>
        EmitFacts(Pre, n, o.preError);
        IncidentsFacts(n, o.entryIncidents);
        SettledFacts(n, o);
        assert AfterImport(n, o) ==
          Emit(Pre, n, o.preError) + [Entry] + IncidentsTrace(n, o.entryIncidents) + Settled(n, o);
    }
  }

  /** The session is built before any plugin code runs; `waitClosed` comes
      after every other step and the worker closes itself last, once. */
  lemma SessionFirstCloseLast(init: Handshake.Init, token: nat, o: Outcomes)
    ensures LifecycleTrace(init, token, o)[0] == SessionOpened
    ensures LifecycleTrace(init, token, o)[1] == Import(Locator(init.scriptUrl, token))
    ensures |LifecycleTrace(init, token, o)| >= 5
    ensures LifecycleTrace(init, token, o)[|LifecycleTrace(init, token, o)| - 2] == WaitClosed
    ensures LifecycleTrace(init, token, o)[|LifecycleTrace(init, token, o)| - 1] == Close
    ensures WaitClosed !in LifecycleTrace(init, token, o)[..|LifecycleTrace(init, token, o)| - 2]
    ensures Close !in LifecycleTrace(init, token, o)[..|LifecycleTrace(init, token, o)| - 1]
  {
    var head := Opening(Locator(init.scriptUrl, token));
    var inc := IncidentsTrace(init.name, o.closingIncidents);
    var front := head + Body(init.name, o) + inc;
    assert LifecycleTrace(init, token, o) == front + [WaitClosed, Close] by {
      Regroup(head, Body(init.name, o), inc, Shutdown, []);
    }
    assert |front| >= 3 && front[..2] == head by {
      BodyShape(init.name, o);
    }
    assert WaitClosed !in front && Close !in front by {
      BodyShape(init.name, o);
      IncidentsFacts(init.name, o.closingIncidents);
    }
    LastTwo(front, WaitClosed, Close);
  }

  /** A failed delivery of a lifecycle command changes nothing but the
      warnings: with the import, incident and entry outcomes fixed, two
      runs agree on everything else. */
  lemma DeliveryFailuresOnlyWarn(init: Handshake.Init, token: nat, o: Outcomes, o': Outcomes)
    requires o.importError == o'.importError && o.entryError == o'.entryError
    requires o.importIncidents == o'.importIncidents && o.entryIncidents == o'.entryIncidents
    requires o.closingIncidents == o'.closingIncidents
    ensures WithoutWarnings(LifecycleTrace(init, token, o)) == WithoutWarnings(LifecycleTrace(init, token, o'))
  {
    var n := init.name;
    var head := Opening(Locator(init.scriptUrl, token));
    BodyWithoutWarnings(n, o, o');
    assert Draining(n, o) == Draining(n, o');
    WithoutWarningsAppend(head + Body(n, o), Draining(n, o));
    WithoutWarningsAppend(head, Body(n, o));
    WithoutWarningsAppend(head + Body(n, o'), Draining(n, o));
    WithoutWarningsAppend(head, Body(n, o'));
  }

  lemma BodyWithoutWarnings(n: string, o: Outcomes, o': Outcomes)
    requires o.importError == o'.importError && o.entryError == o'.entryError
    requires o.importIncidents == o'.importIncidents && o.entryIncidents == o'.entryIncidents
    ensures WithoutWarnings(Body(n, o)) == WithoutWarnings(Body(n, o'))
  {
    var loading := IncidentsTrace(n, o.importIncidents);
    AfterImportWithoutWarnings(n, o, o');
    WithoutWarningsAppend(loading, AfterImport(n, o));
    WithoutWarningsAppend(loading, AfterImport(n, o'));
  }

  lemma AfterImportWithoutWarnings(n: string, o: Outcomes, o': Outcomes)
    requires o.importError == o'.importError && o.entryError == o'.entryError
    requires o.entryIncidents == o'.entryIncidents
    ensures WithoutWarnings(AfterImport(n, o)) == WithoutWarnings(AfterImport(n, o'))
  {
    match o.importError {
      case Some(e) =>
        CaughtWithoutWarnings(n, e, o.failError);
        CaughtWithoutWarnings(n, e, o'.failError);
      case None =>
        var inc := IncidentsTrace(n, o.entryIncidents);
        var pre := Emit(Pre, n, o.preError);
        var pre' := Emit(Pre, n, o'.preError);
        EmitFacts(Pre, n, o.preError);
        EmitFacts(Pre, n, o'.preError);
        assert WithoutWarnings(Settled(n, o)) == WithoutWarnings(Settled(n, o')) by {
          match o.entryError {
            case Some(e) =>
              CaughtWithoutWarnings(n, e, o.failError);
              CaughtWithoutWarnings(n, e, o'.failError);
            case None =>
              EmitFacts(Post, n, o.postError);
              EmitFacts(Post, n, o'.postError);
          }
        }
        assert AfterImport(n, o) == pre + [Entry] + inc + Settled(n, o);
        assert AfterImport(n, o') == pre' + [Entry] + inc + Settled(n, o');
        WithoutWarningsAppend(pre + [Entry] + inc, Settled(n, o));
        WithoutWarningsAppend(pre' + [Entry] + inc, Settled(n, o'));
        WithoutWarningsAppend(pre + [Entry], inc);
        WithoutWarningsAppend(pre' + [Entry], inc);
        WithoutWarningsAppend(pre, [Entry]);
        WithoutWarningsAppend(pre', [Entry]);
    }
  }

  /** Only unhandled rejections ask the host for a reload, one each,
      wherever in the run they arrive; session errors, failing imports and
      failing entry functions never do. Failures can only arrive during
      the entry function when the import succeeded. */
  lemma LifecycleReloads(init: Handshake.Init, token: nat, o: Outcomes)
    ensures Reloads(LifecycleTrace(init, token, o)) ==
      RejectionCount(o.importIncidents)
      + (if o.importError.None? then RejectionCount(o.entryIncidents) else 0)
      + RejectionCount(o.closingIncidents)
  {
    var head := Opening(Locator(init.scriptUrl, token));
    var body := Body(init.name, o);
    var tail := Draining(init.name, o);
    OpeningFacts(Locator(init.scriptUrl, token));
    DrainingFacts(init.name, o);
    BodyReloads(init.name, o);
    ReloadsAppend(head + body, tail);
    ReloadsAppend(head, body);
  }

  lemma BodyReloads(n: string, o: Outcomes)
    ensures Reloads(Body(n, o)) ==
      RejectionCount(o.importIncidents) + (if o.importError.None? then RejectionCount(o.entryIncidents) else 0)
  {
    IncidentsReloads(n, o.importIncidents);
    AfterImportReloads(n, o);
    ReloadsAppend(IncidentsTrace(n, o.importIncidents), AfterImport(n, o));
  }

  lemma AfterImportReloads(n: string, o: Outcomes)
    ensures Reloads(AfterImport(n, o)) == if o.importError.None? then RejectionCount(o.entryIncidents) else 0
  {
    match o.importError {
      case Some(e) =>
        CaughtFacts(n, e, o.failError);
      case None =>
        var pre := Emit(Pre, n, o.preError);
        var inc := IncidentsTrace(n, o.entryIncidents);
        assert AfterImport(n, o) == pre + [Entry] + inc + Settled(n, o);
        IncidentsReloads(n, o.entryIncidents);
        EmitFacts(Pre, n, o.preError);
        SettledFacts(n, o);
        Single(Entry);
        ReloadsAppend(pre + [Entry] + inc, Settled(n, o));
        ReloadsAppend(pre + [Entry], inc);
        ReloadsAppend(pre, [Entry]);
    }
  }
}
