/**
 The observable behaviour of the three lifecycle phases. Hook calls and the
 events handed to the event dispatcher are recorded, in the order they
 happen, as one trace of actions. A hook's behaviour is an input: for `init`
 and `beforeServerStart` whether it throws, for `beforeProcessStart` whether
 it throws, or else whether `pop(5)` on its readiness channel yields a
 truthy value (`ReadyInTime`) or a falsy one (`TimedOut`: a timeout, a
 closed channel or a falsy value pushed).
 */
module Lifecycle {
  import opened Plugins

  datatype Phase = Init | BeforeServerStart | BeforeProcessStart

  /** The kinds of `PluginManagerEvent`. */
  datatype ManagerEventKind =
    | PlugBeforeServerStartEvent
    | PlugAfterServerStartEvent
    | PlugBeforeProcessStartEvent
    | PlugAfterProcessStartEvent
    | PlugAllReadyEvent

  /** The kinds of `PluginEvent`. */
  datatype PluginEventKind = PlugSuccessEvent | PlugFailEvent

  datatype Action =
    | OnAdded(p: Plugin)                              // `$plug->onAdded($this)`
    | Hook(phase: Phase, p: Plugin)                   // a lifecycle hook of `p` is invoked
    | CloseReadiness(p: Plugin)                       // `$plug->getReadyChannel()->close()`
    | ManagerEvent(kind: ManagerEventKind)            // dispatched `PluginManagerEvent`
    | PluginEvent(pkind: PluginEventKind, about: Plugin)  // dispatched `PluginEvent`
  {
    predicate IsEvent() { ManagerEvent? || PluginEvent? }
  }

  /** What a plugin's `beforeProcessStart` hook leads to. */
  datatype StartOutcome = Throws | ReadyInTime | TimedOut

  /** The manager's own ready channel: nothing pushed yet, "ready" pushed and
      not yet taken, or closed by `waitReady`. */
  datatype ReadyChannel = Empty | Signalled | Closed

  /** A dispatch guarded by `$this->eventDispatcher != null`. */
  function Dispatch(hasDispatcher: bool, a: Action): seq<Action>
  {
    if hasDispatcher then [a] else []
  }

  /** One hook call per plugin, in the given order. */
  function HookCalls(phase: Phase, ps: seq<Plugin>): seq<Action>
  {
    seq(|ps|, i requires 0 <= i < |ps| => Hook(phase, ps[i]))
  }

  /** The plugins whose hooks the trace `t` invokes, in call order. */
  function HookedPlugins(t: seq<Action>): seq<Plugin>
  {
    if t == [] then []
    else HookedPlugins(t[..|t| - 1]) + (if t[|t| - 1].Hook? then [t[|t| - 1].p] else [])
  }

  lemma {:induction false} HookedPluginsAppend(a: seq<Action>, b: seq<Action>)
    ensures HookedPlugins(a + b) == HookedPlugins(a) + HookedPlugins(b)
  {
    if b == [] {
      assert a + b == a;
    } else {
      assert (a + b)[..|a + b| - 1] == a + b[..|b| - 1];
      HookedPluginsAppend(a, b[..|b| - 1]);
    }
  }

  // ---------------------------------------------------------------------
  // init and beforeServerStart: an exception from a hook is not caught
  // ---------------------------------------------------------------------

  /** The position of the first plugin whose hook throws, or `|ps|` when none
      does: the hooks before it all return, and it (if any) throws. */
  function FirstThrow(ps: seq<Plugin>, throws: Plugin -> bool): (n: nat)
    ensures n <= |ps|
    ensures forall k :: 0 <= k < n ==> !throws(ps[k])
    ensures n < |ps| ==> throws(ps[n])
  {
    if ps == [] then 0
    else if throws(ps[0]) then 0
    else 1 + FirstThrow(ps[1..], throws)
  }

  /** The plugins whose hook a fail-fast phase invokes: all of them up to and
      including the first that throws. */
  function Reached(ps: seq<Plugin>, throws: Plugin -> bool): seq<Plugin>
  {
    var n := FirstThrow(ps, throws);
    if n < |ps| then ps[..n + 1] else ps
  }

  /** A fail-fast phase calls each hook once, in order, and stops right after
      the first hook that throws; when none throws, every hook is called. */
  lemma ReachedIsFailFast(ps: seq<Plugin>, throws: Plugin -> bool)
    ensures Reached(ps, throws) <= ps
    ensures forall k :: 0 <= k < |Reached(ps, throws)| - 1 ==> !throws(ps[k])
    ensures (exists k :: 0 <= k < |ps| && throws(ps[k])) ==>
              Reached(ps, throws) != [] && throws(ps[|Reached(ps, throws)| - 1])
    ensures (forall k :: 0 <= k < |ps| ==> !throws(ps[k])) ==> Reached(ps, throws) == ps
  {
  }

  /** The trace of `beforeServerStart`: the "before" event, the hooks up to the
      first that throws, and the "after" event only when none throws. */
  function ServerStartTrace(ps: seq<Plugin>, throws: Plugin -> bool, hasDispatcher: bool): seq<Action>
  {
    Dispatch(hasDispatcher, ManagerEvent(PlugBeforeServerStartEvent))
    + HookCalls(BeforeServerStart, Reached(ps, throws))
    + (if FirstThrow(ps, throws) == |ps| then Dispatch(hasDispatcher, ManagerEvent(PlugAfterServerStartEvent)) else [])
  }

  /** When no hook throws, `beforeServerStart` invokes every plugin's hook
      once, in order, between its two events; without a dispatcher the
      trace holds the hooks alone. */
  lemma {:induction false} ServerStartBrackets(ps: seq<Plugin>, throws: Plugin -> bool, hasDispatcher: bool)
    requires forall k :: 0 <= k < |ps| ==> !throws(ps[k])
    ensures hasDispatcher ==>
              ServerStartTrace(ps, throws, hasDispatcher)
              == [ManagerEvent(PlugBeforeServerStartEvent)] + HookCalls(BeforeServerStart, ps) + [ManagerEvent(PlugAfterServerStartEvent)]
    ensures !hasDispatcher ==> ServerStartTrace(ps, throws, hasDispatcher) == HookCalls(BeforeServerStart, ps)
    ensures HookedPlugins(ServerStartTrace(ps, throws, hasDispatcher)) == ps
  {
    ReachedIsFailFast(ps, throws);
    var t := ServerStartTrace(ps, throws, hasDispatcher);
    HookCallsHooked(BeforeServerStart, ps);
    var before := Dispatch(hasDispatcher, ManagerEvent(PlugBeforeServerStartEvent));
    var after := Dispatch(hasDispatcher, ManagerEvent(PlugAfterServerStartEvent));
    HookedPluginsAppend(before, HookCalls(BeforeServerStart, ps));
    HookedPluginsAppend(before + HookCalls(BeforeServerStart, ps), after);
    assert HookedPlugins(before) == [] by {
      if hasDispatcher { assert before[..0] == []; }
    }
    assert HookedPlugins(after) == [] by {
      if hasDispatcher { assert after[..0] == []; }
    }
  }

  /** The hooks `HookCalls` invokes are the given plugins, in order. */
  lemma {:induction false} HookCallsHooked(phase: Phase, ps: seq<Plugin>)
    ensures HookedPlugins(HookCalls(phase, ps)) == ps
  {
    if ps != [] {
      var init := ps[..|ps| - 1];
      assert HookCalls(phase, ps) == HookCalls(phase, init) + [Hook(phase, ps[|ps| - 1])];
      HookedPluginsAppend(HookCalls(phase, init), [Hook(phase, ps[|ps| - 1])]);
      HookCallsHooked(phase, init);
      assert [Hook(phase, ps[|ps| - 1])][..0] == [];
      assert ps == init + [ps[|ps| - 1]];
    }
  }

  // ---------------------------------------------------------------------
  // beforeProcessStart: failures are isolated per plugin
  // ---------------------------------------------------------------------

  /** What the loop of `beforeProcessStart` does for one plugin. A hook that
      throws is skipped with no event; a readiness timeout closes the
      plugin's channel and reports `PlugFailEvent`; readiness in time
      reports `PlugSuccessEvent`. */
  function ProcessStep(p: Plugin, o: StartOutcome, hasDispatcher: bool): seq<Action>
  {
    [Hook(BeforeProcessStart, p)]
    + match o
      case Throws => []
      case TimedOut => [CloseReadiness(p)] + Dispatch(hasDispatcher, PluginEvent(PlugFailEvent, p))
      case ReadyInTime => Dispatch(hasDispatcher, PluginEvent(PlugSuccessEvent, p))
  }

  /** The whole loop over `ps`, in order. */
  function ProcessSteps(ps: seq<Plugin>, outcome: Plugin -> StartOutcome, hasDispatcher: bool): seq<Action>
  {
    if ps == [] then []
    else ProcessSteps(ps[..|ps| - 1], outcome, hasDispatcher) + ProcessStep(ps[|ps| - 1], outcome(ps[|ps| - 1]), hasDispatcher)
  }

  /** One more turn of the loop appends that plugin's step. */
  lemma ProcessStepsSnoc(ps: seq<Plugin>, outcome: Plugin -> StartOutcome, hasDispatcher: bool, i: nat)
    requires i < |ps|
    ensures ProcessSteps(ps[..i + 1], outcome, hasDispatcher)
      == ProcessSteps(ps[..i], outcome, hasDispatcher) + ProcessStep(ps[i], outcome(ps[i]), hasDispatcher)
  {
    assert ps[..i + 1][..i] == ps[..i];
  }

  /** The trace of `beforeProcessStart`: the "before" event, the loop, the
      "after" event. */
  function ProcessStartTrace(ps: seq<Plugin>, outcome: Plugin -> StartOutcome, hasDispatcher: bool): seq<Action>
  {
    Dispatch(hasDispatcher, ManagerEvent(PlugBeforeProcessStartEvent))
    + ProcessSteps(ps, outcome, hasDispatcher)
    + Dispatch(hasDispatcher, ManagerEvent(PlugAfterProcessStartEvent))
  }

  lemma {:induction false} ProcessStepsAppend(a: seq<Plugin>, b: seq<Plugin>, outcome: Plugin -> StartOutcome, hasDispatcher: bool)
    ensures ProcessSteps(a + b, outcome, hasDispatcher) == ProcessSteps(a, outcome, hasDispatcher) + ProcessSteps(b, outcome, hasDispatcher)
  {
    if b == [] {
      assert a + b == a;
    } else {
      assert (a + b)[..|a + b| - 1] == a + b[..|b| - 1];
      ProcessStepsAppend(a, b[..|b| - 1], outcome, hasDispatcher);
    }
  }

  /** Failures are isolated: the part of the trace for the `i`-th plugin
      depends on that plugin's outcome alone, whatever happened to the
      plugins before it, and the plugins after it are still processed. */
  lemma ProcessIsolation(ps: seq<Plugin>, outcome: Plugin -> StartOutcome, hasDispatcher: bool, i: nat)
    requires i < |ps|
    ensures ProcessSteps(ps, outcome, hasDispatcher)
      == ProcessSteps(ps[..i], outcome, hasDispatcher)
       + ProcessStep(ps[i], outcome(ps[i]), hasDispatcher)
       + ProcessSteps(ps[i + 1..], outcome, hasDispatcher)
  {
    assert ps == ps[..i] + [ps[i]] + ps[i + 1..];
    ProcessStepsAppend(ps[..i] + [ps[i]], ps[i + 1..], outcome, hasDispatcher);
    ProcessStepsAppend(ps[..i], [ps[i]], outcome, hasDispatcher);
    assert [ps[i]][..0] == [];
  }

  /** Every plugin's `beforeProcessStart` hook is called exactly once, in
      order, whatever the outcomes. */
  lemma {:induction false} ProcessCallsEveryHook(ps: seq<Plugin>, outcome: Plugin -> StartOutcome, hasDispatcher: bool)
    ensures HookedPlugins(ProcessSteps(ps, outcome, hasDispatcher)) == ps
  {
    if ps != [] {
      var init := ps[..|ps| - 1];
      var last := ps[|ps| - 1];
      ProcessCallsEveryHook(init, outcome, hasDispatcher);
      var step := ProcessStep(last, outcome(last), hasDispatcher);
      HookedPluginsAppend(ProcessSteps(init, outcome, hasDispatcher), step);
      HookedPluginsAppend([Hook(BeforeProcessStart, last)], step[1..]);
      assert step == [Hook(BeforeProcessStart, last)] + step[1..];
      assert [Hook(BeforeProcessStart, last)][..0] == [];
      NoHooksAfterCall(step[1..]);
      assert ps == init + [last];
    }
  }

  /** The tail of a step holds no hook call. */
  lemma {:induction false} NoHooksAfterCall(t: seq<Action>)
    requires forall k :: 0 <= k < |t| ==> !t[k].Hook?
    ensures HookedPlugins(t) == []
  {
    if t != [] {
      NoHooksAfterCall(t[..|t| - 1]);
    }
  }

  /** The events the loop reports, one per plugin whose hook returned: the
      plugin and whether its readiness arrived in time. */
  function Verdicts(ps: seq<Plugin>, outcome: Plugin -> StartOutcome): seq<Action>
  {
    if ps == [] then []
    else
      var p := ps[|ps| - 1];
      Verdicts(ps[..|ps| - 1], outcome)
      + match outcome(p)
        case Throws => []
        case TimedOut => [PluginEvent(PlugFailEvent, p)]
        case ReadyInTime => [PluginEvent(PlugSuccessEvent, p)]
  }

  /** The events of a trace, in order. */
  function Events(t: seq<Action>): seq<Action>
  {
    if t == [] then []
    else Events(t[..|t| - 1]) + (if t[|t| - 1].IsEvent() then [t[|t| - 1]] else [])
  }

  lemma {:induction false} EventsAppend(a: seq<Action>, b: seq<Action>)
    ensures Events(a + b) == Events(a) + Events(b)
  {
    if b == [] {
      assert a + b == a;
    } else {
      assert (a + b)[..|a + b| - 1] == a + b[..|b| - 1];
      EventsAppend(a, b[..|b| - 1]);
    }
  }

  /** With a dispatcher, `beforeProcessStart` dispatches its "before" event,
      one verdict per plugin whose hook returned, in plugin order, and its
      "after" event; without one it dispatches nothing at all. */
  lemma {:induction false} ProcessStartEvents(ps: seq<Plugin>, outcome: Plugin -> StartOutcome, hasDispatcher: bool)
    ensures Events(ProcessStartTrace(ps, outcome, hasDispatcher)) ==
      if hasDispatcher then
        [ManagerEvent(PlugBeforeProcessStartEvent)] + Verdicts(ps, outcome) + [ManagerEvent(PlugAfterProcessStartEvent)]
      else []
  {
    var before := Dispatch(hasDispatcher, ManagerEvent(PlugBeforeProcessStartEvent));
    var after := Dispatch(hasDispatcher, ManagerEvent(PlugAfterProcessStartEvent));
    EventsAppend(before, ProcessSteps(ps, outcome, hasDispatcher));
    EventsAppend(before + ProcessSteps(ps, outcome, hasDispatcher), after);
    assert Events(before) == (if hasDispatcher then [ManagerEvent(PlugBeforeProcessStartEvent)] else []) by {
      if hasDispatcher { assert before[..0] == []; }
    }
    assert Events(after) == (if hasDispatcher then [ManagerEvent(PlugAfterProcessStartEvent)] else []) by {
      if hasDispatcher { assert after[..0] == []; }
    }
    StepsEvents(ps, outcome, hasDispatcher);
  }

  lemma {:induction false} StepsEvents(ps: seq<Plugin>, outcome: Plugin -> StartOutcome, hasDispatcher: bool)
    ensures Events(ProcessSteps(ps, outcome, hasDispatcher)) == if hasDispatcher then Verdicts(ps, outcome) else []
  {
    if ps != [] {
      var init := ps[..|ps| - 1];
      var p := ps[|ps| - 1];
      StepsEvents(init, outcome, hasDispatcher);
      var step := ProcessStep(p, outcome(p), hasDispatcher);
      EventsAppend(ProcessSteps(init, outcome, hasDispatcher), step);
      var tail := step[1..];
      assert step == [Hook(BeforeProcessStart, p)] + tail;
      EventsAppend([Hook(BeforeProcessStart, p)], tail);
      assert [Hook(BeforeProcessStart, p)][..0] == [];
      match outcome(p)
      case Throws =>
      case TimedOut =>
        EventsAppend([CloseReadiness(p)], Dispatch(hasDispatcher, PluginEvent(PlugFailEvent, p)));
        assert [CloseReadiness(p)][..0] == [];
        if hasDispatcher { assert [PluginEvent(PlugFailEvent, p)][..0] == []; }
      case ReadyInTime =>
        if hasDispatcher { assert [PluginEvent(PlugSuccessEvent, p)][..0] == []; }
    }
  }

  // ---------------------------------------------------------------------
  // beforeProcessStart as written: the catch block logs without checking
  // that a logger is present
  // ---------------------------------------------------------------------

  /** The loop of `beforeProcessStart` as the source has it. The catch block
      calls `$this->log->error` unguarded; with no logger that call itself
      fails, the error escapes the method and the loop stops. The second
      component says whether the loop ran to its end. */
  function ProcessStepsAsWritten(ps: seq<Plugin>, outcome: Plugin -> StartOutcome, hasLog: bool, hasDispatcher: bool)
    : (seq<Action>, bool)
  {
    if ps == [] then ([], true)
    else
      var p := ps[|ps| - 1];
      var (t, finished) := ProcessStepsAsWritten(ps[..|ps| - 1], outcome, hasLog, hasDispatcher);
      if !finished then (t, false)
      else if outcome(p) == Throws && !hasLog then (t + [Hook(BeforeProcessStart, p)], false)
      else (t + ProcessStep(p, outcome(p), hasDispatcher), true)
  }

  /** With a logger, or when no hook throws, the code as written behaves as
      the guarded loop. */
  lemma {:induction false} AsWrittenAgreesWhenLogged(ps: seq<Plugin>, outcome: Plugin -> StartOutcome, hasLog: bool, hasDispatcher: bool)
    requires hasLog || forall k :: 0 <= k < |ps| ==> outcome(ps[k]) != Throws
    ensures ProcessStepsAsWritten(ps, outcome, hasLog, hasDispatcher) == (ProcessSteps(ps, outcome, hasDispatcher), true)
  {
    if ps != [] {
      AsWrittenAgreesWhenLogged(ps[..|ps| - 1], outcome, hasLog, hasDispatcher);
    }
  }

  /** Without a logger, one plugin whose hook throws stops the loop as
      written: the later plugin is never started and the phase does not
      finish, so neither its "after" event nor the ready signal follows. The
      guarded loop processes both plugins. */
  lemma NullLoggerAbortsPhase(a: Plugin, b: Plugin, hasDispatcher: bool)
    requires a != b
    ensures var outcome := (p: Plugin) => if p == a then Throws else ReadyInTime;
      && ProcessStepsAsWritten([a, b], outcome, false, hasDispatcher) == ([Hook(BeforeProcessStart, a)], false)
      && HookedPlugins(ProcessSteps([a, b], outcome, hasDispatcher)) == [a, b]
  {
    var outcome := (p: Plugin) => if p == a then Throws else ReadyInTime;
    assert [a, b][..1] == [a];
    assert [a][..0] == [];
    assert outcome(a) == Throws;
    assert ProcessStepsAsWritten([], outcome, false, hasDispatcher) == ([], true);
    assert [a][..|[a]| - 1] == [];
    assert [] + [Hook(BeforeProcessStart, a)] == [Hook(BeforeProcessStart, a)];
    assert ProcessStepsAsWritten([a], outcome, false, hasDispatcher) == ([Hook(BeforeProcessStart, a)], false);
    ProcessCallsEveryHook([a, b], outcome, hasDispatcher);
  }

  /** What `push("ready")` leaves in the manager's channel: an empty channel
      becomes signalled; a value still pending stays; a closed channel refuses
      the push. */
  function Push(ch: ReadyChannel): (r: ReadyChannel)
    ensures r != Empty
    ensures ch == Closed <==> r == Closed
  {
    match ch
    case Empty => Signalled
    case Signalled => Signalled
    case Closed => Closed
  }
}
