/**
 The plugin manager: a registry of plugins keyed by name and by class that
 locks itself once the plugins are ordered, and drives the registered
 plugins through the lifecycle phases.
 */
module Manager {
  import opened Plugins
  import opened Ordering
  import opened Lifecycle

  class PluginInterfaceManager {
    /** `$plugs`: name (later: position) to plugin, in array order. */
    var plugs: seq<Entry>
    /** `$plugClasses`: class name to plugin. */
    var plugClasses: map<string, Plugin>
    /** `$fixed`: set by `order`; registration is refused from then on. */
    var fixed: bool
    /** Every `addAfterPlug` call made on a plugin, in call order. */
    var afterCalls: seq<AfterCall>
    /** Every hook call and dispatched event, in order. */
    var trace: seq<Action>
    /** `$readyChannel`. */
    var readyChannel: ReadyChannel
    /** Whether the context supplied a logger and an event dispatcher. No
        method reads `hasLog`: the logging of `beforeProcessStart`'s catch
        block is taken as guarded, and the unguarded code as written is
        `Lifecycle.ProcessStepsAsWritten`, which takes it as a parameter. */
    const hasLog: bool
    const hasDispatcher: bool

    /** `$plugs` holds each key once, and `$plugClasses` files each plugin
        under its own class. */
    ghost predicate Valid()
      reads this
    {
      && KeysDistinct(plugs)
      && forall c :: c in plugClasses ==> plugClasses[c].cls == c
    }

    /** The registered plugins, in `$plugs` order. */
    function Plugs(): seq<Plugin>
      reads this`plugs
    {
      Values(plugs)
    }

    constructor (hasLog: bool, hasDispatcher: bool)
      ensures Valid()
      ensures plugs == [] && plugClasses == map[] && !fixed
      ensures afterCalls == [] && trace == [] && readyChannel == Empty
      ensures this.hasLog == hasLog && this.hasDispatcher == hasDispatcher
    {
      plugs := [];
      plugClasses := map[];
      fixed := false;
      afterCalls := [];
      trace := [];
      readyChannel := Empty;
      this.hasLog := hasLog;
      this.hasDispatcher := hasDispatcher;
    }

    /** `addPlug`: refused once the manager is fixed (`added` is false where
        the source throws); otherwise the plugin is stored under its name and
        under its class, overwriting an earlier plugin in its slot, and its
        `onAdded` hook is called. */
    method AddPlug(p: Plugin) returns (added: bool)
      requires Valid()
      modifies this
      ensures Valid()
      ensures added == !old(fixed)
      ensures !added ==> unchanged(this)
      ensures added ==> plugs == Put(old(plugs), NameKey(p.name), p)
      ensures added ==> Lookup(plugs, NameKey(p.name)) == Some(p)
      ensures added ==> forall k :: k != NameKey(p.name) ==> Lookup(plugs, k) == Lookup(old(plugs), k)
      ensures added ==> Keys(plugs) == if NameKey(p.name) in Keys(old(plugs)) then Keys(old(plugs)) else Keys(old(plugs)) + [NameKey(p.name)]
      ensures added ==> plugClasses == old(plugClasses)[p.cls := p]
      ensures added ==> trace == old(trace) + [OnAdded(p)]
      ensures fixed == old(fixed) && afterCalls == old(afterCalls) && readyChannel == old(readyChannel)
    {
      if fixed {
        return false;
      }
      PutKeepsSlots(plugs, NameKey(p.name), p);
      PutLastWriteWins(plugs, NameKey(p.name), p);
      forall k | k != NameKey(p.name)
        ensures Lookup(Put(plugs, NameKey(p.name), p), k) == Lookup(plugs, k)
      {
        PutKeepsOtherKeys(plugs, NameKey(p.name), p, k);
      }
      plugs := Put(plugs, NameKey(p.name), p);
      plugClasses := plugClasses[p.cls := p];
      trace := trace + [OnAdded(p)];
      added := true;
    }

    /** `getPlug`: the plugin registered under `className`, if any. */
    function GetPlug(className: string): (r: Option<Plugin>)
      reads this
      ensures r.Some? <==> className in plugClasses
      ensures r.Some? ==> r.value == plugClasses[className]
      ensures Valid() && r.Some? ==> r.value.cls == className
    {
      if className in plugClasses then Some(plugClasses[className]) else None
    }

    /** The registered plugins named by `classes`, in order. */
    method ResolveClasses(classes: seq<string>) returns (result: seq<Plugin>)
      ensures result == Registered(classes, plugClasses)
    {
      result := [];
      var i := 0;
      while i < |classes|
        invariant 0 <= i <= |classes|
        invariant result == Registered(classes[..i], plugClasses)
      {
        assert classes[..i + 1][..i] == classes[..i];
        if classes[i] in plugClasses {
          result := result + [plugClasses[classes[i]]];
        }
        i := i + 1;
      }
      assert classes[..|classes|] == classes;
    }

    /** `getPlugBeforeClass`: the registered plugins `p` must run before. */
    method PlugBeforeClass(p: Plugin) returns (result: seq<Plugin>)
      ensures forall q :: q in result <==> NamedIn(q, p.beforeClasses, plugClasses)
      ensures result == Registered(p.beforeClasses, plugClasses)
    {
      result := ResolveClasses(p.beforeClasses);
      forall q { RegisteredMembership(q, p.beforeClasses, plugClasses); }
    }

    /** `getPlugAfterClass`: the registered plugins `p` must run after. */
    method PlugAfterClass(p: Plugin) returns (result: seq<Plugin>)
      ensures forall q :: q in result <==> NamedIn(q, p.afterClasses, plugClasses)
      ensures result == Registered(p.afterClasses, plugClasses)
    {
      result := ResolveClasses(p.afterClasses);
      forall q { RegisteredMembership(q, p.afterClasses, plugClasses); }
    }

    /** One turn of the edge-building loop of `order`: each registered
        plugin `p` must run before is told to run after `p`, then `p` is told
        to run after each registered plugin it names. */
    method AddPlugEdges(p: Plugin)
      modifies this`afterCalls
      ensures afterCalls == old(afterCalls) + PlugEdges(p, plugClasses)
    {
      var befores := PlugBeforeClass(p);
      var j := 0;
      while j < |befores|
        invariant 0 <= j <= |befores|
        invariant afterCalls == old(afterCalls) + BeforeEdges(p, befores[..j])
      {
        assert BeforeEdges(p, befores[..j + 1]) == BeforeEdges(p, befores[..j]) + [AfterCall(befores[j], p)];
        afterCalls := afterCalls + [AfterCall(befores[j], p)];
        j := j + 1;
      }
      assert befores[..|befores|] == befores;
      ghost var mid := afterCalls;
      var afters := PlugAfterClass(p);
      j := 0;
      while j < |afters|
        invariant 0 <= j <= |afters|
        invariant afterCalls == mid + AfterEdges(p, afters[..j])
      {
        assert AfterEdges(p, afters[..j + 1]) == AfterEdges(p, afters[..j]) + [AfterCall(p, afters[j])];
        afterCalls := afterCalls + [AfterCall(p, afters[j])];
        j := j + 1;
      }
      assert afters[..|afters|] == afters;
    }

    /** The edge-building loop of `order`, over the plugins in `$plugs`
        order. */
    method AddEdges()
      modifies this`afterCalls
      ensures afterCalls == old(afterCalls) + EdgeCalls(Plugs(), plugClasses)
    {
      var ps := Plugs();
      var i := 0;
      while i < |ps|
        invariant 0 <= i <= |ps|
        invariant afterCalls == old(afterCalls) + EdgeCalls(ps[..i], plugClasses)
      {
        assert ps[..i + 1][..i] == ps[..i];
        assert EdgeCalls(ps[..i + 1], plugClasses) == EdgeCalls(ps[..i], plugClasses) + PlugEdges(ps[i], plugClasses);
        AddPlugEdges(ps[i]);
        i := i + 1;
      }
      assert ps[..|ps|] == ps;
    }

    /** `order`: records the precedence edges, sorts `$plugs` (re-indexed
        0, 1, ...) by each plugin's order index once all edges are in, and
        fixes the manager. `orderIndex(p, calls)` is `p->getOrderIndex(p, 0)`
        once the `addAfterPlug` calls logged in `calls` (those of every
        plugin, made so far) have been made. */
    method Order(orderIndex: (Plugin, seq<AfterCall>) -> int)
      requires Valid()
      modifies this
      ensures Valid()
      ensures fixed
      ensures afterCalls == old(afterCalls) + EdgeCalls(old(Plugs()), plugClasses)
      ensures multiset(Plugs()) == multiset(old(Plugs()))
      ensures SortedByIndex(Plugs(), orderIndex, afterCalls)
      ensures forall i :: 0 <= i < |plugs| ==> plugs[i].key == IndexKey(i)
      ensures plugClasses == old(plugClasses) && trace == old(trace) && readyChannel == old(readyChannel)
    {
      AddEdges();
      var sorted := SortByIndex(Plugs(), orderIndex, afterCalls);
      plugs := Reindexed(sorted);
      fixed := true;
    }

    /** The loop shared by `init` and `beforeServerStart`: each plugin's
        hook of `phase` in the order of `ps`; an exception from a hook is not
        caught (`completed` is false) and ends the loop. */
    method CallHooks(phase: Phase, ps: seq<Plugin>, throws: Plugin -> bool) returns (completed: bool)
      modifies this`trace
      ensures completed <==> forall p :: p in ps ==> !throws(p)
      ensures completed <==> FirstThrow(ps, throws) == |ps|
      ensures trace == old(trace) + HookCalls(phase, Reached(ps, throws))
    {
      var i := 0;
      while i < |ps|
        invariant 0 <= i <= |ps|
        invariant forall k :: 0 <= k < i ==> !throws(ps[k])
        invariant trace == old(trace) + HookCalls(phase, ps[..i])
      {
        assert HookCalls(phase, ps[..i + 1]) == HookCalls(phase, ps[..i]) + [Hook(phase, ps[i])];
        trace := trace + [Hook(phase, ps[i])];
        if throws(ps[i]) {
          assert FirstThrow(ps, throws) == i;
          return false;
        }
        i := i + 1;
      }
      assert ps[..|ps|] == ps;
      assert forall p :: p in ps ==> !throws(p);
      completed := true;
    }

    /** `init`: each plugin's `init` hook in `$plugs` order; an exception
        from a hook is not caught (`completed` is false) and ends the loop. */
    method Init(throws: Plugin -> bool) returns (completed: bool)
      modifies this`trace
      ensures completed <==> forall p :: p in Plugs() ==> !throws(p)
      ensures trace == old(trace) + HookCalls(Lifecycle.Init, Reached(Plugs(), throws))
    {
      completed := CallHooks(Lifecycle.Init, Plugs(), throws);
    }

    /** `dispatchEvent`, guarded by `$this->eventDispatcher != null`. */
    method DispatchEvent(a: Action)
      modifies this`trace
      ensures trace == old(trace) + Dispatch(hasDispatcher, a)
    {
      if hasDispatcher {
        trace := trace + [a];
      }
    }

    /** `beforeServerStart`: the "before" event, each plugin's hook in
        `$plugs` order, the "after" event; an exception from a hook is not
        caught and ends the method before the "after" event. */
    method BeforeServerStart(throws: Plugin -> bool) returns (completed: bool)
      modifies this`trace
      ensures completed <==> forall p :: p in Plugs() ==> !throws(p)
      ensures trace == old(trace) + ServerStartTrace(Plugs(), throws, hasDispatcher)
    {
      ghost var before := Dispatch(hasDispatcher, ManagerEvent(PlugBeforeServerStartEvent));
      DispatchEvent(ManagerEvent(PlugBeforeServerStartEvent));
      completed := CallHooks(Lifecycle.BeforeServerStart, Plugs(), throws);
      ghost var hooked := trace;
      ghost var after := if completed then Dispatch(hasDispatcher, ManagerEvent(PlugAfterServerStartEvent)) else [];
      if completed {
        DispatchEvent(ManagerEvent(PlugAfterServerStartEvent));
      }
      AppendAssoc(old(trace), before, HookCalls(Lifecycle.BeforeServerStart, Reached(Plugs(), throws)), after);
    }

    /** One turn of the loop of `beforeProcessStart`: the plugin's hook; if
        it threw, nothing more; otherwise the wait for its readiness, and on
        a timeout the closing of its channel and `PlugFailEvent`, on time
        `PlugSuccessEvent`. */
    method StartPlugin(p: Plugin, o: StartOutcome)
      modifies this`trace
      ensures trace == old(trace) + ProcessStep(p, o, hasDispatcher)
    {
      trace := trace + [Hook(Lifecycle.BeforeProcessStart, p)];
      match o {
        case Throws =>
        case TimedOut =>
          trace := trace + [CloseReadiness(p)];
          DispatchEvent(PluginEvent(PlugFailEvent, p));
        case ReadyInTime =>
          DispatchEvent(PluginEvent(PlugSuccessEvent, p));
      }
    }

    /** The loop of `beforeProcessStart`: every plugin of `ps` has its turn,
        in order, whatever happened to the plugins before it. */
    method StartPlugins(ps: seq<Plugin>, outcome: Plugin -> StartOutcome)
      modifies this`trace
      ensures trace == old(trace) + ProcessSteps(ps, outcome, hasDispatcher)
    {
      var i := 0;
      while i < |ps|
        invariant 0 <= i <= |ps|
        invariant trace == old(trace) + ProcessSteps(ps[..i], outcome, hasDispatcher)
      {
        ProcessStepsSnoc(ps, outcome, hasDispatcher, i);
        StartPlugin(ps[i], outcome(ps[i]));
        i := i + 1;
      }
      assert ps[..|ps|] == ps;
    }

    /** `beforeProcessStart`: the "before" event, the loop over `$plugs`,
        the "after" event and the push of the manager's ready signal. The
        catch block's logging is taken as guarded by a logger being present,
        as at the timeout branch. */
    method BeforeProcessStart(outcome: Plugin -> StartOutcome)
      modifies this`trace, this`readyChannel
      ensures trace == old(trace) + ProcessStartTrace(Plugs(), outcome, hasDispatcher)
      ensures readyChannel == Push(old(readyChannel))
    {
      DispatchEvent(ManagerEvent(PlugBeforeProcessStartEvent));
      StartPlugins(Plugs(), outcome);
      DispatchEvent(ManagerEvent(PlugAfterProcessStartEvent));
      AppendAssoc(old(trace), Dispatch(hasDispatcher, ManagerEvent(PlugBeforeProcessStartEvent)),
                  ProcessSteps(Plugs(), outcome, hasDispatcher), Dispatch(hasDispatcher, ManagerEvent(PlugAfterProcessStartEvent)));
      readyChannel := Push(readyChannel);
    }

    /** `waitReady`: returns once the ready signal is there (`returned` is
        false while it is not: the call is still blocked), closes the
        channel and dispatches `PlugAllReadyEvent`. A closed channel no
        longer blocks, so a later call returns at once and dispatches again. */
    method WaitReady() returns (returned: bool)
      modifies this`trace, this`readyChannel
      ensures returned <==> old(readyChannel) != Empty
      ensures !returned ==> trace == old(trace) && readyChannel == old(readyChannel)
      ensures returned ==> readyChannel == Closed
      ensures returned ==> trace == old(trace) + Dispatch(hasDispatcher, ManagerEvent(PlugAllReadyEvent))
    {
      if readyChannel == Empty {
        return false;
      }
      readyChannel := Closed;
      DispatchEvent(ManagerEvent(PlugAllReadyEvent));
      returned := true;
    }
  }

  /** Once `order` has run, no plugin can be added, and lookups still answer
      from the registrations made before it. */
  method LockedAfterOrder(m: PluginInterfaceManager, p: Plugin, orderIndex: (Plugin, seq<AfterCall>) -> int)
    returns (added: bool)
    requires m.Valid()
    modifies m
    ensures m.fixed && !added
    ensures m.GetPlug(p.cls) == old(m.GetPlug(p.cls))
    ensures multiset(m.Plugs()) == multiset(old(m.Plugs())) && m.trace == old(m.trace)
  {
    m.Order(orderIndex);
    added := m.AddPlug(p);
  }
}
