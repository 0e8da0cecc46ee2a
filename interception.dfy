/** The interception handlers as the objects they run on: an intercepted
    instance whose properties the setters update in place, the invocation of
    one call with its context dictionary, and the process-wide state the
    handlers reach (the persisted store, the seeding flags, the trace of log
    writes and notifications).  Each handler is a method proved to do what
    the function of the same name in Pipeline describes. */
module Interception {
  import opened Metadata
  import opened Threading
  import opened Pipeline

  /** The process-wide state: the isolated-storage entries, the per-id
      seeding flags, and what has been observed so far. */
  class Runtime {
    var store: map<string, Value>
    var seeding: set<string>
    var trace: seq<Event>

    constructor (store: map<string, Value>)
      ensures this.store == store && seeding == {} && trace == []
    {
      this.store := store;
      seeding := {};
      trace := [];
    }
  }

  /** An intercepted object: its runtime type, its property values and the
      handlers subscribed to its PropertyChanged event. */
  class Instance {
    const kind: TargetType
    var values: map<string, Value>
    const listeners: seq<string>

    constructor (kind: TargetType, listeners: seq<string>)
      ensures this.kind == kind && this.listeners == listeners && values == map[]
    {
      this.kind := kind;
      this.listeners := listeners;
      values := map[];
    }
  }

  /** IMethodInvocation: the call, its target, and the InvocationContext
      dictionary the handlers of this call share (its keys, in the order
      they were added). */
  class Invocation {
    const call: Call
    const target: Instance
    var context: seq<string>

    constructor (call: Call, target: Instance)
      ensures this.call == call && this.target == target && context == []
    {
      this.call := call;
      this.target := target;
      context := [];
    }
  }

  /** The scope a call is evaluated in. */
  function ScopeOf(host: Host, inv: Invocation): Scope
  {
    Scope(host, inv.target.kind, inv.target.listeners, inv.call)
  }

  /** The state the handlers read and change, as a value. */
  function Snapshot(inv: Invocation, rt: Runtime): World
    reads inv, inv.target, rt
  {
    World(inv.context, inv.target.values, rt.store, rt.seeding, rt.trace)
  }

  /** The continuation: the rest of the chain, then the target. */
  method Proceed(chain: seq<Handler>, host: Host, inv: Invocation, rt: Runtime) returns (r: Value)
    modifies inv, inv.target, rt
    ensures Outcome(r, Snapshot(inv, rt)) == Run(chain, ScopeOf(host, inv), old(Snapshot(inv, rt)))
    decreases AccessorRank(inv.call.member), |chain|, 1
  {
    if chain == [] {
      r := Execute(host, inv, rt);
    } else {
      match chain[0]
      case ThreadingHandler => r := InterceptThreading(chain[1..], host, inv, rt);
      case LoggingHandler => r := InterceptLogging(chain[1..], host, inv, rt);
      case PersistenceHandler => r := InterceptPersistence(chain[1..], host, inv, rt);
      case NotificationHandler => r := InterceptNotification(chain[1..], host, inv, rt);
    }
  }

  /** CallHandler.Invoke */
  method Invoke(host: Host, inv: Invocation, rt: Runtime) returns (r: Value)
    modifies inv, inv.target, rt
    ensures Outcome(r, Snapshot(inv, rt)) == Pipeline.Invoke(ScopeOf(host, inv), old(Snapshot(inv, rt)))
    decreases AccessorRank(inv.call.member), |CallHandlerChain| + 1, 0
  {
    r := Proceed(CallHandlerChain, host, inv, rt);
  }

  /** PropertyInfo.GetValue on the intercepted instance: a new invocation of
      the property's getter, taken through every handler. */
  method GetValue(host: Host, inv: Invocation, p: PropertyDesc, rt: Runtime) returns (v: Value)
    modifies inv.target, rt
    ensures Outcome(v, Snapshot(inv, rt)) == Pipeline.GetValue(ScopeOf(host, inv), p, old(Snapshot(inv, rt)))
    decreases 0, |CallHandlerChain| + 2, 0
  {
    var getter := new Invocation(GetterCall(p), inv.target);
    assert ScopeOf(host, getter) == GetterScope(ScopeOf(host, inv), p);
    v := Invoke(host, getter, rt);
  }

  /** The intercepted member's own body. */
  method Execute(host: Host, inv: Invocation, rt: Runtime) returns (r: Value)
    modifies inv.target, rt
    ensures Outcome(r, Snapshot(inv, rt)) == Target(ScopeOf(host, inv), old(Snapshot(inv, rt)))
  {
    r := TargetResult(inv.call, inv.target.values);
    inv.target.values := BodyEffect(inv.call.body, inv.call.inputs, inv.target.values);
    rt.trace := rt.trace + [Executed(inv.call.member.name)];
  }

  /** ThreadingInterceptionHandler.Intercept */
  method InterceptThreading(next: seq<Handler>, host: Host, inv: Invocation, rt: Runtime) returns (r: Value)
    modifies inv, inv.target, rt
    ensures Outcome(r, Snapshot(inv, rt)) == ThreadingIntercept(next, ScopeOf(host, inv), old(Snapshot(inv, rt)))
    decreases AccessorRank(inv.call.member), |next| + 1, 0
  {
    var s := ScopeOf(host, inv);
    if ThreadKey !in inv.context && WantsThreading(inv.call.member) {
      inv.context := inv.context + [ThreadKey];
      var placement := ThreadingPlacement(s);
      rt.trace := rt.trace + [Scheduled(placement)];
      assert ScopeOf(Moved(host, placement), inv) == OnThread(s, placement);
      var _ := Proceed(next, Moved(host, placement), inv, rt);
      r := Null;
    } else {
      r := Proceed(next, host, inv, rt);
    }
  }

  /** Logger.Write, made only when logging is enabled. */
  method WriteLog(host: Host, entry: LogEntry, rt: Runtime)
    modifies rt
    ensures rt.store == old(rt.store) && rt.seeding == old(rt.seeding)
    ensures rt.trace == if host.loggingEnabled then old(rt.trace) + [Wrote(entry)] else old(rt.trace)
  {
    if host.loggingEnabled {
      rt.trace := rt.trace + [Wrote(entry)];
    }
  }

  /** LoggingInterceptionHandler.Intercept; the stopwatch reading is the
      call's elapsedMs. */
  method InterceptLogging(next: seq<Handler>, host: Host, inv: Invocation, rt: Runtime) returns (r: Value)
    modifies inv, inv.target, rt
    ensures Outcome(r, Snapshot(inv, rt)) == LoggingIntercept(next, ScopeOf(host, inv), old(Snapshot(inv, rt)))
    decreases AccessorRank(inv.call.member), |next| + 1, 0
  {
    var s := ScopeOf(host, inv);
    var spec := LogSpecOf(s);
    if spec.Some? && LoggingKey !in inv.context {
      inv.context := inv.context + [LoggingKey];
      WriteLog(host, Entry(CalledMessage(inv.call), spec.value), rt);
      r := Proceed(next, host, inv, rt);
      if spec.value.timeMethodExecution {
        WriteLog(host, Entry(CompleteMessage(inv.call, r), spec.value), rt);
      }
    } else {
      r := Proceed(next, host, inv, rt);
    }
  }

  /** PropertyPersistenceInterceptionHandler.Intercept */
  method InterceptPersistence(next: seq<Handler>, host: Host, inv: Invocation, rt: Runtime) returns (r: Value)
    modifies inv, inv.target, rt
    ensures Outcome(r, Snapshot(inv, rt)) == PersistenceIntercept(next, ScopeOf(host, inv), old(Snapshot(inv, rt)))
    decreases AccessorRank(inv.call.member), |next| + 1, 0
  {
    var s := ScopeOf(host, inv);
    r := Proceed(next, host, inv, rt);
    if PersistenceKey !in inv.context && HandlesPersistence(inv.call.member) {
      inv.context := inv.context + [PersistenceKey];
      var id := PersistedId(s);
      if id.Some? && id.value !in rt.seeding {
        var v := GetValue(host, inv, PropertyOf(s).value, rt);
        rt.store := rt.store[id.value := v];
        rt.trace := rt.trace + [Stored(id.value, v)];
      }
    }
  }

  /** The base-type walk: the first level up the chain of the instance's
      type that declares the PropertyChanged backing field. */
  method FindEventField(levels: seq<set<string>>) returns (r: Option<nat>)
    ensures r == EventFieldLevel(levels)
  {
    var i := 0;
    while i < |levels| && EventField !in levels[i]
      invariant 0 <= i <= |levels|
      invariant forall j :: 0 <= j < i ==> EventField !in levels[j]
    {
      i := i + 1;
    }
    r := if i < |levels| then Some(i) else None;
  }

  /** Each subscribed handler invoked in turn with the property name. */
  method FireAll(listeners: seq<string>, property: string, placement: Placement, rt: Runtime)
    modifies rt
    ensures rt.store == old(rt.store) && rt.seeding == old(rt.seeding)
    ensures rt.trace == old(rt.trace) + FiredEvents(listeners, property, placement)
  {
    var fired := [];
    for i := 0 to |listeners|
      modifies {}
      invariant fired == FiredEvents(listeners[..i], property, placement)
    {
      FiredPrefix(listeners, i, property, placement);
      fired := fired + [Fired(listeners[i], property, placement)];
    }
    assert listeners[..|listeners|] == listeners;
    rt.trace := rt.trace + fired;
  }

  lemma FiredPrefix(listeners: seq<string>, i: nat, property: string, placement: Placement)
    requires i < |listeners|
    ensures FiredEvents(listeners[..i + 1], property, placement)
         == FiredEvents(listeners[..i], property, placement) + [Fired(listeners[i], property, placement)]
  {
    var a := FiredEvents(listeners[..i + 1], property, placement);
    var b := FiredEvents(listeners[..i], property, placement) + [Fired(listeners[i], property, placement)];
    assert |a| == |b|;
    forall k | 0 <= k < |a| ensures a[k] == b[k] {
      if k < i {
        assert b[k] == FiredEvents(listeners[..i], property, placement)[k];
      }
    }
  }

  /** NotifyPropertyInterceptionHandler.Intercept */
  method InterceptNotification(next: seq<Handler>, host: Host, inv: Invocation, rt: Runtime) returns (r: Value)
    modifies inv, inv.target, rt
    ensures Outcome(r, Snapshot(inv, rt)) == NotificationIntercept(next, ScopeOf(host, inv), old(Snapshot(inv, rt)))
    decreases AccessorRank(inv.call.member), |next| + 1, 0
  {
    var s := ScopeOf(host, inv);
    if NotificationKey !in inv.context && HandlesNotification(inv.call.member) {
      inv.context := inv.context + [NotificationKey];
      if Notifies(s) {
        var property := PropertyOf(s).value;
        var before := GetValue(host, inv, property, rt);
        r := Proceed(next, host, inv, rt);
        var after := GetValue(host, inv, property, rt);
        if before != after {
          var level := FindEventField(inv.target.kind.fieldLevels);
          if level.Some? && |inv.target.listeners| > 0 {
            FireAll(inv.target.listeners, PropertyName(inv.call.member), ListenerPlacement(host), rt);
          }
        }
      } else {
        r := Proceed(next, host, inv, rt);
      }
    } else {
      r := Proceed(next, host, inv, rt);
    }
  }
}
