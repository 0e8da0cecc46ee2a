/** CallHandler.Invoke and the four interception handlers it nests, as pure
    functions from the state of the world before a call to the call's result
    and the state after it.

    The world is what the handlers read and change: the invocation context
    the handlers of one call share, the property values of the target
    instance, the persisted store (one entry per PersistedProperty id), the
    ids whose seeding flag is raised, and the trace of observable events (log
    writes, the target running, change listeners invoked, store writes).
    A handler's continuation is the rest of the chain, run by Run. */
module Pipeline {
  import opened Metadata
  import opened Text
  import opened Threading

  datatype Handler = ThreadingHandler | LoggingHandler | PersistenceHandler | NotificationHandler

  /** The nesting CallHandler.Invoke builds, outermost first; the target is
      the innermost continuation. */
  const CallHandlerChain: seq<Handler> :=
    [ThreadingHandler, LoggingHandler, PersistenceHandler, NotificationHandler]

  /** The invocation-context keys the handlers guard themselves with. */
  const ThreadKey := "ThreadHandled"
  const LoggingKey := "LoggingHandled"
  const PersistenceKey := "PersistenceHandled"
  const NotificationKey := "NotificationHandled"

  /** The name of the backing field of the PropertyChanged event. */
  const EventField := "PropertyChanged"

  /** Whether logging is enabled, whether an Application object exists, and
      whether the current thread is its UI thread. */
  datatype Host = Host(loggingEnabled: bool, applicationExists: bool, onUiThread: bool)

  /** What a call is evaluated in: the host, the runtime type of the target
      instance, the handlers subscribed to its PropertyChanged event (empty
      when the event field is null), and the call. */
  datatype Scope = Scope(host: Host, target: TargetType, listeners: seq<string>, call: Call)

  /** Logger.Write(message, category, priority, eventId, severity) */
  datatype LogEntry = LogEntry(
    message: string, category: Option<string>, priority: int, eventId: int, severity: nat)

  datatype Event =
    | Scheduled(placement: Placement)                        // a threading strategy took the rest of the chain
    | Wrote(entry: LogEntry)                                 // a log write
    | Executed(member: string)                               // the intercepted member's own body ran
    | Fired(listener: string, property: string, placement: Placement)  // a PropertyChanged handler ran
    | Stored(id: string, value: Value)                       // the persisted store was written
    | SeedNotified(property: string)                         // IPersistedValueSetNotifier.PropertySet
    | SeedFailed(property: string)                           // an exception caught while seeding

  datatype World = World(
    context: seq<string>,
    values: map<string, Value>,
    store: map<string, Value>,
    seeding: set<string>,
    trace: seq<Event>)

  /** IMethodReturn: the return value, and the world after the call. */
  datatype Outcome = Outcome(result: Value, world: World)

  // ---------------------------------------------------------------------
  // The chain

  /** The handlers of `chain` around the target, the first one outermost. */
  function Run(chain: seq<Handler>, s: Scope, w: World): Outcome
    decreases AccessorRank(s.call.member), |chain|, 1
  {
    if chain == [] then Target(s, w)
    else
      match chain[0]
      case ThreadingHandler => ThreadingIntercept(chain[1..], s, w)
      case LoggingHandler => LoggingIntercept(chain[1..], s, w)
      case PersistenceHandler => PersistenceIntercept(chain[1..], s, w)
      case NotificationHandler => NotificationIntercept(chain[1..], s, w)
  }

  /** CallHandler.Invoke */
  function Invoke(s: Scope, w: World): Outcome
  {
    Run(CallHandlerChain, s, w)
  }

  /** The last argument of a call: the value a setter assigns. */
  function LastInput(inputs: seq<Value>): Value
  {
    if inputs == [] then Null else inputs[|inputs| - 1]
  }

  /** What the member's own body does to the target's property values. */
  function BodyEffect(body: Body, inputs: seq<Value>, values: map<string, Value>): map<string, Value>
  {
    if body.Assign? then values[body.property := LastInput(inputs)] else values
  }

  /** What the member's own body returns: nothing for a setter, the
      property's value for a getter. */
  function TargetResult(call: Call, values: map<string, Value>): Value
  {
    match call.body
    case Assign(_) => Null
    case Read(property) => ValueOf(values, property)
    case Compute(result) => result
  }

  /** The target: the member's own body. */
  function Target(s: Scope, w: World): Outcome
  {
    var call := s.call;
    Outcome(TargetResult(call, w.values),
            w.(values := BodyEffect(call.body, call.inputs, w.values),
               trace := w.trace + [Executed(call.member.name)]))
  }

  /** InvocationContext.Add(key, true) */
  function Mark(w: World, key: string): World
  {
    w.(context := w.context + [key])
  }

  /** A property setter: a special-name method whose name starts "set_". */
  predicate IsSetter(m: MethodDesc)
  {
    m.isSpecialName && StartsWith(m.name, "set_")
  }

  /** Orders calls for termination: the handlers of a setter read the
      property through its getter, and a getter's handlers read nothing. */
  function AccessorRank(m: MethodDesc): nat
  {
    if IsSetter(m) then 1 else 0
  }

  /** The property a special-name method belongs to: its name without the
      four-character accessor prefix. */
  function PropertyName(m: MethodDesc): string
  {
    if |m.name| >= 4 then m.name[4..] else ""
  }

  /** The property of the target type a special-name method belongs to. */
  function PropertyOf(s: Scope): Option<PropertyDesc>
  {
    FindProperty(s.target.properties, PropertyName(s.call.member))
  }

  // ---------------------------------------------------------------------
  // PropertyInfo.GetValue on the intercepted instance

  /** The call of a property's getter: a special-name method of the declaring
      class with no arguments that returns the property's value. The
      stopwatch around it reads 0 ms. */
  function GetterCall(p: PropertyDesc): (call: Call)
    ensures !IsSetter(call.member) && call.body == Read(p.name)
    ensures call.member.name == "get_" + p.name && call.member.annotations == []
  {
    var m := MethodDesc("get_" + p.name, true, Some(p.declaringType.name), Some(p.declaringType), MethodInfo(false), []);
    assert m.name[..4] == "get_";
    Call(m, [], Read(p.name), 0)
  }

  function GetterScope(s: Scope, p: PropertyDesc): Scope
  {
    s.(call := GetterCall(p))
  }

  /** A handler reading the property on the target instance: the target is
      the intercepting proxy, so the getter is a call of its own through
      every handler, with an invocation context of its own. */
  function GetValue(s: Scope, p: PropertyDesc, w: World): Outcome
    decreases 0, |CallHandlerChain| + 1, 0
  {
    var o := Run(CallHandlerChain, GetterScope(s, p), w.(context := []));
    Outcome(o.result, o.world.(context := w.context))
  }

  // ---------------------------------------------------------------------
  // ThreadingInterceptionHandler

  /** The member carries a ThreadingStrategy annotation and is a method
      returning void. */
  predicate WantsThreading(m: MethodDesc)
  {
    FirstThreading(m.annotations).Some? && m.kind.MethodInfo? && m.kind.returnsVoid
  }

  predicate ThreadingApplies(s: Scope, w: World)
  {
    ThreadKey !in w.context && WantsThreading(s.call.member)
  }

  /** The thread the rest of the chain runs on after a placement: a
      thread-pool thread after a deferral, the UI thread after marshalling. */
  function Moved(host: Host, placement: Placement): (h: Host)
    ensures h.loggingEnabled == host.loggingEnabled && h.applicationExists == host.applicationExists
    ensures placement == Deferred ==> !h.onUiThread
    ensures placement == Marshalled ==> h.onUiThread
    ensures placement == Inline ==> h == host
  {
    match placement
    case Inline => host
    case Deferred => host.(onUiThread := false)
    case Marshalled => host.(onUiThread := true)
  }

  function OnThread(s: Scope, placement: Placement): Scope
  {
    s.(host := Moved(s.host, placement))
  }

  /** Where the strategy of the member's ThreadingStrategy annotation puts
      the rest of the chain. */
  function ThreadingPlacement(s: Scope): Placement
    requires FirstThreading(s.call.member.annotations).Some?
  {
    var mode := FirstThreading(s.call.member.annotations).value;
    Place(StrategyFor(mode), s.host.applicationExists, s.host.onUiThread)
  }

  /** The world the strategy's action starts from. */
  function Scheduling(w: World, placement: Placement): World
  {
    var w1 := Mark(w, ThreadKey);
    w1.(trace := w1.trace + [Scheduled(placement)])
  }

  function ThreadingIntercept(next: seq<Handler>, s: Scope, w: World): Outcome
    decreases AccessorRank(s.call.member), |next| + 1, 0
  {
    if ThreadingApplies(s, w) then
      var placement := ThreadingPlacement(s);
      var inner := Run(next, OnThread(s, placement), Scheduling(w, placement));
      Outcome(Null, inner.world)
    else
      Run(next, s, w)
  }

  // ---------------------------------------------------------------------
  // LoggingInterceptionHandler

  /** The Log annotation of the member, or, for a special-name member with a
      name longer than four characters, that of the property it belongs to. */
  function LogSpecOf(s: Scope): (r: Option<LogSpec>)
    ensures FirstLog(s.call.member.annotations).Some? ==> r == FirstLog(s.call.member.annotations)
    ensures r.Some? && FirstLog(s.call.member.annotations).None? ==>
              var m := s.call.member;
              m.isSpecialName && |m.name| > 4
              && exists p :: p in s.target.properties && p.name == m.name[4..] && Log(r.value) in p.annotations
    ensures !s.call.member.isSpecialName ==> r == FirstLog(s.call.member.annotations)
    ensures var m := s.call.member;
            (FirstLog(m.annotations).None? && m.isSpecialName && |m.name| > 4
             && FindProperty(s.target.properties, m.name[4..]).Some?) ==>
              r == FirstLog(FindProperty(s.target.properties, m.name[4..]).value.annotations)
    ensures var m := s.call.member;
            (FirstLog(m.annotations).None? && m.isSpecialName && |m.name| > 4
             && FindProperty(s.target.properties, m.name[4..]).None?) ==> r.None?
  {
    var m := s.call.member;
    var own := FirstLog(m.annotations);
    if own.None? && m.isSpecialName && |m.name| > 4 then
      var property := FindProperty(s.target.properties, m.name[4..]);
      if property.Some? then FirstLog(property.value.annotations) else None
    else own
  }

  /** An unset severity is written as Verbose. */
  function SeverityOf(spec: LogSpec): (severity: nat)
    ensures severity != 0
    ensures spec.severity != 0 ==> severity == spec.severity
    ensures spec.severity == 0 ==> severity == Verbose
  {
    if spec.severity == 0 then Verbose else spec.severity
  }

  /** "{ReflectedType.Name}.{Name}", with an empty type name when there is no
      reflected type. */
  function Caller(m: MethodDesc): string
  {
    (if m.reflectedType.Some? then m.reflectedType.value else "") + "." + m.name
  }

  const CalledText := " - Called with parameters ["
  const CompleteText := " - Complete in ["
  const ReturnedText := "ms] and returned ["

  /** The message written before the call. */
  function CalledMessage(call: Call): string
  {
    Caller(call.member) + CalledText + Join(",", RenderAll(call.inputs)) + "]"
  }

  /** The return value as the second message shows it: "void" for null. */
  function ReturnText(result: Value): string
  {
    if result == Null then "void" else Render(result)
  }

  /** The message written after a timed call. */
  function CompleteMessage(call: Call, result: Value): string
  {
    Caller(call.member) + CompleteText + Grouped(call.elapsedMs) + ReturnedText + ReturnText(result) + "]"
  }

  function Entry(message: string, spec: LogSpec): LogEntry
  {
    LogEntry(message, spec.category, spec.priority, spec.eventId, SeverityOf(spec))
  }

  /** Logger.Write, made only when logging is enabled. */
  function Write(s: Scope, w: World, entry: LogEntry): World
  {
    if s.host.loggingEnabled then w.(trace := w.trace + [Wrote(entry)]) else w
  }

  function LoggingIntercept(next: seq<Handler>, s: Scope, w: World): Outcome
    decreases AccessorRank(s.call.member), |next| + 1, 0
  {
    var spec := LogSpecOf(s);
    if spec.Some? && LoggingKey !in w.context then
      var w1 := Write(s, Mark(w, LoggingKey), Entry(CalledMessage(s.call), spec.value));
      var inner := Run(next, s, w1);
      if spec.value.timeMethodExecution then
        var message := CompleteMessage(s.call, inner.result);
        Outcome(inner.result, Write(s, inner.world, Entry(message, spec.value)))
      else
        inner
    else
      Run(next, s, w)
  }

  // ---------------------------------------------------------------------
  // PropertyPersistenceInterceptionHandler

  /** A property setter with a declaring type. */
  predicate HandlesPersistence(m: MethodDesc)
  {
    m.declaringType.Some? && IsSetter(m)
  }

  predicate PersistenceApplies(s: Scope, w: World)
  {
    PersistenceKey !in w.context && HandlesPersistence(s.call.member)
  }

  /** The PersistedProperty id of the property a setter belongs to. */
  function PersistedId(s: Scope): Option<string>
  {
    var property := PropertyOf(s);
    if property.Some? then FirstPersisted(property.value.annotations) else None
  }

  /** Runs the rest of the chain first; then, for a setter, marks the context
      and, unless the id is being seeded, reads the property through its
      getter and stores the value read. */
  function PersistenceIntercept(next: seq<Handler>, s: Scope, w: World): Outcome
    decreases AccessorRank(s.call.member), |next| + 1, 0
  {
    var inner := Run(next, s, w);
    var w1 := inner.world;
    if PersistenceApplies(s, w1) then
      var w2 := Mark(w1, PersistenceKey);
      var id := PersistedId(s);
      if id.Some? && id.value !in w2.seeding then
        var read := GetValue(s, PropertyOf(s).value, w2);
        var w3 := read.world;
        Outcome(inner.result, w3.(store := w3.store[id.value := read.result], trace := w3.trace + [Stored(id.value, read.result)]))
      else
        Outcome(inner.result, w2)
    else
      inner
  }

  // ---------------------------------------------------------------------
  // NotifyPropertyInterceptionHandler

  /** A property setter declared by a type implementing
      INotifyPropertyChanged. */
  predicate HandlesNotification(m: MethodDesc)
  {
    m.declaringType.Some? && m.declaringType.value.implementsNotify && IsSetter(m)
  }

  predicate NotificationApplies(s: Scope, w: World)
  {
    NotificationKey !in w.context && HandlesNotification(s.call.member)
  }

  /** The property the setter belongs to exists and carries
      NotifyPropertyChanged. */
  predicate Notifies(s: Scope)
  {
    var property := PropertyOf(s);
    property.Some? && NotifyPropertyChanged in property.value.annotations
  }

  /** The first type up the base chain (0 is the runtime type) that has the
      PropertyChanged backing field. */
  function EventFieldLevel(levels: seq<set<string>>): (r: Option<nat>)
    ensures r.Some? ==> r.value < |levels| && EventField in levels[r.value]
    ensures r.Some? ==> forall j :: 0 <= j < r.value ==> EventField !in levels[j]
    ensures r.None? ==> forall j :: 0 <= j < |levels| ==> EventField !in levels[j]
  {
    if levels == [] then None
    else if EventField in levels[0] then Some(0)
    else
      match EventFieldLevel(levels[1..])
      case None => None
      case Some(k) => Some(k + 1)
  }

  /** Where the listeners run: on the calling thread when there is no
      Application object or the caller is on its UI thread, otherwise
      marshalled synchronously onto the dispatcher. */
  function ListenerPlacement(host: Host): (p: Placement)
    ensures p != Deferred
    ensures p == Marshalled <==> host.applicationExists && !host.onUiThread
    ensures p == Inline <==> !host.applicationExists || host.onUiThread
  {
    if !host.applicationExists || host.onUiThread then Inline else Marshalled
  }

  /** Each listener invoked once, in subscription order, with the property
      name. */
  function FiredEvents(listeners: seq<string>, property: string, placement: Placement): (es: seq<Event>)
    ensures |es| == |listeners|
    ensures forall i :: 0 <= i < |es| ==> es[i] == Fired(listeners[i], property, placement)
  {
    if listeners == [] then []
    else [Fired(listeners[0], property, placement)] + FiredEvents(listeners[1..], property, placement)
  }

  /** Whether the listeners are invoked once the value has changed. */
  predicate CanFire(s: Scope)
  {
    EventFieldLevel(s.target.fieldLevels).Some? && |s.listeners| > 0
  }

  function NotificationIntercept(next: seq<Handler>, s: Scope, w: World): Outcome
    decreases AccessorRank(s.call.member), |next| + 1, 0
  {
    if NotificationApplies(s, w) then
      var w1 := Mark(w, NotificationKey);
      if Notifies(s) then
        var p := PropertyOf(s).value;
        var before := GetValue(s, p, w1);
        var inner := Run(next, s, before.world);
        var after := GetValue(s, p, inner.world);
        if before.result != after.result && CanFire(s) then
          var fired := FiredEvents(s.listeners, PropertyName(s.call.member), ListenerPlacement(s.host));
          Outcome(inner.result, after.world.(trace := after.world.trace + fired))
        else
          Outcome(inner.result, after.world)
      else
        Run(next, s, w1)
    else
      Run(next, s, w)
  }

  // ---------------------------------------------------------------------
  // Counting events

  datatype Kind = ScheduledKind | WroteKind | ExecutedKind | FiredKind | StoredKind | SeedKind

  function KindOf(e: Event): Kind
  {
    match e
    case Scheduled(_) => ScheduledKind
    case Wrote(_) => WroteKind
    case Executed(_) => ExecutedKind
    case Fired(_, _, _) => FiredKind
    case Stored(_, _) => StoredKind
    case SeedNotified(_) => SeedKind
    case SeedFailed(_) => SeedKind
  }

  /** The number of events of one kind in a trace. */
  function Tally(es: seq<Event>, k: Kind): nat
  {
    if es == [] then 0 else (if KindOf(es[0]) == k then 1 else 0) + Tally(es[1..], k)
  }
}
