/** Static metadata the interception layer reads: the behaviour annotations
    attached to members, and explicit descriptors standing in for the runtime
    type information (methods, properties, target types) that the library
    obtains by reflection. */
module Metadata {

  datatype Option<+T> = None | Some(value: T)

  /** A property value, argument or return value as the interception layer
      sees it: a null reference, a boxed integer or a string. */
  datatype Value = Null | Int(i: int) | Str(s: string)

  /** ThreadingStrategyMode */
  datatype ThreadingMode = CallingThread | Dispatcher | Background | NewBackground

  /** LifetimeManagerType */
  datatype LifetimeKind = PerResolve | ContainerControlled

  /** The numeric value of TraceEventType.Verbose. */
  const Verbose: nat := 16

  /** LogAttribute; `category` is None while unset (a null string) and
      `severity` is the TraceEventType value, 0 while unset. */
  datatype LogSpec = LogSpec(
    category: Option<string>,
    priority: int,
    eventId: int,
    timeMethodExecution: bool,
    severity: nat)

  /** The LogAttribute constructor: timing is on, everything else unset. */
  function DefaultLog(): (spec: LogSpec)
    ensures spec.timeMethodExecution && spec.severity == 0 && spec.category.None?
  {
    LogSpec(None, 0, 0, true, 0)
  }

  /** The four attributes derived from InterceptMethodAttribute. */
  datatype Annotation =
    | Log(spec: LogSpec)
    | ThreadingStrategy(mode: ThreadingMode)
    | NotifyPropertyChanged
    | PersistedProperty(id: string)

  /** GetCustomAttribute<LogAttribute>() (the attribute is single-use). */
  function FirstLog(anns: seq<Annotation>): (r: Option<LogSpec>)
    ensures r.Some? ==> Log(r.value) in anns
    ensures r.None? ==> forall a :: a in anns ==> !a.Log?
  {
    if anns == [] then None
    else if anns[0].Log? then Some(anns[0].spec)
    else FirstLog(anns[1..])
  }

  /** GetCustomAttribute<ThreadingStrategyAttribute>() */
  function FirstThreading(anns: seq<Annotation>): (r: Option<ThreadingMode>)
    ensures r.Some? ==> ThreadingStrategy(r.value) in anns
    ensures r.None? ==> forall a :: a in anns ==> !a.ThreadingStrategy?
  {
    if anns == [] then None
    else if anns[0].ThreadingStrategy? then Some(anns[0].mode)
    else FirstThreading(anns[1..])
  }

  /** GetCustomAttribute<PersistedPropertyAttribute>().Id */
  function FirstPersisted(anns: seq<Annotation>): (r: Option<string>)
    ensures r.Some? ==> PersistedProperty(r.value) in anns
    ensures r.None? ==> forall a :: a in anns ==> !a.PersistedProperty?
  {
    if anns == [] then None
    else if anns[0].PersistedProperty? then Some(anns[0].id)
    else FirstPersisted(anns[1..])
  }

  /** The type that declares an intercepted method, as far as the handlers
      look at it: its short name and whether it implements
      INotifyPropertyChanged. */
  datatype DeclaringType = DeclaringType(name: string, implementsNotify: bool)

  /** MethodInfo (with its return type) or a constructor. */
  datatype MethodKind = MethodInfo(returnsVoid: bool) | ConstructorInfo

  /** IMethodInvocation.MethodBase */
  datatype MethodDesc = MethodDesc(
    name: string,
    isSpecialName: bool,
    reflectedType: Option<string>,
    declaringType: Option<DeclaringType>,
    kind: MethodKind,
    annotations: seq<Annotation>)

  /** What the intercepted member's own body does once the chain reaches it:
      store its last argument into a property (an auto-property setter),
      read a property (a getter), or compute a result without touching the
      instance. */
  datatype Body = Assign(property: string) | Read(property: string) | Compute(result: Value)

  /** One intercepted call: the member, its arguments, what its body does,
      and the wall-clock milliseconds a stopwatch around it would measure. */
  datatype Call = Call(member: MethodDesc, inputs: seq<Value>, body: Body, elapsedMs: nat)

  /** A public property of the target type (Type.GetProperty /
      Type.GetProperties). */
  datatype PropertyDesc = PropertyDesc(
    name: string,
    annotations: seq<Annotation>,
    hasSetter: bool,
    declaringType: DeclaringType)

  /** The runtime type of an intercepted instance: its short name, its
      public properties, the names of the non-public instance fields of each
      type on its base chain (most derived first), its
      LifetimeManagerAttribute, the defaults it provides when it implements
      IPersistedValueDefaultValueProvider (a property name missing from the
      map stands for GetDefaultValue throwing), and whether it implements
      IPersistedValueSetNotifier. */
  datatype TargetType = TargetType(
    name: string,
    properties: seq<PropertyDesc>,
    fieldLevels: seq<set<string>>,
    lifetime: Option<LifetimeKind>,
    defaults: Option<map<string, Value>>,
    isSetNotifier: bool)

  /** Reflection never reports two public properties of one type under the
      same name (GetProperty would otherwise throw). */
  ghost predicate UniqueNames(props: seq<PropertyDesc>)
  {
    forall i, j :: 0 <= i < j < |props| ==> props[i].name != props[j].name
  }

  /** Type.GetProperty(name): the property of that name, or null. */
  function FindProperty(props: seq<PropertyDesc>, name: string): (r: Option<PropertyDesc>)
    ensures r.Some? ==> r.value in props && r.value.name == name
    ensures r.None? ==> forall p :: p in props ==> p.name != name
  {
    if props == [] then None
    else if props[0].name == name then Some(props[0])
    else FindProperty(props[1..], name)
  }

  lemma {:induction false} FindUnique(props: seq<PropertyDesc>, p: PropertyDesc)
    requires UniqueNames(props) && p in props
    ensures FindProperty(props, p.name) == Some(p)
  {
    if props[0] != p {
      assert UniqueNames(props[1..]) by {
        forall i, j | 0 <= i < j < |props[1..]| ensures props[1..][i].name != props[1..][j].name {
          assert props[1..][i] == props[i + 1] && props[1..][j] == props[j + 1];
        }
      }
      assert p in props[1..];
      FindUnique(props[1..], p);
      var k :| 0 <= k < |props| && props[k] == p;
      assert props[0].name != p.name;
    }
  }

  /** A property's value as PropertyInfo.GetValue reads it; an unset
      property reads as null. */
  function ValueOf(values: map<string, Value>, name: string): Value
  {
    if name in values then values[name] else Null
  }
}
