/** The seeding loop of ConfigurableLifetimeManager.SetValue as a function of
    the state it starts from: for every property of the new instance that
    carries PersistedProperty, raise the seeding flag of its id, load the
    stored value (or the default provider's) through the property's setter,
    tell an IPersistedValueSetNotifier, and clear the flag again. */
module Seeding {
  import opened Metadata
  import opened Text
  import opened Pipeline
  import opened PipelineFacts

  /** What the loop works in: the host, the instance's runtime type, the
      handlers subscribed to its PropertyChanged event, and the stopwatch
      reading of each setter call. */
  datatype Env = Env(host: Host, target: TargetType, listeners: seq<string>, elapsedMs: nat)

  /** The state that outlives one call: the instance's property values, the
      persisted store, the seeding flags and the trace. */
  datatype Shared = Shared(
    values: map<string, Value>,
    store: map<string, Value>,
    seeding: set<string>,
    trace: seq<Event>)

  /** The world of a new call: a fresh invocation context. */
  function Enter(sh: Shared): World
  {
    World([], sh.values, sh.store, sh.seeding, sh.trace)
  }

  function Leave(w: World): Shared
  {
    Shared(w.values, w.store, w.seeding, w.trace)
  }

  /** The setter call PropertyInfo.SetValue makes on an intercepted
      instance. */
  function SetterCall(env: Env, p: PropertyDesc, v: Value): (call: Call)
    ensures IsSetter(call.member) && PropertyName(call.member) == p.name
    ensures HandlesPersistence(call.member)
    ensures call.member.reflectedType == Some(p.declaringType.name)
  {
    var name := "set_" + p.name;
    assert name[..4] == "set_" && name[4..] == p.name;
    Call(MethodDesc(name, true, Some(p.declaringType.name), Some(p.declaringType), MethodInfo(true), []),
         [v], Assign(p.name), env.elapsedMs)
  }

  /** The scope of that setter call. */
  function SetterScope(env: Env, p: PropertyDesc, v: Value): Scope
  {
    Scope(env.host, env.target, env.listeners, SetterCall(env, p, v))
  }

  /** Setting a property of the instance through the interception chain. */
  function SetThrough(env: Env, p: PropertyDesc, v: Value, sh: Shared): Shared
  {
    Leave(Invoke(SetterScope(env, p, v), Enter(sh)).world)
  }

  /** What seeding does for one property: load a value, leave the property
      alone, or fail (and log the exception). */
  datatype Load = Loads(value: Value) | Skips | Fails

  /** The value in the store when the id has an entry; otherwise the default
      provider's value when the instance is one; otherwise nothing.  Setting
      a property without a setter, or a default the provider does not have,
      throws. */
  function LoadFor(target: TargetType, store: map<string, Value>, p: PropertyDesc, id: string): (l: Load)
    ensures l.Loads? ==> p.hasSetter
    ensures id in store ==> (l.Loads? <==> p.hasSetter) && (l.Loads? ==> l.value == store[id])
    ensures id !in store && target.defaults.None? ==> l == Skips
    ensures id !in store && target.defaults.Some? ==>
              !l.Skips?
              && (l.Loads? <==> p.name in target.defaults.value && p.hasSetter)
              && (l.Loads? ==> l.value == target.defaults.value[p.name])
  {
    if id in store then
      if p.hasSetter then Loads(store[id]) else Fails
    else if target.defaults.Some? then
      if p.name in target.defaults.value && p.hasSetter then Loads(target.defaults.value[p.name]) else Fails
    else Skips
  }

  /** The PersistedProperty id of a property that carries one. */
  function IdOf(p: PropertyDesc): string
    requires FirstPersisted(p.annotations).Some?
  {
    FirstPersisted(p.annotations).value
  }

  /** One iteration of the loop. */
  function SeedStep(env: Env, p: PropertyDesc, sh: Shared): Shared
    requires FirstPersisted(p.annotations).Some?
  {
    var id := IdOf(p);
    var flagged := sh.(seeding := sh.seeding + {id});
    var after :=
      match LoadFor(env.target, sh.store, p, id)
      case Loads(v) =>
        var loaded := SetThrough(env, p, v, flagged);
        if env.target.isSetNotifier then loaded.(trace := loaded.trace + [SeedNotified(p.name)]) else loaded
      case Skips => flagged
      case Fails => flagged.(trace := flagged.trace + [SeedFailed(p.name)]);
    after.(seeding := after.seeding - {id})
  }

  predicate AllPersisted(ps: seq<PropertyDesc>)
  {
    forall p :: p in ps ==> FirstPersisted(p.annotations).Some?
  }

  /** The loop over the given properties, in order. */
  function SeedAll(env: Env, ps: seq<PropertyDesc>, sh: Shared): Shared
    requires AllPersisted(ps)
    decreases |ps|
  {
    if ps == [] then sh
    else SeedStep(env, ps[|ps| - 1], SeedAll(env, ps[..|ps| - 1], sh))
  }

  /** GetProperties().Where(has PersistedProperty) */
  function Persisted(props: seq<PropertyDesc>): (ps: seq<PropertyDesc>)
    ensures AllPersisted(ps)
    ensures forall p :: p in ps <==> p in props && FirstPersisted(p.annotations).Some?
  {
    if props == [] then []
    else if FirstPersisted(props[0].annotations).Some? then [props[0]] + Persisted(props[1..])
    else Persisted(props[1..])
  }

  /** The ids of the given properties. */
  function Ids(ps: seq<PropertyDesc>): (ids: set<string>)
    requires AllPersisted(ps)
    ensures forall p :: p in ps ==> IdOf(p) in ids
    ensures forall id :: id in ids ==> exists p :: p in ps && IdOf(p) == id
  {
    set p | p in ps :: IdOf(p)
  }

  // ---------------------------------------------------------------------
  // One setter call

  /** A setter call on a property whose id is flagged: the value is
      assigned, the store and the flags are left alone, and the trace
      receives exactly the call's own events. */
  lemma SeedingSet(env: Env, p: PropertyDesc, v: Value, sh: Shared)
    requires UniqueNames(env.target.properties) && p in env.target.properties
    requires FirstPersisted(p.annotations).Some? && IdOf(p) in sh.seeding
    ensures var sh' := SetThrough(env, p, v, sh);
      sh'.store == sh.store && sh'.seeding == sh.seeding && sh'.values == sh.values[p.name := v]
      && sh'.trace == sh.trace + CallEvents(SetterScope(env, p, v), Enter(sh))
  {
    var s, w := SetterScope(env, p, v), Enter(sh);
    FindUnique(env.target.properties, p);
    assert PersistedId(s) == Some(IdOf(p));
    RunStores(CallHandlerChain, s, w);
    RunFrame(CallHandlerChain, s, w);
    InvokeEvents(s, w);
  }

  /** The same call outside seeding: the store takes the new value under
      the property's id. */
  lemma OrdinarySet(env: Env, p: PropertyDesc, v: Value, sh: Shared)
    requires UniqueNames(env.target.properties) && p in env.target.properties
    requires FirstPersisted(p.annotations).Some? && IdOf(p) !in sh.seeding
    ensures var sh' := SetThrough(env, p, v, sh);
      sh'.store == sh.store[IdOf(p) := v] && sh'.values == sh.values[p.name := v]
  {
    var s, w := SetterScope(env, p, v), Enter(sh);
    FindUnique(env.target.properties, p);
    assert PersistedId(s) == Some(IdOf(p));
    RunStores(CallHandlerChain, s, w);
    RunFrame(CallHandlerChain, s, w);
  }

  /** No intercepted call reports to the seeding notifier or the seeding
      error log. */
  lemma CallEventsNotSeeding(s: Scope, w: World)
    ensures forall e :: e in CallEvents(s, w) ==> !e.SeedNotified? && !e.SeedFailed?
  {
    var a, b := SchedulePart(s, w), CalledPart(s, w);
    var c, d := BodyEvents(InnerScope(s, w), w), CompletePart(s, w);
    forall x: Event | x in a + b + c + d ensures !x.SeedNotified? && !x.SeedFailed? {
      assert x in a || x in b || x in c || x in d;
    }
  }

  // ---------------------------------------------------------------------
  // The loop

  predicate Within(ps: seq<PropertyDesc>, props: seq<PropertyDesc>)
  {
    forall p :: p in ps ==> p in props
  }

  lemma UniquePrefix(ps: seq<PropertyDesc>, n: nat)
    requires UniqueNames(ps) && n <= |ps|
    ensures UniqueNames(ps[..n])
  {
    forall i, j | 0 <= i < j < n ensures ps[..n][i].name != ps[..n][j].name {
      assert ps[..n][i] == ps[i] && ps[..n][j] == ps[j];
    }
  }

  /** One iteration: the property takes the loaded value, if any, and the
      store is left alone. */
  lemma StepValues(env: Env, p: PropertyDesc, sh: Shared)
    requires UniqueNames(env.target.properties) && p in env.target.properties
    requires FirstPersisted(p.annotations).Some?
    ensures var l, after := LoadFor(env.target, sh.store, p, IdOf(p)), SeedStep(env, p, sh);
      after.store == sh.store
      && after.values == if l.Loads? then sh.values[p.name := l.value] else sh.values
  {
    var flagged := sh.(seeding := sh.seeding + {IdOf(p)});
    match LoadFor(env.target, sh.store, p, IdOf(p))
    case Loads(v) => SeedingSet(env, p, v, flagged);
    case Skips =>
    case Fails =>
  }

  /** The setter call itself never reports to the notifier. */
  lemma SetterSilent(env: Env, p: PropertyDesc, v: Value, sh: Shared)
    requires UniqueNames(env.target.properties) && p in env.target.properties
    requires FirstPersisted(p.annotations).Some? && IdOf(p) in sh.seeding
    ensures var t := SetThrough(env, p, v, sh).trace;
      sh.trace <= t && forall n :: SeedNotified(n) in t <==> SeedNotified(n) in sh.trace
  {
    SeedingSet(env, p, v, sh);
    var calls := CallEvents(SetterScope(env, p, v), Enter(sh));
    CallEventsNotSeeding(SetterScope(env, p, v), Enter(sh));
    assert forall n :: SeedNotified(n) !in calls;
  }

  /** One iteration: the notifier hears of the property exactly when a
      value was loaded for it, and earlier events stay. */
  lemma StepNotified(env: Env, p: PropertyDesc, sh: Shared)
    requires UniqueNames(env.target.properties) && p in env.target.properties
    requires FirstPersisted(p.annotations).Some?
    ensures var after := SeedStep(env, p, sh).trace;
      sh.trace <= after
      && forall n :: SeedNotified(n) in after <==>
        SeedNotified(n) in sh.trace
        || (env.target.isSetNotifier && n == p.name && LoadFor(env.target, sh.store, p, IdOf(p)).Loads?)
  {
    var flagged := sh.(seeding := sh.seeding + {IdOf(p)});
    match LoadFor(env.target, sh.store, p, IdOf(p))
    case Loads(v) => SetterSilent(env, p, v, flagged);
    case Skips =>
    case Fails =>
  }

  /** Seeding never writes the store: every setter it makes runs while the
      property's id is flagged. */
  lemma {:induction false} SeedAllStore(env: Env, ps: seq<PropertyDesc>, sh: Shared)
    requires AllPersisted(ps) && UniqueNames(env.target.properties) && Within(ps, env.target.properties)
    ensures SeedAll(env, ps, sh).store == sh.store
    decreases |ps|
  {
    if ps != [] {
      var init, last := ps[..|ps| - 1], ps[|ps| - 1];
      assert last in ps;
      SeedAllStore(env, init, sh);
      StepValues(env, last, SeedAll(env, init, sh));
    }
  }

  /** Every flag is cleared once its property is done, whatever happened
      while loading it. */
  lemma {:induction false} SeedAllSeeding(env: Env, ps: seq<PropertyDesc>, sh: Shared)
    requires AllPersisted(ps)
    ensures SeedAll(env, ps, sh).seeding == sh.seeding - Ids(ps)
    decreases |ps|
  {
    if ps != [] {
      var init, last := ps[..|ps| - 1], ps[|ps| - 1];
      assert ps == init + [last];
      assert Ids(ps) == Ids(init) + {IdOf(last)};
      SeedAllSeeding(env, init, sh);
      StepSeeding(env, last, SeedAll(env, init, sh));
    }
  }

  /** One iteration: the property's flag is down afterwards, and no other
      flag has moved. */
  lemma StepSeeding(env: Env, p: PropertyDesc, sh: Shared)
    requires FirstPersisted(p.annotations).Some?
    ensures SeedStep(env, p, sh).seeding == sh.seeding - {IdOf(p)}
  {
    var flagged := sh.(seeding := sh.seeding + {IdOf(p)});
    match LoadFor(env.target, sh.store, p, IdOf(p))
    case Loads(v) => RunFrame(CallHandlerChain, SetterScope(env, p, v), Enter(flagged));
    case Skips =>
    case Fails =>
  }

  /** Every persisted property ends with the value loaded for it (from the
      store, or from the default provider), and a property nothing was
      loaded for keeps the value it had; so does every other property. */
  lemma {:induction false} SeedAllValues(env: Env, ps: seq<PropertyDesc>, sh: Shared)
    requires AllPersisted(ps) && UniqueNames(env.target.properties) && Within(ps, env.target.properties)
    requires UniqueNames(ps)
    ensures var after := SeedAll(env, ps, sh).values;
      (forall p :: p in ps ==>
        var l := LoadFor(env.target, sh.store, p, IdOf(p));
        ValueOf(after, p.name) == if l.Loads? then l.value else ValueOf(sh.values, p.name))
      && (forall n :: (forall p :: p in ps ==> p.name != n) ==> ValueOf(after, n) == ValueOf(sh.values, n))
    decreases |ps|
  {
    if ps != [] {
      var init, last := ps[..|ps| - 1], ps[|ps| - 1];
      assert ps == init + [last];
      assert last in ps;
      UniquePrefix(ps, |ps| - 1);
      SeedAllValues(env, init, sh);
      SeedAllStore(env, init, sh);
      var before := SeedAll(env, init, sh);
      StepValues(env, last, before);
      var after := SeedAll(env, ps, sh).values;
      forall p | p in ps
        ensures var l := LoadFor(env.target, sh.store, p, IdOf(p));
          ValueOf(after, p.name) == if l.Loads? then l.value else ValueOf(sh.values, p.name)
      {
        if p != last {
          var i :| 0 <= i < |ps| && ps[i] == p;
          assert i < |init| && init[i] == p;
          assert ValueOf(after, p.name) == ValueOf(before.values, p.name);
        }
      }
      forall n | forall p :: p in ps ==> p.name != n
        ensures ValueOf(after, n) == ValueOf(sh.values, n)
      {
        assert ValueOf(after, n) == ValueOf(before.values, n);
      }
    }
  }

  /** IPersistedValueSetNotifier.PropertySet is told of a property exactly
      when a value was set for it. */
  lemma {:induction false} SeedAllNotified(env: Env, ps: seq<PropertyDesc>, sh: Shared)
    requires AllPersisted(ps) && UniqueNames(env.target.properties) && Within(ps, env.target.properties)
    ensures var after := SeedAll(env, ps, sh).trace;
      sh.trace <= after
      && forall n :: SeedNotified(n) in after <==>
        SeedNotified(n) in sh.trace
        || (env.target.isSetNotifier
            && exists p :: p in ps && p.name == n && LoadFor(env.target, sh.store, p, IdOf(p)).Loads?)
    decreases |ps|
  {
    if ps != [] {
      var init, last := ps[..|ps| - 1], ps[|ps| - 1];
      assert ps == init + [last];
      assert last in ps;
      SeedAllNotified(env, init, sh);
      SeedAllStore(env, init, sh);
      StepNotified(env, last, SeedAll(env, init, sh));
    }
  }

  /** What one instance stores, a fresh instance of the same type loads:
      once a persisted property is set outside seeding, seeding another
      instance from the resulting store gives that property the same
      value. */
  lemma RoundTrip(first: Env, second: Env, p: PropertyDesc, v: Value, sh: Shared, other: Shared)
    requires first.target == second.target && UniqueNames(first.target.properties)
    requires p in first.target.properties && FirstPersisted(p.annotations).Some? && p.hasSetter
    requires IdOf(p) !in sh.seeding
    requires other.store == SetThrough(first, p, v, sh).store
    ensures ValueOf(SeedAll(second, Persisted(second.target.properties), other).values, p.name) == v
  {
    var props := second.target.properties;
    OrdinarySet(first, p, v, sh);
    PersistedUnique(props);
    SeedAllValues(second, Persisted(props), other);
  }

  lemma {:induction false} PersistedUnique(props: seq<PropertyDesc>)
    requires UniqueNames(props)
    ensures UniqueNames(Persisted(props))
  {
    if props != [] {
      assert UniqueNames(props[1..]) by {
        forall i, j | 0 <= i < j < |props| - 1 ensures props[1..][i].name != props[1..][j].name {
          assert props[1..][i] == props[i + 1] && props[1..][j] == props[j + 1];
        }
      }
      PersistedUnique(props[1..]);
      var rest := Persisted(props[1..]);
      if FirstPersisted(props[0].annotations).Some? {
        forall i, j | 0 <= i < j < |rest| + 1 ensures ([props[0]] + rest)[i].name != ([props[0]] + rest)[j].name {
          if i == 0 {
            var q := rest[j - 1];
            assert q in props[1..];
            var k :| 0 <= k < |props[1..]| && props[1..][k] == q;
            assert props[k + 1] == q;
          } else {
            assert ([props[0]] + rest)[i] == rest[i - 1] && ([props[0]] + rest)[j] == rest[j - 1];
          }
        }
      }
    }
  }
}
