/** ConfigurableLifetimeManager: a Unity lifetime manager that picks its
    inner manager from the first value it is given, and seeds that value's
    persisted properties as it stores it. */
module Lifetime {
  import opened Metadata
  import opened Pipeline
  import Interception
  import opened Seeding

  /** The inner managers it delegates to: a per-resolve manager keeps
      nothing across resolutions, a container-controlled one keeps the
      value until it is removed. */
  class InnerManager {
    const kind: LifetimeKind
    var value: Option<Interception.Instance>

    constructor (kind: LifetimeKind)
      ensures this.kind == kind && value == None
    {
      this.kind := kind;
      value := None;
    }

    method SetValue(newValue: Interception.Instance)
      modifies this
      ensures value == if kind == ContainerControlled then Some(newValue) else None
    {
      value := if kind == ContainerControlled then Some(newValue) else None;
    }

    method RemoveValue()
      modifies this
      ensures value == None
    {
      value := None;
    }
  }

  /** The inner manager a value's LifetimeManagerAttribute asks for:
      per-resolve only when it says so, container-controlled otherwise
      (including when the type has no such attribute). */
  function KindFor(target: TargetType): (k: LifetimeKind)
    ensures k == PerResolve <==> target.lifetime == Some(PerResolve)
  {
    if target.lifetime.Some? && target.lifetime.value == PerResolve then PerResolve else ContainerControlled
  }

  /** The shared state one instance and the runtime hold, as a value. */
  function Share(target: Interception.Instance, rt: Interception.Runtime): Shared
    reads target, rt
  {
    Shared(target.values, rt.store, rt.seeding, rt.trace)
  }

  /** The environment the seeding loop runs in for one instance. */
  function EnvOf(host: Host, target: Interception.Instance, elapsedMs: nat): Env
  {
    Env(host, target.kind, target.listeners, elapsedMs)
  }

  class ConfigurableLifetimeManager {
    var inner: Option<InnerManager>

    constructor ()
      ensures inner == None
    {
      inner := None;
    }

    /** The objects the inner manager occupies. */
    function Held(): set<object>
      reads this
    {
      if inner.Some? then {inner.value} else {}
    }

    /** GetValue: null until an inner manager exists, its value after. */
    method GetValue() returns (r: Option<Interception.Instance>)
      ensures inner.None? ==> r == None
      ensures inner.Some? ==> r == inner.value.value
    {
      if inner.None? {
        r := None;
      } else {
        r := inner.value.value;
      }
    }

    /** SetValue: the inner manager is chosen once, from the first value;
        the value is handed to it, and then each persisted property of the
        value is seeded in turn. */
    method SetValue(newValue: Interception.Instance, host: Host, rt: Interception.Runtime, elapsedMs: nat)
      modifies this, Held(), newValue, rt
      ensures old(inner).Some? ==> inner == old(inner)
      ensures old(inner).None? ==> inner.Some? && fresh(inner.value) && inner.value.kind == KindFor(newValue.kind)
      ensures inner.value.value == if inner.value.kind == ContainerControlled then Some(newValue) else None
      ensures Share(newValue, rt)
        == SeedAll(EnvOf(host, newValue, elapsedMs), Persisted(newValue.kind.properties), old(Share(newValue, rt)))
    {
      if inner.None? {
        var chosen := new InnerManager(KindFor(newValue.kind));
        inner := Some(chosen);
      }
      inner.value.SetValue(newValue);
      SeedProperties(EnvOf(host, newValue, elapsedMs), Persisted(newValue.kind.properties), newValue, rt);
    }

    /** RemoveValue: nothing to do until an inner manager exists. */
    method RemoveValue()
      modifies Held()
      ensures inner.Some? ==> inner.value.value == None
    {
      if inner.Some? {
        inner.value.RemoveValue();
      }
    }
  }

  /** The seeding loop: each persisted property in turn. */
  method SeedProperties(env: Env, ps: seq<PropertyDesc>, target: Interception.Instance, rt: Interception.Runtime)
    requires AllPersisted(ps)
    requires env.target == target.kind && env.listeners == target.listeners
    modifies target, rt
    ensures Share(target, rt) == SeedAll(env, ps, old(Share(target, rt)))
  {
    for i := 0 to |ps|
      invariant Share(target, rt) == SeedAll(env, ps[..i], old(Share(target, rt)))
    {
      assert ps[..i + 1][..i] == ps[..i];
      SeedProperty(env, ps[i], target, rt);
    }
    assert ps[..|ps|] == ps;
  }

  /** One iteration of the seeding loop: flag the id, load the value from
      the store or the default provider through the property's setter, tell
      the notifier, log a failure, and clear the flag. */
  method SeedProperty(env: Env, p: PropertyDesc, target: Interception.Instance, rt: Interception.Runtime)
    requires FirstPersisted(p.annotations).Some?
    requires env.target == target.kind && env.listeners == target.listeners
    modifies target, rt
    ensures Share(target, rt) == SeedStep(env, p, old(Share(target, rt)))
  {
    var id := IdOf(p);
    rt.seeding := rt.seeding + {id};
    var valueSet := false;
    var failed := false;
    var loaded := Null;
    if id in rt.store {
      if p.hasSetter {
        loaded, valueSet := rt.store[id], true;
      } else {
        failed := true;
      }
    } else if target.kind.defaults.Some? {
      if p.name in target.kind.defaults.value && p.hasSetter {
        loaded, valueSet := target.kind.defaults.value[p.name], true;
      } else {
        failed := true;
      }
    }
    if valueSet {
      var inv := new Interception.Invocation(SetterCall(env, p, loaded), target);
      var _ := Interception.Invoke(env.host, inv, rt);
      if target.kind.isSetNotifier {
        rt.trace := rt.trace + [SeedNotified(p.name)];
      }
    } else if failed {
      rt.trace := rt.trace + [SeedFailed(p.name)];
    }
    rt.seeding := rt.seeding - {id};
  }
}
