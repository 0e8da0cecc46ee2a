/** What CallHandler.Invoke guarantees about one intercepted call.  The
    general lemmas hold for any arrangement of the four handlers, including
    one in which a handler appears twice (two CallHandlers stacked on one
    member): the context guards make every effect happen at most once. */
module PipelineFacts {
  import opened Metadata
  import opened Text
  import opened Threading
  import opened Pipeline

  // ---------------------------------------------------------------------
  // Event counts

  lemma {:induction false} TallyAppend(a: seq<Event>, b: seq<Event>, k: Kind)
    ensures Tally(a + b, k) == Tally(a, k) + Tally(b, k)
  {
    if a == [] {
      assert a + b == b;
    } else {
      assert (a + b)[0] == a[0] && (a + b)[1..] == a[1..] + b;
      TallyAppend(a[1..], b, k);
    }
  }

  lemma TallyAppendAll(a: seq<Event>, b: seq<Event>)
    ensures forall k :: Tally(a + b, k) == Tally(a, k) + Tally(b, k)
  {
    forall k ensures Tally(a + b, k) == Tally(a, k) + Tally(b, k) {
      TallyAppend(a, b, k);
    }
  }

  /** Appending one event adds one to the count of its kind. */
  lemma TallySnoc(a: seq<Event>, e: Event)
    ensures forall k :: Tally(a + [e], k) == Tally(a, k) + if KindOf(e) == k then 1 else 0
  {
    forall k ensures Tally([e], k) == if KindOf(e) == k then 1 else 0 {
      assert [e][1..] == [];
    }
    TallyAppendAll(a, [e]);
  }

  /** The notifications of one change are all of kind Fired, one per
      listener. */
  lemma {:induction false} TallyFired(listeners: seq<string>, property: string, placement: Placement)
    ensures forall k :: Tally(FiredEvents(listeners, property, placement), k) == if k == FiredKind then |listeners| else 0
  {
    if listeners != [] {
      var es := FiredEvents(listeners, property, placement);
      assert es[1..] == FiredEvents(listeners[1..], property, placement);
      TallyFired(listeners[1..], property, placement);
    }
  }

  /** Appending the notifications of one change to a trace. */
  lemma AppendFired(trace: seq<Event>, listeners: seq<string>, property: string, placement: Placement)
    ensures forall k :: Tally(trace + FiredEvents(listeners, property, placement), k)
                        == Tally(trace, k) + if k == FiredKind then |listeners| else 0
  {
    TallyAppendAll(trace, FiredEvents(listeners, property, placement));
    TallyFired(listeners, property, placement);
  }

  /** A log write adds one Wrote event when logging is enabled and nothing
      otherwise. */
  lemma WriteTally(s: Scope, w: World, entry: LogEntry)
    ensures var w' := Write(s, w, entry);
      w'.context == w.context && w'.store == w.store && w'.values == w.values && w'.seeding == w.seeding
      && w.trace <= w'.trace
      && forall k :: Tally(w'.trace, k) == Tally(w.trace, k) + (if s.host.loggingEnabled && k == WroteKind then 1 else 0)
  {
    if s.host.loggingEnabled {
      TallySnoc(w.trace, Wrote(entry));
    }
  }

  // ---------------------------------------------------------------------
  // Reading a property through its getter

  /** The events of one getter call: its call message when the logging
      handler takes it, the getter's body, and the completion message when
      the call is timed.  No other handler takes a getter. */
  function ReadEvents(s: Scope, p: PropertyDesc, v: Value): (r: seq<Event>)
    ensures forall e :: e in r ==> e.Wrote? || e.Executed?
  {
    var g := GetterScope(s, p);
    var spec := LogSpecOf(g);
    var logs := spec.Some? && s.host.loggingEnabled;
    (if logs then [Wrote(Entry(CalledMessage(g.call), spec.value))] else [])
    + [Executed(g.call.member.name)]
    + (if logs && spec.value.timeMethodExecution then [Wrote(Entry(CompleteMessage(g.call, v), spec.value))] else [])
  }

  /** The getter's own body, under the two inner handlers, neither of which
      takes a getter. */
  lemma GetterBody(s: Scope, p: PropertyDesc, w: World)
    ensures var g := GetterScope(s, p);
      Run([PersistenceHandler, NotificationHandler], g, w)
        == Outcome(ValueOf(w.values, p.name), w.(trace := w.trace + [Executed(g.call.member.name)]))
  {
    var g := GetterScope(s, p);
    assert [PersistenceHandler, NotificationHandler][1..] == [NotificationHandler];
    assert [NotificationHandler][1..] == [];
    assert Run([NotificationHandler], g, w) == NotificationIntercept([], g, w);
    assert NotificationIntercept([], g, w) == Run([], g, w);
  }

  /** Reading a property returns its current value and changes nothing but
      the trace, which gains the getter call's events. */
  lemma GetValueEffect(s: Scope, p: PropertyDesc, w: World)
    ensures var o := GetValue(s, p, w);
      o.result == ValueOf(w.values, p.name)
      && o.world == w.(trace := w.trace + ReadEvents(s, p, ValueOf(w.values, p.name)))
  {
    var g := GetterScope(s, p);
    var w0 := w.(context := []);
    var rest := [LoggingHandler, PersistenceHandler, NotificationHandler];
    assert CallHandlerChain[1..] == rest && rest[1..] == [PersistenceHandler, NotificationHandler];
    assert Run(CallHandlerChain, g, w0) == ThreadingIntercept(rest, g, w0);
    assert ThreadingIntercept(rest, g, w0) == Run(rest, g, w0);
    assert Run(rest, g, w0) == LoggingIntercept([PersistenceHandler, NotificationHandler], g, w0);
    var spec := LogSpecOf(g);
    if spec.Some? {
      var w1 := Write(g, Mark(w0, LoggingKey), Entry(CalledMessage(g.call), spec.value));
      GetterBody(s, p, w1);
    } else {
      GetterBody(s, p, w0);
    }
  }

  /** The log writes of one read of a setter's property. */
  function ReadWrites(s: Scope): nat
  {
    if PropertyOf(s).Some? then
      var spec := LogSpecOf(GetterScope(s, PropertyOf(s).value));
      if spec.Some? && s.host.loggingEnabled then (if spec.value.timeMethodExecution then 2 else 1) else 0
    else 0
  }

  /** A getter call runs one body and makes the getter's log writes. */
  lemma ReadTally(s: Scope, v: Value)
    requires PropertyOf(s).Some?
    ensures var es := ReadEvents(s, PropertyOf(s).value, v);
      forall k :: Tally(es, k) == if k == ExecutedKind then 1 else if k == WroteKind then ReadWrites(s) else 0
  {
    var g := GetterScope(s, PropertyOf(s).value);
    var spec := LogSpecOf(g);
    var logs := spec.Some? && s.host.loggingEnabled;
    var timed := logs && spec.value.timeMethodExecution;
    var e := Executed(g.call.member.name);
    var a := if logs then [Wrote(Entry(CalledMessage(g.call), spec.value))] else [];
    var c := if timed then [Wrote(Entry(CompleteMessage(g.call, v), spec.value))] else [];
    assert ReadEvents(s, PropertyOf(s).value, v) == a + [e] + c;
    assert ReadWrites(s) == (if logs then 1 else 0) + (if timed then 1 else 0);
    if logs {
      TallyOne(Wrote(Entry(CalledMessage(g.call), spec.value)));
      if timed {
        TallyOne(Wrote(Entry(CompleteMessage(g.call, v), spec.value)));
      }
    }
    TallySnoc(a, e);
    TallyAppendAll(a + [e], c);
  }

  /** A single event counts once, under its own kind. */
  lemma TallyOne(e: Event)
    ensures forall k :: Tally([e], k) == if KindOf(e) == k then 1 else 0
  {
    TallySnoc([], e);
    assert [] + [e] == [e];
  }

  /** Reading the setter's property appends its getter call's events and
      adds one body run and the getter's log writes to the counts. */
  lemma ReadCounts(s: Scope, w: World)
    requires PropertyOf(s).Some?
    ensures var o := GetValue(s, PropertyOf(s).value, w);
      o.result == ValueOf(w.values, PropertyName(s.call.member))
      && o.world == w.(trace := w.trace + ReadEvents(s, PropertyOf(s).value, ValueOf(w.values, PropertyName(s.call.member))))
      && forall k :: Tally(o.world.trace, k)
                     == Tally(w.trace, k) + if k == ExecutedKind then 1 else if k == WroteKind then ReadWrites(s) else 0
  {
    var p := PropertyOf(s).value;
    GetValueEffect(s, p, w);
    ReadTally(s, ValueOf(w.values, p.name));
    TallyAppendAll(w.trace, ReadEvents(s, p, ValueOf(w.values, p.name)));
  }

  /** A getter takes the Log annotation of its property. */
  lemma GetterLogSpec(s: Scope, p: PropertyDesc)
    requires p in s.target.properties && UniqueNames(s.target.properties) && p.name != ""
    ensures LogSpecOf(GetterScope(s, p)) == FirstLog(p.annotations)
  {
    var m := GetterCall(p).member;
    assert m.name[4..] == p.name;
    FindUnique(s.target.properties, p);
  }

  // ---------------------------------------------------------------------
  // Any chain

  /** The handlers of a chain with one more handler in front. */
  lemma InFront(h: Handler, next: seq<Handler>)
    ensures forall x :: x in [h] + next <==> x == h || x in next
  {
  }

  /** The getter calls do not depend on log writes, on scheduling or on
      the keys of the two outer handlers. */
  lemma SameReads(chain: seq<Handler>, s: Scope, w: World, w': World)
    requires w'.seeding == w.seeding
    requires NotificationKey in w'.context <==> NotificationKey in w.context
    requires PersistenceKey in w'.context <==> PersistenceKey in w.context
    ensures NotifyReads(chain, s, w') == NotifyReads(chain, s, w)
    ensures StoreReads(chain, s, w') == StoreReads(chain, s, w)
  {
  }

  /** A handler in front of a chain adds the getter calls of its own kind. */
  lemma FrontReads(h: Handler, next: seq<Handler>, s: Scope, w: World)
    ensures NotifyReads([h] + next, s, w)
            == (NotifyReads(next, s, w) || (h == NotificationHandler && NotificationApplies(s, w) && Notifies(s)))
    ensures StoreReads([h] + next, s, w) == (StoreReads(next, s, w) || (h == PersistenceHandler && Persists(s, w)))
    ensures ThreadingHandler in [h] + next <==> h == ThreadingHandler || ThreadingHandler in next
    ensures LoggingHandler in [h] + next <==> h == LoggingHandler || LoggingHandler in next
  {
    InFront(h, next);
  }

  /** The handlers read the property before and after the body when the
      notification handler takes a notifying setter. */
  predicate NotifyReads(chain: seq<Handler>, s: Scope, w: World)
  {
    NotificationHandler in chain && NotificationApplies(s, w) && Notifies(s)
  }

  /** The persistence handler reads the property once when it stores it. */
  predicate StoreReads(chain: seq<Handler>, s: Scope, w: World)
  {
    PersistenceHandler in chain && Persists(s, w)
  }

  /** How many getter calls the handlers of the chain make. */
  function Reads(chain: seq<Handler>, s: Scope, w: World): nat
  {
    (if NotifyReads(chain, s, w) then 2 else 0) + (if StoreReads(chain, s, w) then 1 else 0)
  }

  /** The target ran exactly once on the way from w to o, besides the getter
      calls the handlers make: the property values end as its body leaves
      them, the seeding flags are not touched, the trace is only appended
      to, and a threading strategy took the call at most once. */
  predicate Framed(chain: seq<Handler>, s: Scope, w: World, o: Outcome)
  {
    o.world.values == BodyEffect(s.call.body, s.call.inputs, w.values)
    && o.world.seeding == w.seeding
    && w.trace <= o.world.trace
    && Tally(o.world.trace, ExecutedKind) == Tally(w.trace, ExecutedKind) + 1 + Reads(chain, s, w)
    && Tally(o.world.trace, ScheduledKind)
       == Tally(w.trace, ScheduledKind) + (if ThreadingHandler in chain && ThreadingApplies(s, w) then 1 else 0)
  }

  /** Whatever the arrangement of handlers, the target runs exactly once and
      only its body changes the instance. */
  lemma {:induction false} RunFrame(chain: seq<Handler>, s: Scope, w: World)
    ensures Framed(chain, s, w, Run(chain, s, w))
    decreases |chain|, 2
  {
    if chain == [] {
      TallySnoc(w.trace, Executed(s.call.member.name));
    } else {
      assert chain == [chain[0]] + chain[1..];
      match chain[0]
      case ThreadingHandler => ThreadingFrame(chain[1..], s, w);
      case LoggingHandler => LoggingFrame(chain[1..], s, w);
      case PersistenceHandler => PersistenceFrame(chain[1..], s, w);
      case NotificationHandler => NotificationFrame(chain[1..], s, w);
    }
  }

  /** The rest of the chain reads as often on the thread a strategy chose. */
  lemma MovedReads(next: seq<Handler>, s: Scope, w: World, p: Placement)
    ensures NotifyReads(next, OnThread(s, p), Scheduling(w, p)) == NotifyReads(next, s, w)
    ensures StoreReads(next, OnThread(s, p), Scheduling(w, p)) == StoreReads(next, s, w)
    ensures ReadWrites(OnThread(s, p)) == ReadWrites(s)
  {
    assert Scheduling(w, p).context == w.context + [ThreadKey];
    assert PersistedId(OnThread(s, p)) == PersistedId(s);
    if PropertyOf(s).Some? {
      var q := PropertyOf(s).value;
      assert LogSpecOf(GetterScope(OnThread(s, p), q)) == LogSpecOf(GetterScope(s, q));
    }
  }

  lemma {:induction false} ThreadingFrame(next: seq<Handler>, s: Scope, w: World)
    ensures Framed([ThreadingHandler] + next, s, w, ThreadingIntercept(next, s, w))
    decreases |next| + 1, 1
  {
    if ThreadingApplies(s, w) {
      var p := ThreadingPlacement(s);
      TallySnoc(w.trace, Scheduled(p));
      MovedReads(next, s, w, p);
      RunFrame(next, OnThread(s, p), Scheduling(w, p));
    } else {
      RunFrame(next, s, w);
    }
  }

  lemma {:induction false} LoggingFrame(next: seq<Handler>, s: Scope, w: World)
    ensures Framed([LoggingHandler] + next, s, w, LoggingIntercept(next, s, w))
    decreases |next| + 1, 1
  {
    var spec := LogSpecOf(s);
    if spec.Some? && LoggingKey !in w.context {
      var called := Entry(CalledMessage(s.call), spec.value);
      var w1 := Write(s, Mark(w, LoggingKey), called);
      WriteStep(s, Mark(w, LoggingKey), called);
      assert w1.context == w.context + [LoggingKey];
      SameReads(next, s, w, w1);
      FrontReads(LoggingHandler, next, s, w);
      assert ThreadingApplies(s, w1) == ThreadingApplies(s, w);
      RunFrame(next, s, w1);
      var inner := Run(next, s, w1);
      if spec.value.timeMethodExecution {
        var complete := Entry(CompleteMessage(s.call, inner.result), spec.value);
        WriteStep(s, inner.world, complete);
        Around([LoggingHandler] + next, next, s, w, w1, inner, Write(s, inner.world, complete), 0, 0);
      } else {
        Around([LoggingHandler] + next, next, s, w, w1, inner, inner.world, 0, 0);
      }
    } else {
      FrontReads(LoggingHandler, next, s, w);
      RunFrame(next, s, w);
    }
  }

  /** The persistence handler stores, after the rest of the chain, exactly
      when the call persists and no inner persistence handler has stored. */
  lemma PersistenceOwn(next: seq<Handler>, s: Scope, w: World)
    ensures var inner := Run(next, s, w);
      (PersistenceApplies(s, inner.world) && PersistedId(s).Some? && PersistedId(s).value !in inner.world.seeding)
      <==> Persists(s, w) && !StoreReads(next, s, w)
  {
    RunMarked(next, s, w);
    RunFrame(next, s, w);
  }

  lemma {:induction false} PersistenceFrame(next: seq<Handler>, s: Scope, w: World)
    ensures Framed([PersistenceHandler] + next, s, w, PersistenceIntercept(next, s, w))
    decreases |next| + 1, 1
  {
    RunMarked(next, s, w);
    if Persists(s, w) && !StoreReads(next, s, w) {
      PersistedFrame(next, s, w);
    } else {
      RunFrame(next, s, w);
    }
  }

  /** The persistence handler's own branch: the read and the store write. */
  lemma {:induction false} PersistedFrame(next: seq<Handler>, s: Scope, w: World)
    requires Persists(s, w) && !StoreReads(next, s, w)
    ensures Framed([PersistenceHandler] + next, s, w, PersistenceIntercept(next, s, w))
    decreases |next| + 1, 0
  {
    RunFrame(next, s, w);
    RunMarked(next, s, w);
    var w2 := Mark(Run(next, s, w).world, PersistenceKey);
    ReadCounts(s, w2);
    var read := GetValue(s, PropertyOf(s).value, w2);
    TallySnoc(read.world.trace, Stored(PersistedId(s).value, read.result));
  }

  lemma {:induction false} NotificationFrame(next: seq<Handler>, s: Scope, w: World)
    ensures Framed([NotificationHandler] + next, s, w, NotificationIntercept(next, s, w))
    decreases |next| + 1, 1
  {
    if NotificationApplies(s, w) {
      var w1 := Mark(w, NotificationKey);
      if Notifies(s) {
        NotifiedFrame(next, s, w);
      } else {
        RunFrame(next, s, w1);
      }
    } else {
      RunFrame(next, s, w);
    }
  }

  /** The notification handler's own branch: a read, the rest of the chain,
      a read, and the listeners. */
  lemma {:induction false} NotifiedFrame(next: seq<Handler>, s: Scope, w: World)
    requires NotificationApplies(s, w) && Notifies(s)
    ensures Framed([NotificationHandler] + next, s, w, NotificationIntercept(next, s, w))
    decreases |next| + 1, 0
  {
    var p := PropertyOf(s).value;
    var before := GetValue(s, p, Mark(w, NotificationKey));
    var inner := Run(next, s, before.world);
    var after := GetValue(s, p, inner.world);
    ReadsFrame(next, s, w);
    var fired := FiredEvents(s.listeners, PropertyName(s.call.member), ListenerPlacement(s.host));
    if before.result != after.result && CanFire(s) {
      AppendFired(after.world.trace, s.listeners, PropertyName(s.call.member), ListenerPlacement(s.host));
      assert Tally(after.world.trace + fired, ExecutedKind) == Tally(after.world.trace, ExecutedKind);
      assert Tally(after.world.trace + fired, ScheduledKind) == Tally(after.world.trace, ScheduledKind);
    }
  }

  /** The two reads around the rest of the chain, before any listener runs. */
  lemma {:induction false} ReadsFrame(next: seq<Handler>, s: Scope, w: World)
    requires NotificationApplies(s, w) && Notifies(s)
    ensures var p := PropertyOf(s).value;
      var before := GetValue(s, p, Mark(w, NotificationKey));
      var inner := Run(next, s, before.world);
      Framed([NotificationHandler] + next, s, w, Outcome(inner.result, GetValue(s, p, inner.world).world))
    decreases |next|, 3
  {
    var w1 := Mark(w, NotificationKey);
    var p := PropertyOf(s).value;
    ReadStep(s, w1);
    var before := GetValue(s, p, w1);
    FrontReads(NotificationHandler, next, s, w);
    assert !NotifyReads(next, s, before.world);
    assert StoreReads(next, s, before.world) == StoreReads(next, s, w);
    assert ThreadingApplies(s, before.world) == ThreadingApplies(s, w);
    RunFrame(next, s, before.world);
    var inner := Run(next, s, before.world);
    ReadStep(s, inner.world);
    Around([NotificationHandler] + next, next, s, w, before.world, inner, GetValue(s, p, inner.world).world, 1, 1);
  }

  /** From w to w' the target ran n more times and nothing else the frame
      speaks of changed: the step a getter call (n = 1) or a log write
      (n = 0) takes. */
  predicate Step(w: World, w': World, n: nat)
  {
    w'.values == w.values && w'.seeding == w.seeding && w.trace <= w'.trace
    && Tally(w'.trace, ExecutedKind) == Tally(w.trace, ExecutedKind) + n
    && Tally(w'.trace, ScheduledKind) == Tally(w.trace, ScheduledKind)
  }

  lemma ReadStep(s: Scope, w: World)
    requires PropertyOf(s).Some?
    ensures Step(w, GetValue(s, PropertyOf(s).value, w).world, 1)
  {
    ReadCounts(s, w);
  }

  lemma WriteStep(s: Scope, w: World, entry: LogEntry)
    ensures Step(w, Write(s, w, entry), 0)
  {
    WriteTally(s, w, entry);
  }

  /** A step, a framed run of the rest of the chain, and a step make a frame
      of the whole chain. */
  lemma Around(chain: seq<Handler>, next: seq<Handler>, s: Scope, w: World, w1: World, o: Outcome, last: World, m: nat, n: nat)
    requires Step(w, w1, m) && Framed(next, s, w1, o) && Step(o.world, last, n)
    requires Reads(chain, s, w) == Reads(next, s, w1) + m + n
    requires (ThreadingHandler in chain && ThreadingApplies(s, w)) == (ThreadingHandler in next && ThreadingApplies(s, w1))
    ensures Framed(chain, s, w, Outcome(o.result, last))
  {
  }

  // ---------------------------------------------------------------------
  // The result

  /** The value a chain returns: null once a threading strategy has taken the
      rest of the chain, otherwise what the member's body returns. */
  function ChainResult(chain: seq<Handler>, s: Scope, w: World): Value
  {
    if ThreadingHandler in chain && ThreadingApplies(s, w) then Null else TargetResult(s.call, w.values)
  }

  lemma {:induction false} RunResult(chain: seq<Handler>, s: Scope, w: World)
    ensures Run(chain, s, w).result == ChainResult(chain, s, w)
    decreases |chain|, 2
  {
    if chain != [] {
      match chain[0]
      case ThreadingHandler => ThreadingResult(chain[1..], s, w);
      case LoggingHandler => LoggingResult(chain[1..], s, w);
      case PersistenceHandler => PersistenceResult(chain[1..], s, w);
      case NotificationHandler => NotificationResult(chain[1..], s, w);
    }
  }

  lemma {:induction false} ThreadingResult(next: seq<Handler>, s: Scope, w: World)
    ensures ThreadingIntercept(next, s, w).result == ChainResult([ThreadingHandler] + next, s, w)
    decreases |next| + 1, 1
  {
    if !ThreadingApplies(s, w) {
      RunResult(next, s, w);
    }
  }

  lemma {:induction false} LoggingResult(next: seq<Handler>, s: Scope, w: World)
    ensures LoggingIntercept(next, s, w).result == ChainResult([LoggingHandler] + next, s, w)
    decreases |next| + 1, 1
  {
    var spec := LogSpecOf(s);
    if spec.Some? && LoggingKey !in w.context {
      var w1 := Write(s, Mark(w, LoggingKey), Entry(CalledMessage(s.call), spec.value));
      assert ThreadingApplies(s, w1) == ThreadingApplies(s, w);
      RunResult(next, s, w1);
    } else {
      RunResult(next, s, w);
    }
  }

  lemma {:induction false} PersistenceResult(next: seq<Handler>, s: Scope, w: World)
    ensures PersistenceIntercept(next, s, w).result == ChainResult([PersistenceHandler] + next, s, w)
    decreases |next| + 1, 1
  {
    RunResult(next, s, w);
  }

  lemma {:induction false} NotificationResult(next: seq<Handler>, s: Scope, w: World)
    ensures NotificationIntercept(next, s, w).result == ChainResult([NotificationHandler] + next, s, w)
    decreases |next| + 1, 1
  {
    if NotificationApplies(s, w) {
      var w1 := Mark(w, NotificationKey);
      if Notifies(s) {
        GetValueEffect(s, PropertyOf(s).value, w1);
        var before := GetValue(s, PropertyOf(s).value, w1);
        assert ThreadingApplies(s, before.world) == ThreadingApplies(s, w);
        RunResult(next, s, before.world);
      } else {
        assert ThreadingApplies(s, w1) == ThreadingApplies(s, w);
        RunResult(next, s, w1);
      }
    } else {
      RunResult(next, s, w);
    }
  }

  // ---------------------------------------------------------------------
  // The invocation context

  /** The keys the four handlers add to the invocation context. */
  const HandlerKeys: set<string> := {ThreadKey, LoggingKey, PersistenceKey, NotificationKey}

  /** No key occurs twice: every InvocationContext.Add found its key absent. */
  predicate NoRepeats(keys: seq<string>)
  {
    forall i, j :: 0 <= i < j < |keys| ==> keys[i] != keys[j]
  }

  /** The context only grew, by handler keys, each added at most once. */
  predicate Grown(w: World, o: Outcome)
  {
    w.context <= o.world.context
    && (forall k :: k in o.world.context ==> k in w.context || k in HandlerKeys)
    && (NoRepeats(w.context) ==> NoRepeats(o.world.context))
  }

  lemma MarkGrown(w: World, key: string)
    requires key in HandlerKeys && key !in w.context
    ensures var w' := Mark(w, key);
      w.context <= w'.context
      && (forall k :: k in w'.context ==> k in w.context || k in HandlerKeys)
      && (NoRepeats(w.context) ==> NoRepeats(w'.context))
  {
    var w' := Mark(w, key);
    if NoRepeats(w.context) {
      forall i, j | 0 <= i < j < |w'.context| ensures w'.context[i] != w'.context[j] {
        if j == |w.context| {
          assert w'.context[i] == w.context[i];
        }
      }
    }
  }

  lemma {:induction false} RunGrown(chain: seq<Handler>, s: Scope, w: World)
    ensures Grown(w, Run(chain, s, w))
    decreases |chain|, 2
  {
    if chain != [] {
      match chain[0]
      case ThreadingHandler => ThreadingGrown(chain[1..], s, w);
      case LoggingHandler => LoggingGrown(chain[1..], s, w);
      case PersistenceHandler => PersistenceGrown(chain[1..], s, w);
      case NotificationHandler => NotificationGrown(chain[1..], s, w);
    }
  }

  lemma {:induction false} ThreadingGrown(next: seq<Handler>, s: Scope, w: World)
    ensures Grown(w, ThreadingIntercept(next, s, w))
    decreases |next| + 1, 1
  {
    if ThreadingApplies(s, w) {
      var p := ThreadingPlacement(s);
      MarkGrown(w, ThreadKey);
      RunGrown(next, OnThread(s, p), Scheduling(w, p));
    } else {
      RunGrown(next, s, w);
    }
  }

  lemma {:induction false} LoggingGrown(next: seq<Handler>, s: Scope, w: World)
    ensures Grown(w, LoggingIntercept(next, s, w))
    decreases |next| + 1, 1
  {
    var spec := LogSpecOf(s);
    if spec.Some? && LoggingKey !in w.context {
      MarkGrown(w, LoggingKey);
      RunGrown(next, s, Write(s, Mark(w, LoggingKey), Entry(CalledMessage(s.call), spec.value)));
    } else {
      RunGrown(next, s, w);
    }
  }

  lemma {:induction false} PersistenceGrown(next: seq<Handler>, s: Scope, w: World)
    ensures Grown(w, PersistenceIntercept(next, s, w))
    decreases |next| + 1, 1
  {
    RunGrown(next, s, w);
    var inner := Run(next, s, w);
    if PersistenceApplies(s, inner.world) {
      MarkGrown(inner.world, PersistenceKey);
    }
  }

  lemma {:induction false} NotificationGrown(next: seq<Handler>, s: Scope, w: World)
    ensures Grown(w, NotificationIntercept(next, s, w))
    decreases |next| + 1, 1
  {
    if NotificationApplies(s, w) {
      var w1 := Mark(w, NotificationKey);
      MarkGrown(w, NotificationKey);
      if Notifies(s) {
        RunGrown(next, s, GetValue(s, PropertyOf(s).value, w1).world);
      } else {
        RunGrown(next, s, w1);
      }
    } else {
      RunGrown(next, s, w);
    }
  }

  /** Each handler's key is in the context after the chain exactly when it
      was there before or a handler of that kind in the chain handles the
      call. */
  predicate Marked(chain: seq<Handler>, s: Scope, w: World, o: Outcome)
  {
    var m := s.call.member;
    var after := o.world.context;
    (ThreadKey in after <==> ThreadKey in w.context || (ThreadingHandler in chain && WantsThreading(m)))
    && (LoggingKey in after <==> LoggingKey in w.context || (LoggingHandler in chain && LogSpecOf(s).Some?))
    && (PersistenceKey in after <==>
          PersistenceKey in w.context || (PersistenceHandler in chain && HandlesPersistence(m)))
    && (NotificationKey in after <==>
          NotificationKey in w.context || (NotificationHandler in chain && HandlesNotification(m)))
  }

  lemma {:induction false} RunMarked(chain: seq<Handler>, s: Scope, w: World)
    ensures Marked(chain, s, w, Run(chain, s, w))
    decreases |chain|, 2
  {
    if chain != [] {
      assert chain == [chain[0]] + chain[1..];
      match chain[0]
      case ThreadingHandler => ThreadingMarked(chain[1..], s, w);
      case LoggingHandler => LoggingMarked(chain[1..], s, w);
      case PersistenceHandler => PersistenceMarked(chain[1..], s, w);
      case NotificationHandler => NotificationMarked(chain[1..], s, w);
    }
  }

  lemma {:induction false} ThreadingMarked(next: seq<Handler>, s: Scope, w: World)
    ensures Marked([ThreadingHandler] + next, s, w, ThreadingIntercept(next, s, w))
    decreases |next| + 1, 1
  {
    if ThreadingApplies(s, w) {
      var p := ThreadingPlacement(s);
      assert LogSpecOf(OnThread(s, p)) == LogSpecOf(s);
      RunMarked(next, OnThread(s, p), Scheduling(w, p));
    } else {
      RunMarked(next, s, w);
    }
  }

  lemma {:induction false} LoggingMarked(next: seq<Handler>, s: Scope, w: World)
    ensures Marked([LoggingHandler] + next, s, w, LoggingIntercept(next, s, w))
    decreases |next| + 1, 1
  {
    var spec := LogSpecOf(s);
    if spec.Some? && LoggingKey !in w.context {
      RunMarked(next, s, Write(s, Mark(w, LoggingKey), Entry(CalledMessage(s.call), spec.value)));
    } else {
      RunMarked(next, s, w);
    }
  }

  lemma {:induction false} PersistenceMarked(next: seq<Handler>, s: Scope, w: World)
    ensures Marked([PersistenceHandler] + next, s, w, PersistenceIntercept(next, s, w))
    decreases |next| + 1, 1
  {
    RunMarked(next, s, w);
  }

  lemma {:induction false} NotificationMarked(next: seq<Handler>, s: Scope, w: World)
    ensures Marked([NotificationHandler] + next, s, w, NotificationIntercept(next, s, w))
    decreases |next| + 1, 1
  {
    if NotificationApplies(s, w) {
      var w1 := Mark(w, NotificationKey);
      if Notifies(s) {
        RunMarked(next, s, GetValue(s, PropertyOf(s).value, w1).world);
      } else {
        RunMarked(next, s, w1);
      }
    } else {
      RunMarked(next, s, w);
    }
  }

  // ---------------------------------------------------------------------
  // The persisted store

  /** The persistence handler writes the store for this call: a setter whose
      property carries PersistedProperty, not already handled, and whose id
      is not being seeded. */
  predicate Persists(s: Scope, w: World)
  {
    PersistenceApplies(s, w) && PersistedId(s).Some? && PersistedId(s).value !in w.seeding
  }

  /** The property's value once the setter's body has run. */
  function NewValue(s: Scope, w: World): Value
  {
    ValueOf(BodyEffect(s.call.body, s.call.inputs, w.values), PropertyName(s.call.member))
  }

  /** The store changes at most at the property's id, to the value the
      property holds after the call, and one Stored event records it. */
  predicate Stores(chain: seq<Handler>, s: Scope, w: World, o: Outcome)
  {
    var writes := PersistenceHandler in chain && Persists(s, w);
    o.world.store == (if writes then w.store[PersistedId(s).value := NewValue(s, w)] else w.store)
    && Tally(o.world.trace, StoredKind) == Tally(w.trace, StoredKind) + (if writes then 1 else 0)
  }

  lemma {:induction false} RunStores(chain: seq<Handler>, s: Scope, w: World)
    ensures Stores(chain, s, w, Run(chain, s, w))
    decreases |chain|, 2
  {
    if chain == [] {
      TallySnoc(w.trace, Executed(s.call.member.name));
    } else {
      assert chain == [chain[0]] + chain[1..];
      match chain[0]
      case ThreadingHandler => ThreadingStores(chain[1..], s, w);
      case LoggingHandler => LoggingStores(chain[1..], s, w);
      case PersistenceHandler => PersistenceStores(chain[1..], s, w);
      case NotificationHandler => NotificationStores(chain[1..], s, w);
    }
  }

  lemma {:induction false} ThreadingStores(next: seq<Handler>, s: Scope, w: World)
    ensures Stores([ThreadingHandler] + next, s, w, ThreadingIntercept(next, s, w))
    decreases |next| + 1, 1
  {
    if ThreadingApplies(s, w) {
      var p := ThreadingPlacement(s);
      TallySnoc(w.trace, Scheduled(p));
      assert PersistedId(OnThread(s, p)) == PersistedId(s);
      RunStores(next, OnThread(s, p), Scheduling(w, p));
    } else {
      RunStores(next, s, w);
    }
  }

  lemma {:induction false} LoggingStores(next: seq<Handler>, s: Scope, w: World)
    ensures Stores([LoggingHandler] + next, s, w, LoggingIntercept(next, s, w))
    decreases |next| + 1, 1
  {
    var spec := LogSpecOf(s);
    if spec.Some? && LoggingKey !in w.context {
      var called := Entry(CalledMessage(s.call), spec.value);
      var w1 := Write(s, Mark(w, LoggingKey), called);
      WriteTally(s, Mark(w, LoggingKey), called);
      RunStores(next, s, w1);
      var inner := Run(next, s, w1);
      WriteTally(s, inner.world, Entry(CompleteMessage(s.call, inner.result), spec.value));
    } else {
      RunStores(next, s, w);
    }
  }

  lemma {:induction false} PersistenceStores(next: seq<Handler>, s: Scope, w: World)
    ensures Stores([PersistenceHandler] + next, s, w, PersistenceIntercept(next, s, w))
    decreases |next| + 1, 1
  {
    PersistenceOwn(next, s, w);
    if Persists(s, w) && !StoreReads(next, s, w) {
      PersistedStores(next, s, w);
    } else {
      RunStores(next, s, w);
    }
  }

  /** The persistence handler's own branch: the read and the store write. */
  lemma {:induction false} PersistedStores(next: seq<Handler>, s: Scope, w: World)
    requires Persists(s, w) && !StoreReads(next, s, w)
    ensures Stores([PersistenceHandler] + next, s, w, PersistenceIntercept(next, s, w))
    decreases |next| + 1, 0
  {
    RunStores(next, s, w);
    PersistenceOwn(next, s, w);
    var w2 := Mark(Run(next, s, w).world, PersistenceKey);
    RunFrame(next, s, w);
    ReadCounts(s, w2);
    var read := GetValue(s, PropertyOf(s).value, w2);
    TallySnoc(read.world.trace, Stored(PersistedId(s).value, NewValue(s, w)));
  }

  lemma {:induction false} NotificationStores(next: seq<Handler>, s: Scope, w: World)
    ensures Stores([NotificationHandler] + next, s, w, NotificationIntercept(next, s, w))
    decreases |next| + 1, 1
  {
    if NotificationApplies(s, w) {
      if Notifies(s) {
        NotifiedStores(next, s, w);
      } else {
        RunStores(next, s, Mark(w, NotificationKey));
      }
    } else {
      RunStores(next, s, w);
    }
  }

  lemma {:induction false} NotifiedStores(next: seq<Handler>, s: Scope, w: World)
    requires NotificationApplies(s, w) && Notifies(s)
    ensures Stores([NotificationHandler] + next, s, w, NotificationIntercept(next, s, w))
    decreases |next| + 1, 0
  {
    var w1 := Mark(w, NotificationKey);
    var p := PropertyOf(s).value;
    ReadCounts(s, w1);
    var before := GetValue(s, p, w1);
    RunStores(next, s, before.world);
    var inner := Run(next, s, before.world);
    ReadCounts(s, inner.world);
    var after := GetValue(s, p, inner.world);
    AppendFired(after.world.trace, s.listeners, PropertyName(s.call.member), ListenerPlacement(s.host));
  }

  // ---------------------------------------------------------------------
  // Scheduling, log writes and notifications

  /** The notification handler invokes the listeners for this call: a setter
      of an INotifyPropertyChanged type whose property carries
      NotifyPropertyChanged, not already handled, whose body changed the
      value, on an instance with the event field and at least one
      subscriber. */
  predicate NotifyFires(s: Scope, w: World)
  {
    NotificationApplies(s, w) && Notifies(s)
    && ValueOf(w.values, PropertyName(s.call.member)) != NewValue(s, w)
    && CanFire(s)
  }

  /** The logging handler takes this call and logging is enabled. */
  predicate LogsCall(s: Scope, w: World)
  {
    LogSpecOf(s).Some? && LoggingKey !in w.context && s.host.loggingEnabled
  }

  /** The log writes one call makes: the call message, and the completion
      message when the call is timed. */
  function Writes(s: Scope, w: World): nat
  {
    if LogsCall(s, w) then (if LogSpecOf(s).value.timeMethodExecution then 2 else 1) else 0
  }

  /** How many log writes the chain adds: those of the call itself, and
      those of each getter call the handlers make. */
  predicate Logged(chain: seq<Handler>, s: Scope, w: World, o: Outcome)
  {
    Tally(o.world.trace, WroteKind)
       == Tally(w.trace, WroteKind) + (if LoggingHandler in chain then Writes(s, w) else 0)
          + (if NotifyReads(chain, s, w) then 2 * ReadWrites(s) else 0)
          + (if StoreReads(chain, s, w) then ReadWrites(s) else 0)
  }

  lemma {:induction false} RunLogged(chain: seq<Handler>, s: Scope, w: World)
    ensures Logged(chain, s, w, Run(chain, s, w))
    decreases |chain|, 2
  {
    if chain == [] {
      TallySnoc(w.trace, Executed(s.call.member.name));
    } else {
      assert chain == [chain[0]] + chain[1..];
      match chain[0]
      case ThreadingHandler => ThreadingLogged(chain[1..], s, w);
      case LoggingHandler => LoggingLogged(chain[1..], s, w);
      case PersistenceHandler => PersistenceLogged(chain[1..], s, w);
      case NotificationHandler => NotificationLogged(chain[1..], s, w);
    }
  }

  lemma {:induction false} ThreadingLogged(next: seq<Handler>, s: Scope, w: World)
    ensures Logged([ThreadingHandler] + next, s, w, ThreadingIntercept(next, s, w))
    decreases |next| + 1, 1
  {
    if ThreadingApplies(s, w) {
      var p := ThreadingPlacement(s);
      var w' := Scheduling(w, p);
      TallySnoc(w.trace, Scheduled(p));
      assert Tally(w'.trace, WroteKind) == Tally(w.trace, WroteKind);
      assert LogSpecOf(OnThread(s, p)) == LogSpecOf(s);
      assert w'.context == w.context + [ThreadKey];
      assert Writes(OnThread(s, p), w') == Writes(s, w);
      MovedReads(next, s, w, p);
      FrontReads(ThreadingHandler, next, s, w);
      RunLogged(next, OnThread(s, p), w');
    } else {
      FrontReads(ThreadingHandler, next, s, w);
      RunLogged(next, s, w);
    }
  }

  lemma {:induction false} LoggingLogged(next: seq<Handler>, s: Scope, w: World)
    ensures Logged([LoggingHandler] + next, s, w, LoggingIntercept(next, s, w))
    decreases |next| + 1, 1
  {
    var spec := LogSpecOf(s);
    if spec.Some? && LoggingKey !in w.context {
      var called := Entry(CalledMessage(s.call), spec.value);
      var w1 := Write(s, Mark(w, LoggingKey), called);
      WriteTally(s, Mark(w, LoggingKey), called);
      assert w1.context == w.context + [LoggingKey];
      SameReads(next, s, w, w1);
      FrontReads(LoggingHandler, next, s, w);
      RunLogged(next, s, w1);
      var inner := Run(next, s, w1);
      WriteTally(s, inner.world, Entry(CompleteMessage(s.call, inner.result), spec.value));
    } else {
      FrontReads(LoggingHandler, next, s, w);
      RunLogged(next, s, w);
    }
  }

  lemma {:induction false} PersistenceLogged(next: seq<Handler>, s: Scope, w: World)
    ensures Logged([PersistenceHandler] + next, s, w, PersistenceIntercept(next, s, w))
    decreases |next| + 1, 1
  {
    PersistenceOwn(next, s, w);
    if Persists(s, w) && !StoreReads(next, s, w) {
      PersistedLogged(next, s, w);
    } else {
      FrontReads(PersistenceHandler, next, s, w);
      RunLogged(next, s, w);
    }
  }

  /** The persistence handler's own branch: the read and the store write. */
  lemma {:induction false} PersistedLogged(next: seq<Handler>, s: Scope, w: World)
    requires Persists(s, w) && !StoreReads(next, s, w)
    ensures Logged([PersistenceHandler] + next, s, w, PersistenceIntercept(next, s, w))
    decreases |next| + 1, 0
  {
    RunLogged(next, s, w);
    PersistenceOwn(next, s, w);
    var w2 := Mark(Run(next, s, w).world, PersistenceKey);
    FrontReads(PersistenceHandler, next, s, w);
    ReadCounts(s, w2);
    var read := GetValue(s, PropertyOf(s).value, w2);
    TallySnoc(read.world.trace, Stored(PersistedId(s).value, read.result));
  }

  lemma {:induction false} NotificationLogged(next: seq<Handler>, s: Scope, w: World)
    ensures Logged([NotificationHandler] + next, s, w, NotificationIntercept(next, s, w))
    decreases |next| + 1, 1
  {
    if NotificationApplies(s, w) {
      if Notifies(s) {
        NotifiedLogged(next, s, w);
      } else {
        RunLogged(next, s, Mark(w, NotificationKey));
      }
    } else {
      RunLogged(next, s, w);
    }
  }

  lemma {:induction false} NotifiedLogged(next: seq<Handler>, s: Scope, w: World)
    requires NotificationApplies(s, w) && Notifies(s)
    ensures Logged([NotificationHandler] + next, s, w, NotificationIntercept(next, s, w))
    decreases |next| + 1, 0
  {
    var w1 := Mark(w, NotificationKey);
    var p := PropertyOf(s).value;
    ReadCounts(s, w1);
    var before := GetValue(s, p, w1);
    FrontReads(NotificationHandler, next, s, w);
    assert !NotifyReads(next, s, before.world);
    assert StoreReads(next, s, before.world) == StoreReads(next, s, w);
    assert Writes(s, before.world) == Writes(s, w);
    RunLogged(next, s, before.world);
    var inner := Run(next, s, before.world);
    ReadCounts(s, inner.world);
    var after := GetValue(s, p, inner.world);
    AppendFired(after.world.trace, s.listeners, PropertyName(s.call.member), ListenerPlacement(s.host));
  }

  /** How many listener invocations the chain makes: one per subscriber when
      the notification handler fires, none otherwise. */
  predicate Notified(chain: seq<Handler>, s: Scope, w: World, o: Outcome)
  {
    Tally(o.world.trace, FiredKind)
      == Tally(w.trace, FiredKind) + (if NotificationHandler in chain && NotifyFires(s, w) then |s.listeners| else 0)
  }

  lemma {:induction false} RunNotified(chain: seq<Handler>, s: Scope, w: World)
    ensures Notified(chain, s, w, Run(chain, s, w))
    decreases |chain|, 2
  {
    if chain == [] {
      TallySnoc(w.trace, Executed(s.call.member.name));
    } else {
      assert chain == [chain[0]] + chain[1..];
      match chain[0]
      case ThreadingHandler => ThreadingNotified(chain[1..], s, w);
      case LoggingHandler => LoggingNotified(chain[1..], s, w);
      case PersistenceHandler => PersistenceNotified(chain[1..], s, w);
      case NotificationHandler => NotificationNotified(chain[1..], s, w);
    }
  }

  lemma {:induction false} ThreadingNotified(next: seq<Handler>, s: Scope, w: World)
    ensures Notified([ThreadingHandler] + next, s, w, ThreadingIntercept(next, s, w))
    decreases |next| + 1, 1
  {
    if ThreadingApplies(s, w) {
      var p := ThreadingPlacement(s);
      TallySnoc(w.trace, Scheduled(p));
      assert Notifies(OnThread(s, p)) == Notifies(s);
      RunNotified(next, OnThread(s, p), Scheduling(w, p));
    } else {
      RunNotified(next, s, w);
    }
  }

  lemma {:induction false} LoggingNotified(next: seq<Handler>, s: Scope, w: World)
    ensures Notified([LoggingHandler] + next, s, w, LoggingIntercept(next, s, w))
    decreases |next| + 1, 1
  {
    var spec := LogSpecOf(s);
    if spec.Some? && LoggingKey !in w.context {
      var called := Entry(CalledMessage(s.call), spec.value);
      var w1 := Write(s, Mark(w, LoggingKey), called);
      WriteTally(s, Mark(w, LoggingKey), called);
      RunNotified(next, s, w1);
      var inner := Run(next, s, w1);
      WriteTally(s, inner.world, Entry(CompleteMessage(s.call, inner.result), spec.value));
    } else {
      RunNotified(next, s, w);
    }
  }

  lemma {:induction false} PersistenceNotified(next: seq<Handler>, s: Scope, w: World)
    ensures Notified([PersistenceHandler] + next, s, w, PersistenceIntercept(next, s, w))
    decreases |next| + 1, 1
  {
    PersistenceOwn(next, s, w);
    if Persists(s, w) && !StoreReads(next, s, w) {
      PersistedNotified(next, s, w);
    } else {
      RunNotified(next, s, w);
    }
  }

  /** The persistence handler's own branch: the read and the store write. */
  lemma {:induction false} PersistedNotified(next: seq<Handler>, s: Scope, w: World)
    requires Persists(s, w) && !StoreReads(next, s, w)
    ensures Notified([PersistenceHandler] + next, s, w, PersistenceIntercept(next, s, w))
    decreases |next| + 1, 0
  {
    RunNotified(next, s, w);
    PersistenceOwn(next, s, w);
    var w2 := Mark(Run(next, s, w).world, PersistenceKey);
    ReadCounts(s, w2);
    var read := GetValue(s, PropertyOf(s).value, w2);
    TallySnoc(read.world.trace, Stored(PersistedId(s).value, read.result));
  }

  lemma {:induction false} NotificationNotified(next: seq<Handler>, s: Scope, w: World)
    ensures Notified([NotificationHandler] + next, s, w, NotificationIntercept(next, s, w))
    decreases |next| + 1, 1
  {
    if NotificationApplies(s, w) {
      if Notifies(s) {
        NotifiedNotified(next, s, w);
      } else {
        RunNotified(next, s, Mark(w, NotificationKey));
      }
    } else {
      RunNotified(next, s, w);
    }
  }

  lemma {:induction false} NotifiedNotified(next: seq<Handler>, s: Scope, w: World)
    requires NotificationApplies(s, w) && Notifies(s)
    ensures Notified([NotificationHandler] + next, s, w, NotificationIntercept(next, s, w))
    decreases |next| + 1, 0
  {
    var w1 := Mark(w, NotificationKey);
    var p := PropertyOf(s).value;
    ReadCounts(s, w1);
    var before := GetValue(s, p, w1);
    RunNotified(next, s, before.world);
    RunFrame(next, s, before.world);
    var inner := Run(next, s, before.world);
    ReadCounts(s, inner.world);
    var after := GetValue(s, p, inner.world);
    AppendFired(after.world.trace, s.listeners, PropertyName(s.call.member), ListenerPlacement(s.host));
  }

  // ---------------------------------------------------------------------
  // The order of events in CallHandler.Invoke

  function SchedulePart(s: Scope, w: World): (r: seq<Event>)
    ensures forall e :: e in r ==> e.Scheduled?
  {
    if ThreadingApplies(s, w) then [Scheduled(ThreadingPlacement(s))] else []
  }

  function CalledPart(s: Scope, w: World): (r: seq<Event>)
    ensures forall e :: e in r ==> e.Wrote?
  {
    if LogsCall(s, w) then [Wrote(Entry(CalledMessage(s.call), LogSpecOf(s).value))] else []
  }

  /** The getter call the notification handler makes before the body. */
  function BeforePart(s: Scope, w: World): (r: seq<Event>)
    ensures forall e :: e in r ==> e.Wrote? || e.Executed?
  {
    if NotificationApplies(s, w) && Notifies(s)
    then ReadEvents(s, PropertyOf(s).value, ValueOf(w.values, PropertyName(s.call.member)))
    else []
  }

  /** The getter call the notification handler makes after the body. */
  function AfterPart(s: Scope, w: World): (r: seq<Event>)
    ensures forall e :: e in r ==> e.Wrote? || e.Executed?
  {
    if NotificationApplies(s, w) && Notifies(s) then ReadEvents(s, PropertyOf(s).value, NewValue(s, w)) else []
  }

  function FiredPart(s: Scope, w: World): (r: seq<Event>)
    ensures forall e :: e in r ==> e.Fired?
  {
    if NotifyFires(s, w)
    then FiredEvents(s.listeners, PropertyName(s.call.member), ListenerPlacement(s.host))
    else []
  }

  /** The getter call the persistence handler makes before writing. */
  function StoreReadPart(s: Scope, w: World): (r: seq<Event>)
    ensures forall e :: e in r ==> e.Wrote? || e.Executed?
  {
    if Persists(s, w) then ReadEvents(s, PropertyOf(s).value, NewValue(s, w)) else []
  }

  function StoredPart(s: Scope, w: World): (r: seq<Event>)
    ensures forall e :: e in r ==> e.Stored?
  {
    if Persists(s, w) then [Stored(PersistedId(s).value, NewValue(s, w))] else []
  }

  function CompletePart(s: Scope, w: World): (r: seq<Event>)
    ensures forall e :: e in r ==> e.Wrote?
  {
    if LogsCall(s, w) && LogSpecOf(s).value.timeMethodExecution
    then [Wrote(Entry(CompleteMessage(s.call, TargetResult(s.call, w.values)), LogSpecOf(s).value))]
    else []
  }

  /** What the notification handler records around the body: a read, the
      body, a read, and the listeners when the value changed. */
  function NotifyEvents(s: Scope, w: World): (r: seq<Event>)
    ensures forall e :: e in r ==> !e.Stored? && !e.Scheduled? && !e.SeedNotified? && !e.SeedFailed?
  {
    BeforePart(s, w) + [Executed(s.call.member.name)] + AfterPart(s, w) + FiredPart(s, w)
  }

  /** What the two inner handlers record: the notification handler's events,
      then the persistence handler's read and store write. */
  function BodyEvents(s: Scope, w: World): (r: seq<Event>)
    ensures forall e :: e in r ==> !e.Scheduled? && !e.SeedNotified? && !e.SeedFailed?
  {
    NotifyEvents(s, w) + StoreReadPart(s, w) + StoredPart(s, w)
  }

  /** The scope the rest of the chain runs in once the threading handler has
      placed it. */
  function InnerScope(s: Scope, w: World): Scope
  {
    if ThreadingApplies(s, w) then OnThread(s, ThreadingPlacement(s)) else s
  }

  /** The events of one intercepted call, in order: the hand-off to a
      threading strategy, the call message, the body with the getter calls,
      notifications and store write around it, the completion message. */
  function CallEvents(s: Scope, w: World): seq<Event>
  {
    SchedulePart(s, w) + CalledPart(s, w) + BodyEvents(InnerScope(s, w), w) + CompletePart(s, w)
  }

  /** The notification handler reads the property, runs the body, reads it
      again and notifies the listeners. */
  lemma NotifierEvents(s: Scope, w: World)
    ensures Run([NotificationHandler], s, w).world.trace == w.trace + NotifyEvents(s, w)
  {
    var tail: seq<Handler> := [];
    assert [NotificationHandler][1..] == tail;
    if NotificationApplies(s, w) && Notifies(s) {
      var w1 := Mark(w, NotificationKey);
      ReadCounts(s, w1);
      var before := GetValue(s, PropertyOf(s).value, w1);
      var inner := Run(tail, s, before.world);
      assert inner == Target(s, before.world);
      ReadCounts(s, inner.world);
      var after := GetValue(s, PropertyOf(s).value, inner.world);
      assert before.world.trace == w.trace + BeforePart(s, w);
      assert after.world.trace == before.world.trace + [Executed(s.call.member.name)] + AfterPart(s, w);
      assert (before.result != after.result && CanFire(s)) == NotifyFires(s, w);
      assert Run([NotificationHandler], s, w).world.trace == after.world.trace + FiredPart(s, w);
      Regroup(w.trace, BeforePart(s, w), [Executed(s.call.member.name)], AfterPart(s, w), FiredPart(s, w));
    } else {
      assert NotifyEvents(s, w) == [Executed(s.call.member.name)];
      var w' := if NotificationApplies(s, w) then Mark(w, NotificationKey) else w;
      assert Run([NotificationHandler], s, w) == Run(tail, s, w');
    }
  }

  /** The persistence handler around the notification handler: its read and
      store write follow the notifications. */
  lemma InnerEvents(s: Scope, w: World)
    ensures Run([PersistenceHandler, NotificationHandler], s, w).world.trace == w.trace + BodyEvents(s, w)
  {
    var tail := [NotificationHandler];
    assert [PersistenceHandler, NotificationHandler][1..] == tail;
    assert Run([PersistenceHandler, NotificationHandler], s, w) == PersistenceIntercept(tail, s, w);
    NotifierEvents(s, w);
    StoreAfter(s, w);
    Grouped3(w.trace, NotifyEvents(s, w), StoreReadPart(s, w), StoredPart(s, w),
             PersistenceIntercept(tail, s, w).world.trace);
  }

  /** The persistence handler's read and store write come after everything
      the notification handler records. */
  lemma StoreAfter(s: Scope, w: World)
    ensures var tail := [NotificationHandler];
      PersistenceIntercept(tail, s, w).world.trace
        == Run(tail, s, w).world.trace + StoreReadPart(s, w) + StoredPart(s, w)
  {
    var tail := [NotificationHandler];
    RunMarked(tail, s, w);
    RunFrame(tail, s, w);
    var inner := Run(tail, s, w);
    if Persists(s, w) {
      ReadCounts(s, Mark(inner.world, PersistenceKey));
    }
  }

  /** The events of the inner handlers depend on the world only through the
      property values, the seeding flags and the two keys. */
  lemma SameParts(s: Scope, w: World, w': World)
    requires w'.values == w.values && w'.seeding == w.seeding
    requires NotificationKey in w'.context <==> NotificationKey in w.context
    requires PersistenceKey in w'.context <==> PersistenceKey in w.context
    ensures BodyEvents(s, w') == BodyEvents(s, w)
  {
  }

  /** The logging handler brackets the inner handlers' events between its two
      messages. */
  lemma LoggedEvents(s: Scope, w: World)
    ensures Run([LoggingHandler, PersistenceHandler, NotificationHandler], s, w).world.trace
            == w.trace + CalledPart(s, w) + BodyEvents(s, w) + CompletePart(s, w)
  {
    if LogSpecOf(s).Some? && LoggingKey !in w.context {
      LoggingTaken(s, w);
    } else {
      InnerEvents(s, w);
    }
  }

  /** The world the logging handler hands on: the key added and the call
      message written. */
  function Logging(s: Scope, w: World): World
    requires LogSpecOf(s).Some?
  {
    Write(s, Mark(w, LoggingKey), Entry(CalledMessage(s.call), LogSpecOf(s).value))
  }

  /** The logging handler's own branch: the call message, the inner events,
      the completion message. */
  lemma LoggingTaken(s: Scope, w: World)
    requires LogSpecOf(s).Some? && LoggingKey !in w.context
    ensures LoggingIntercept([PersistenceHandler, NotificationHandler], s, w).world.trace
            == w.trace + CalledPart(s, w) + BodyEvents(s, w) + CompletePart(s, w)
  {
    var w1 := Logging(s, w);
    LoggingParts(s, w);
    LoggingBracket(s, w);
    InnerEvents(s, w1);
  }

  /** The call message leaves the inner handlers' events as they were. */
  lemma LoggingParts(s: Scope, w: World)
    requires LogSpecOf(s).Some? && LoggingKey !in w.context
    ensures var w1 := Logging(s, w);
      w1.trace == w.trace + CalledPart(s, w) && BodyEvents(s, w1) == BodyEvents(s, w)
  {
    assert Logging(s, w).context == w.context + [LoggingKey];
    SameParts(s, w, Logging(s, w));
  }

  /** The completion message follows whatever the rest of the chain
      records. */
  lemma LoggingBracket(s: Scope, w: World)
    requires LogSpecOf(s).Some? && LoggingKey !in w.context
    ensures LoggingIntercept([PersistenceHandler, NotificationHandler], s, w).world.trace
            == Run([PersistenceHandler, NotificationHandler], s, Logging(s, w)).world.trace + CompletePart(s, w)
  {
    RunResult([PersistenceHandler, NotificationHandler], s, Logging(s, w));
  }

  /** After the hand-off to a threading strategy the two log messages are
      the ones the caller's thread would have written. */
  lemma ThreadedMessages(s: Scope, w: World)
    requires ThreadingApplies(s, w)
    ensures var s', w' := OnThread(s, ThreadingPlacement(s)), Scheduling(w, ThreadingPlacement(s));
      CalledPart(s', w') == CalledPart(s, w) && CompletePart(s', w') == CompletePart(s, w)
  {
    var s', w' := OnThread(s, ThreadingPlacement(s)), Scheduling(w, ThreadingPlacement(s));
    assert w'.context == w.context + [ThreadKey];
    assert LogSpecOf(s') == LogSpecOf(s);
  }

  /** ... and the inner handlers see the world as the caller left it. */
  lemma ThreadedBody(s: Scope, w: World)
    requires ThreadingApplies(s, w)
    ensures var s', w' := OnThread(s, ThreadingPlacement(s)), Scheduling(w, ThreadingPlacement(s));
      BodyEvents(s', w') == BodyEvents(s', w)
  {
    var s', w' := OnThread(s, ThreadingPlacement(s)), Scheduling(w, ThreadingPlacement(s));
    assert w'.context == w.context + [ThreadKey];
    SameParts(s', w, w');
  }

  lemma Regroup(t: seq<Event>, a: seq<Event>, b: seq<Event>, c: seq<Event>, d: seq<Event>)
    ensures t + a + b + c + d == t + (a + b + c + d)
  {
  }

  /** When a threading strategy takes the call, the rest of the chain
      produces the events of CallEvents after the hand-off. */
  lemma ThreadedEvents(s: Scope, w: World)
    requires ThreadingApplies(s, w)
    ensures ThreadingIntercept([LoggingHandler, PersistenceHandler, NotificationHandler], s, w).world.trace
      == w.trace + CallEvents(s, w)
  {
    var s', w' := InnerScope(s, w), Scheduling(w, ThreadingPlacement(s));
    ThreadedMessages(s, w);
    ThreadedBody(s, w);
    LoggedEvents(s', w');
    assert w'.trace == w.trace + SchedulePart(s, w);
    Regroup(w.trace, SchedulePart(s, w), CalledPart(s, w), BodyEvents(s', w), CompletePart(s, w));
  }

  lemma UnthreadedParts(s: Scope, w: World)
    requires !ThreadingApplies(s, w)
    ensures CallEvents(s, w) == CalledPart(s, w) + BodyEvents(s, w) + CompletePart(s, w)
  {
    var empty: seq<Event> := [];
    assert SchedulePart(s, w) == empty && InnerScope(s, w) == s;
    assert empty + CalledPart(s, w) == CalledPart(s, w);
  }

  lemma Grouped3(t: seq<Event>, a: seq<Event>, b: seq<Event>, c: seq<Event>, x: seq<Event>)
    requires x == t + a + b + c
    ensures x == t + (a + b + c)
  {
  }

  /** Otherwise the logging handler's events follow directly. */
  lemma UnthreadedEvents(s: Scope, w: World)
    requires !ThreadingApplies(s, w)
    ensures ThreadingIntercept([LoggingHandler, PersistenceHandler, NotificationHandler], s, w).world.trace
      == w.trace + CallEvents(s, w)
  {
    var rest := [LoggingHandler, PersistenceHandler, NotificationHandler];
    assert ThreadingIntercept(rest, s, w) == Run(rest, s, w);
    UnthreadedParts(s, w);
    LoggedEvents(s, w);
    Grouped3(w.trace, CalledPart(s, w), BodyEvents(s, w), CompletePart(s, w), Run(rest, s, w).world.trace);
  }

  /** CallHandler.Invoke produces exactly the events of CallEvents, in that
      order, after the events already recorded. */
  lemma InvokeEvents(s: Scope, w: World)
    ensures Invoke(s, w).world.trace == w.trace + CallEvents(s, w)
  {
    assert CallHandlerChain[1..] == [LoggingHandler, PersistenceHandler, NotificationHandler];
    if ThreadingApplies(s, w) {
      ThreadedEvents(s, w);
    } else {
      UnthreadedEvents(s, w);
    }
  }

  // ---------------------------------------------------------------------
  // Consequences for CallHandler.Invoke

  /** The caller gets null when a threading strategy takes the call, and
      the member's own return value otherwise. */
  lemma InvokeResult(s: Scope, w: World)
    ensures Invoke(s, w).result == if ThreadingApplies(s, w) then Null else TargetResult(s.call, w.values)
  {
    RunResult(CallHandlerChain, s, w);
  }

  /** Starting from the fresh context of a new call, every key ends up in the
      context at most once, and exactly the keys of the handlers that take
      the call. */
  lemma InvokeContext(s: Scope, w: World)
    requires w.context == []
    ensures var after := Invoke(s, w).world.context;
      NoRepeats(after)
      && (forall k :: k in after ==> k in HandlerKeys)
      && (ThreadKey in after <==> WantsThreading(s.call.member))
      && (LoggingKey in after <==> LogSpecOf(s).Some?)
      && (PersistenceKey in after <==> HandlesPersistence(s.call.member))
      && (NotificationKey in after <==> HandlesNotification(s.call.member))
  {
    RunGrown(CallHandlerChain, s, w);
    RunMarked(CallHandlerChain, s, w);
  }

  /** With logging on, the call message is the first event after the
      hand-off to a threading strategy, and the completion message of a
      timed call is the last event. */
  lemma InvokeLogOrder(s: Scope, w: World)
    requires LogsCall(s, w)
    ensures var t, n := Invoke(s, w).world.trace, |w.trace| + |SchedulePart(s, w)|;
      n < |t| && t[n] == Wrote(Entry(CalledMessage(s.call), LogSpecOf(s).value))
      && (LogSpecOf(s).value.timeMethodExecution ==>
            t[|t| - 1] == Wrote(Entry(CompleteMessage(s.call, TargetResult(s.call, w.values)), LogSpecOf(s).value)))
  {
    InvokeEvents(s, w);
  }

  /** In p + q, when no event of p from index lo on is a store write and no
      event of q is a notification, every notification from lo on comes
      before every store write from lo on. */
  lemma Separated(a: seq<Event>, x: seq<Event>, q: seq<Event>)
    requires forall e :: e in x ==> !e.Stored?
    requires forall e :: e in q ==> !e.Fired?
    ensures var t := a + x + q;
      forall i, j :: |a| <= i < |t| && |a| <= j < |t| && t[i].Fired? && t[j].Stored? ==> i < j
  {
  }

  lemma Assoc(a: seq<Event>, b: seq<Event>, c: seq<Event>)
    ensures a + b + c == a + (b + c)
  {
  }

  /** The store is written after every listener has been notified. */
  lemma InvokeStoresLast(s: Scope, w: World)
    ensures var t := Invoke(s, w).world.trace;
      forall i, j :: |w.trace| <= i < |t| && |w.trace| <= j < |t| && t[i].Fired? && t[j].Stored? ==> i < j
  {
    InvokeEvents(s, w);
    var s' := InnerScope(s, w);
    var x := SchedulePart(s, w) + CalledPart(s, w) + (NotifyEvents(s', w) + StoreReadPart(s', w));
    var q := StoredPart(s', w) + CompletePart(s, w);
    Assoc(SchedulePart(s, w) + CalledPart(s, w), NotifyEvents(s', w) + StoreReadPart(s', w), StoredPart(s', w));
    Assoc(x, StoredPart(s', w), CompletePart(s, w));
    assert forall e :: e in x ==> !e.Stored?;
    Assoc(w.trace, x, q);
    Separated(w.trace, x, q);
  }
}
