/** Extensions.ValidateConfiguration: the configuration checker that walks
    the distinct types registered in the container and reports, as plain
    strings, every use of the interception annotations that cannot work.

    The diagnostics are first computed as structured values (which rule,
    which member, which type) by the specification functions below; the
    imperative ValidateConfiguration method builds the list of strings the
    way the library does, one append per report inside its loops, and is
    proved to produce exactly the messages of those diagnostics. */
module Validation {
  import opened Metadata
  import opened Text

  /** Accessibility of a method or accessor as reflection reports it. */
  datatype Visibility = Public | Protected | Internal | ProtectedInternal | Private

  /** A property getter or setter. */
  datatype Accessor = Accessor(visibility: Visibility, isVirtual: bool, isFinal: bool)

  /** A member of a registered type.  `declared` is true when the type itself
      declares it (BindingFlags.DeclaredOnly), `own` are the interception
      annotations attached to the member itself (inherit = false) and
      `annotations` those found with inherit = true. */
  datatype Member =
    | Method(
        name: string,
        declared: bool,
        own: seq<Annotation>,
        annotations: seq<Annotation>,
        visibility: Visibility,
        isVirtual: bool,
        returnsVoid: bool)
    | Property(
        name: string,
        declared: bool,
        own: seq<Annotation>,
        annotations: seq<Annotation>,
        getter: Option<Accessor>,
        setter: Option<Accessor>)

  /** A type a registration maps to: its short name (Type.Name), its
      namespace-qualified name (Type.ToString()), whether it carries
      InterceptClass itself, whether it carries it through a base class,
      whether it implements INotifyPropertyChanged, and its instance members
      (public and non-public, own and inherited). */
  datatype TypeDesc = TypeDesc(
    name: string,
    fullName: string,
    hasOwnInterceptClass: bool,
    inheritsInterceptClass: bool,
    implementsNotify: bool,
    members: seq<Member>)

  /** The eight per-member rules, numbered 2 to 9 in the order the validator
      runs them; rule 1 is the missing class marker. */
  datatype Rule =
    | PrivateMethod
    | NonVirtualMethod
    | PrivateProperty
    | NonVirtualProperty
    | NotifyWithoutInterface
    | NotifyWithoutSetter
    | NotifyPrivateSetter
    | ThreadingNonVoid

  function Rank(rule: Rule): (k: nat)
    ensures 2 <= k <= 9
  {
    match rule
    case PrivateMethod => 2
    case NonVirtualMethod => 3
    case PrivateProperty => 4
    case NonVirtualProperty => 5
    case NotifyWithoutInterface => 6
    case NotifyWithoutSetter => 7
    case NotifyPrivateSetter => 8
    case ThreadingNonVoid => 9
  }

  /** A report of rules 2 to 9: the rule, the member's name and the
      namespace-qualified name of the type. */
  datatype Violation = Violation(rule: Rule, memberName: string, typeName: string)

  /** A composite format string, split at its format items: literal text,
      "{0}" or "{1}". */
  datatype Piece = Literal(text: string) | Arg0 | Arg1

  /** string.Format(template, arg0, arg1) */
  function Format(template: seq<Piece>, arg0: string, arg1: string): string
  {
    if template == [] then ""
    else
      var first := match template[0]
        case Literal(text) => text
        case Arg0 => arg0
        case Arg1 => arg1;
      first + Format(template[1..], arg0, arg1)
  }

  /** The format strings of the nine rules. */
  const MarkerFormat: seq<Piece> :=
    [Literal("Class "), Arg0, Literal(" has intercept methods but no InterceptClass attribute defined.")]
  const PrivateMethodFormat: seq<Piece> :=
    [Literal("Private method "), Arg0, Literal(" in type "), Arg1,
     Literal(" will not be intercepted. Change method to be at least protected")]
  const NonVirtualMethodFormat: seq<Piece> :=
    [Literal("Non virtual method "), Arg0, Literal(" in type "), Arg1,
     Literal(" will not be intercepted. Mark method as virtual")]
  const PrivatePropertyFormat: seq<Piece> :=
    [Literal("Private property "), Arg0, Literal(" in type "), Arg1,
     Literal(" will not be intercepted. Change property to be at least protected")]
  const NonVirtualPropertyFormat: seq<Piece> :=
    [Literal("Non virtual property "), Arg0, Literal(" in type "), Arg1,
     Literal(" will not be intercepted. Mark property as virtual")]
  const NotifyWithoutInterfaceFormat: seq<Piece> :=
    [Literal("NotifyPropertyChanged used on "), Arg0, Literal(" in type "), Arg1,
     Literal(" which does not implement INotifyPropertyChanged")]
  const NotifyWithoutSetterFormat: seq<Piece> :=
    [Literal("Property "), Arg0, Literal(" in type "), Arg1,
     Literal(" will not raise property changed notifications. Change property to at least have a setter")]
  const NotifyPrivateSetterFormat: seq<Piece> :=
    [Literal("Private property "), Arg0, Literal(" in type "), Arg1,
     Literal(" will not raise property changed notifications. Change property to be at least protected")]
  const ThreadingNonVoidFormat: seq<Piece> :=
    [Literal("Method "), Arg0, Literal(" in type "), Arg1,
     Literal(" will not return any object. Change method to return type of Void")]

  /** The format string of a rule from 2 to 9. */
  function Template(rule: Rule): seq<Piece>
  {
    match rule
    case PrivateMethod => PrivateMethodFormat
    case NonVirtualMethod => NonVirtualMethodFormat
    case PrivateProperty => PrivatePropertyFormat
    case NonVirtualProperty => NonVirtualPropertyFormat
    case NotifyWithoutInterface => NotifyWithoutInterfaceFormat
    case NotifyWithoutSetter => NotifyWithoutSetterFormat
    case NotifyPrivateSetter => NotifyPrivateSetterFormat
    case ThreadingNonVoid => ThreadingNonVoidFormat
  }

  /** The rule-1 message; it names the type by its short name. */
  function MarkerMessage(typeName: string): string
  {
    Format(MarkerFormat, typeName, "")
  }

  /** The message of a report of rules 2 to 9. */
  function Message(v: Violation): string
  {
    Format(Template(v.rule), v.memberName, v.typeName)
  }

  /** The rule-1 messages for a list of type names, in order. */
  function MarkerMessages(names: seq<string>): (texts: seq<string>)
    ensures |texts| == |names|
  {
    seq(|names|, i requires 0 <= i < |names| => MarkerMessage(names[i]))
  }

  lemma MarkerMessagesSnoc(names: seq<string>, name: string)
    ensures MarkerMessages(names + [name]) == MarkerMessages(names) + [MarkerMessage(name)]
  {
    var l, r := MarkerMessages(names + [name]), MarkerMessages(names) + [MarkerMessage(name)];
    forall k | 0 <= k < |l| ensures l[k] == r[k] {
      if k < |names| {
        assert (names + [name])[k] == names[k];
      }
    }
    assert l == r;
  }

  /** The messages of a list of reports, in order. */
  function Messages(vs: seq<Violation>): (texts: seq<string>)
    ensures |texts| == |vs|
  {
    seq(|vs|, i requires 0 <= i < |vs| => Message(vs[i]))
  }

  /** Messages distributes over concatenation. */
  lemma MessagesAppend(a: seq<Violation>, b: seq<Violation>)
    ensures Messages(a + b) == Messages(a) + Messages(b)
  {
    var l, r := Messages(a + b), Messages(a) + Messages(b);
    forall k | 0 <= k < |l| ensures l[k] == r[k] {
      if k < |a| {
        assert (a + b)[k] == a[k];
      } else {
        assert (a + b)[k] == b[k - |a|];
      }
    }
    assert l == r;
  }

  lemma MessagesSnoc(vs: seq<Violation>, v: Violation)
    ensures Messages(vs + [v]) == Messages(vs) + [Message(v)]
  {
    MessagesAppend(vs, [v]);
    assert Messages([v]) == [Message(v)];
  }

  // ---------------------------------------------------------------------
  // The filters of the nine loops

  /** InterceptClass found with inherit = true. */
  predicate Interceptable(t: TypeDesc)
  {
    t.hasOwnInterceptClass || t.inheritsInterceptClass
  }

  /** Some interception annotation is attached to the member (inherit = true). */
  predicate Intercepted(m: Member)
  {
    |m.annotations| > 0
  }

  /** The type itself declares a member with an interception annotation of
      its own (DeclaredOnly, inherit = false). */
  predicate DeclaresIntercepted(t: TypeDesc)
  {
    exists m :: m in t.members && m.declared && |m.own| > 0
  }

  /** Rule 1 applies to the type. */
  predicate NeedsMarker(t: TypeDesc)
  {
    !t.hasOwnInterceptClass && DeclaresIntercepted(t)
  }

  predicate HasThreading(anns: seq<Annotation>)
  {
    exists a :: a in anns && a.ThreadingStrategy?
  }

  /** Whether the loop of `rule` reports member m of type t.  The
      private-property rule is stated for properties that have a getter;
      see PrivatePropertyAsWritten for what the library does with one that
      has none. */
  predicate Reports(rule: Rule, t: TypeDesc, m: Member)
  {
    match rule
    case PrivateMethod => m.Method? && Intercepted(m) && m.visibility == Private
    case NonVirtualMethod => m.Method? && Intercepted(m) && !m.isVirtual
    case PrivateProperty =>
      m.Property? && Intercepted(m) && m.getter.Some? && m.getter.value.visibility == Private
    case NonVirtualProperty =>
      // GetGetMethod() only sees a public getter
      m.Property? && Intercepted(m) && m.getter.Some? && m.getter.value.visibility == Public
      && !(m.getter.value.isVirtual && !m.getter.value.isFinal)
    case NotifyWithoutInterface =>
      !t.implementsNotify && m.Property? && NotifyPropertyChanged in m.annotations
    case NotifyWithoutSetter =>
      m.Property? && NotifyPropertyChanged in m.annotations && m.setter.None?
    case NotifyPrivateSetter =>
      m.Property? && NotifyPropertyChanged in m.annotations
      && m.setter.Some? && m.setter.value.visibility == Private
    case ThreadingNonVoid => m.Method? && HasThreading(m.annotations) && !m.returnsVoid
  }

  // ---------------------------------------------------------------------
  // Specification of the output

  /** Enumerable.Distinct: the first occurrence of every type, in order. */
  function Distinct(ts: seq<TypeDesc>): (r: seq<TypeDesc>)
    ensures forall t :: t in r <==> t in ts
    ensures forall i, j :: 0 <= i < j < |r| ==> r[i] != r[j]
  {
    if ts == [] then []
    else
      var r0 := Distinct(ts[..|ts| - 1]);
      assert forall t :: t in ts <==> t in ts[..|ts| - 1] || t == ts[|ts| - 1];
      if ts[|ts| - 1] in r0 then r0 else r0 + [ts[|ts| - 1]]
  }

  /** The short names of the types the first loop reports (rule 1). */
  function MissingMarkers(ts: seq<TypeDesc>): (names: seq<string>)
  {
    if ts == [] then []
    else
      var t := ts[|ts| - 1];
      MissingMarkers(ts[..|ts| - 1]) + (if NeedsMarker(t) then [t.name] else [])
  }

  /** The reports one per-member loop makes for type t, walking `ms`. */
  function RuleFindings(rule: Rule, t: TypeDesc, ms: seq<Member>): (vs: seq<Violation>)
    ensures forall v :: v in vs ==> v.rule == rule && v.typeName == t.fullName
  {
    if ms == [] then []
    else
      var m := ms[|ms| - 1];
      RuleFindings(rule, t, ms[..|ms| - 1])
      + (if Reports(rule, t, m) then [Violation(rule, m.name, t.fullName)] else [])
  }

  /** The reports of the eight per-member loops for one type, in the order
      the loops run.  The sixth loop only runs for a type that does not
      implement INotifyPropertyChanged. */
  function TypeFindings(t: TypeDesc): seq<Violation>
  {
    RuleFindings(PrivateMethod, t, t.members)
    + RuleFindings(NonVirtualMethod, t, t.members)
    + RuleFindings(PrivateProperty, t, t.members)
    + RuleFindings(NonVirtualProperty, t, t.members)
    + (if t.implementsNotify then [] else RuleFindings(NotifyWithoutInterface, t, t.members))
    + RuleFindings(NotifyWithoutSetter, t, t.members)
    + RuleFindings(NotifyPrivateSetter, t, t.members)
    + RuleFindings(ThreadingNonVoid, t, t.members)
  }

  /** The reports of the second outer loop. */
  function Violations(ts: seq<TypeDesc>): seq<Violation>
  {
    if ts == [] then []
    else
      var t := ts[|ts| - 1];
      Violations(ts[..|ts| - 1]) + (if Interceptable(t) then TypeFindings(t) else [])
  }

  /** Everything the validator reports for a list of registrations, as
      text: the rule-1 messages, then those of rules 2 to 9. */
  function Report(registrations: seq<TypeDesc>): seq<string>
  {
    var ts := Distinct(registrations);
    MarkerMessages(MissingMarkers(ts)) + Messages(Violations(ts))
  }

  // ---------------------------------------------------------------------
  // The validator

  /** ValidateConfiguration: the list of failure messages, and the messages
      handed to the logger, which are the same ones when logging is enabled
      and none otherwise. */
  method ValidateConfiguration(registrations: seq<TypeDesc>, loggingEnabled: bool)
    returns (failures: seq<string>, written: seq<string>)
    ensures failures == Report(registrations)
    ensures written == (if loggingEnabled then failures else [])
  {
    var types := Distinct(registrations);
    failures, written := ReportMissingMarkers(types, loggingEnabled);
    failures, written := ReportInterceptable(types, loggingEnabled, failures, written);
  }

  /** The first outer loop: rule 1 for every type without its own
      InterceptClass marker. */
  method ReportMissingMarkers(types: seq<TypeDesc>, loggingEnabled: bool)
    returns (failures: seq<string>, written: seq<string>)
    ensures failures == MarkerMessages(MissingMarkers(types))
    ensures written == (if loggingEnabled then failures else [])
  {
    failures, written := [], [];
    ghost var names: seq<string> := [];
    var i := 0;
    while i < |types|
      invariant 0 <= i <= |types|
      invariant names == MissingMarkers(types[..i])
      invariant failures == MarkerMessages(names)
      invariant written == (if loggingEnabled then failures else [])
    {
      var t := types[i];
      MissingMarkersStep(types, i);
      if !t.hasOwnInterceptClass && DeclaresIntercepted(t) {
        var message := MarkerMessage(t.name);
        MarkerMessagesSnoc(names, t.name);
        names := names + [t.name];
        failures := failures + [message];
        if loggingEnabled {
          written := written + [message];
        }
      }
      i := i + 1;
    }
    assert types[..i] == types;
  }

  /** The second outer loop: rules 2 to 9 for every type that carries
      InterceptClass, own or inherited. */
  method ReportInterceptable(
    types: seq<TypeDesc>, loggingEnabled: bool, failures: seq<string>, written: seq<string>)
    returns (failures': seq<string>, written': seq<string>)
    requires written == (if loggingEnabled then failures else [])
    ensures failures' == failures + Messages(Violations(types))
    ensures written' == (if loggingEnabled then failures' else [])
  {
    failures', written' := failures, written;
    ghost var found: seq<Violation> := [];
    var i := 0;
    while i < |types|
      invariant 0 <= i <= |types|
      invariant found == Violations(types[..i])
      invariant failures' == failures + Messages(found)
      invariant loggingEnabled ==> written' == failures'
      invariant !loggingEnabled ==> written' == []
    {
      var t := types[i];
      ViolationsStep(types, i);
      if Interceptable(t) {
        ghost var before := failures';
        failures', written' := ReportType(t, loggingEnabled, failures', written');
        found := Accumulate(failures, found, TypeFindings(t), before, failures');
      }
      i := i + 1;
    }
    assert types[..i] == types;
  }

  /** The bookkeeping of one more batch of reports appended to the list. */
  lemma Accumulate(
    initial: seq<string>, found: seq<Violation>, more: seq<Violation>, before: seq<string>, after: seq<string>)
    returns (found': seq<Violation>)
    requires before == initial + Messages(found)
    requires after == before + Messages(more)
    ensures found' == found + more
    ensures after == initial + Messages(found')
  {
    found' := found + more;
    MessagesAppend(found, more);
  }

  lemma MissingMarkersStep(ts: seq<TypeDesc>, i: nat)
    requires i < |ts|
    ensures NeedsMarker(ts[i]) ==> MissingMarkers(ts[..i + 1]) == MissingMarkers(ts[..i]) + [ts[i].name]
    ensures !NeedsMarker(ts[i]) ==> MissingMarkers(ts[..i + 1]) == MissingMarkers(ts[..i])
  {
    assert ts[..i + 1][..i] == ts[..i];
  }

  lemma ViolationsStep(ts: seq<TypeDesc>, i: nat)
    requires i < |ts|
    ensures Interceptable(ts[i]) ==> Violations(ts[..i + 1]) == Violations(ts[..i]) + TypeFindings(ts[i])
    ensures !Interceptable(ts[i]) ==> Violations(ts[..i + 1]) == Violations(ts[..i])
  {
    assert ts[..i + 1][..i] == ts[..i];
  }

  /** One per-member loop: appends the message of every member of t the rule
      reports, logging each one when logging is enabled. */
  method ReportRule(
    rule: Rule, t: TypeDesc, loggingEnabled: bool, failures: seq<string>, written: seq<string>)
    returns (failures': seq<string>, written': seq<string>)
    requires written == (if loggingEnabled then failures else [])
    ensures failures' == failures + Messages(RuleFindings(rule, t, t.members))
    ensures written' == (if loggingEnabled then failures' else [])
  {
    failures', written' := failures, written;
    ghost var found: seq<Violation> := [];
    var j := 0;
    while j < |t.members|
      invariant 0 <= j <= |t.members|
      invariant found == RuleFindings(rule, t, t.members[..j])
      invariant failures' == failures + Messages(found)
      invariant loggingEnabled ==> written' == failures'
      invariant !loggingEnabled ==> written' == written
    {
      var m := t.members[j];
      RuleFindingsStep(rule, t, t.members, j);
      if Reports(rule, t, m) {
        var v := Violation(rule, m.name, t.fullName);
        var message := Message(v);
        MessagesSnoc(found, v);
        found := found + [v];
        failures' := failures' + [message];
        if loggingEnabled {
          written' := written' + [message];
        }
      }
      j := j + 1;
    }
    assert t.members[..j] == t.members;
  }

  /** The eight per-member loops for one interceptable type. */
  method ReportType(t: TypeDesc, loggingEnabled: bool, failures: seq<string>, written: seq<string>)
    returns (failures': seq<string>, written': seq<string>)
    requires written == (if loggingEnabled then failures else [])
    ensures failures' == failures + Messages(TypeFindings(t))
    ensures written' == (if loggingEnabled then failures' else [])
  {
    failures', written' := ReportRule(PrivateMethod, t, loggingEnabled, failures, written);
    ghost var found := RuleFindings(PrivateMethod, t, t.members);
    failures', written', found := Extend(NonVirtualMethod, t, loggingEnabled, failures, found, failures', written');
    failures', written', found := Extend(PrivateProperty, t, loggingEnabled, failures, found, failures', written');
    failures', written', found := Extend(NonVirtualProperty, t, loggingEnabled, failures, found, failures', written');
    if !t.implementsNotify {
      failures', written', found := Extend(NotifyWithoutInterface, t, loggingEnabled, failures, found, failures', written');
    } else {
      assert found + [] == found;
    }
    failures', written', found := Extend(NotifyWithoutSetter, t, loggingEnabled, failures, found, failures', written');
    failures', written', found := Extend(NotifyPrivateSetter, t, loggingEnabled, failures, found, failures', written');
    failures', written', found := Extend(ThreadingNonVoid, t, loggingEnabled, failures, found, failures', written');
  }

  /** Runs one more per-member loop after those whose reports are `found`. */
  method Extend(
    rule: Rule, t: TypeDesc, loggingEnabled: bool, initial: seq<string>, ghost found: seq<Violation>,
    failures: seq<string>, written: seq<string>)
    returns (failures': seq<string>, written': seq<string>, ghost found': seq<Violation>)
    requires failures == initial + Messages(found)
    requires written == (if loggingEnabled then failures else [])
    ensures found' == found + RuleFindings(rule, t, t.members)
    ensures failures' == initial + Messages(found')
    ensures written' == (if loggingEnabled then failures' else [])
  {
    failures', written' := ReportRule(rule, t, loggingEnabled, failures, written);
    found' := found + RuleFindings(rule, t, t.members);
    MessagesAppend(found, RuleFindings(rule, t, t.members));
  }

  lemma RuleFindingsStep(rule: Rule, t: TypeDesc, ms: seq<Member>, j: nat)
    requires j < |ms|
    ensures Reports(rule, t, ms[j]) ==>
      RuleFindings(rule, t, ms[..j + 1]) == RuleFindings(rule, t, ms[..j]) + [Violation(rule, ms[j].name, t.fullName)]
    ensures !Reports(rule, t, ms[j]) ==>
      RuleFindings(rule, t, ms[..j + 1]) == RuleFindings(rule, t, ms[..j])
  {
    assert ms[..j + 1][..j] == ms[..j];
  }

  // ---------------------------------------------------------------------
  // Which reports the validator makes

  /** Report v names a member of t that the rule of v reports. */
  ghost predicate Flags(t: TypeDesc, v: Violation)
  {
    v.typeName == t.fullName
    && exists m :: m in t.members && m.name == v.memberName && Reports(v.rule, t, m)
  }

  lemma {:induction false} RuleFindingsIff(rule: Rule, t: TypeDesc, ms: seq<Member>, v: Violation)
    ensures v in RuleFindings(rule, t, ms) <==>
      v.rule == rule && v.typeName == t.fullName
      && exists m :: m in ms && m.name == v.memberName && Reports(rule, t, m)
  {
    if ms != [] {
      var m := ms[|ms| - 1];
      var init := ms[..|ms| - 1];
      RuleFindingsIff(rule, t, init, v);
      assert forall x :: x in ms <==> x in init || x == m;
    }
  }

  /** The reports made for one interceptable type are exactly the pairs of a
      member and a rule that reports it; rule 6 included, since it only
      reports for a type that does not implement INotifyPropertyChanged. */
  lemma TypeFindingsIff(t: TypeDesc, v: Violation)
    ensures v in TypeFindings(t) <==> Flags(t, v)
  {
    var ms := t.members;
    forall rule: Rule
      ensures v in RuleFindings(rule, t, ms) <==>
        v.rule == rule && v.typeName == t.fullName
        && exists m :: m in ms && m.name == v.memberName && Reports(rule, t, m)
    {
      RuleFindingsIff(rule, t, ms, v);
    }
    if Flags(t, v) {
      var m :| m in ms && m.name == v.memberName && Reports(v.rule, t, m);
      assert v in RuleFindings(v.rule, t, ms);
    }
  }

  lemma {:induction false} ViolationsIff(ts: seq<TypeDesc>, v: Violation)
    ensures v in Violations(ts) <==> exists t :: t in ts && Interceptable(t) && Flags(t, v)
  {
    if ts != [] {
      var t := ts[|ts| - 1];
      var init := ts[..|ts| - 1];
      ViolationsIff(init, v);
      TypeFindingsIff(t, v);
      assert forall x :: x in ts <==> x in init || x == t;
    }
  }

  /** Rules 2 to 9: a report is made exactly when some registered type that
      carries InterceptClass, its own or inherited, has a member the rule
      reports. */
  lemma ReportedIff(registrations: seq<TypeDesc>, v: Violation)
    ensures v in Violations(Distinct(registrations)) <==>
      exists t :: t in registrations && Interceptable(t) && Flags(t, v)
  {
    ViolationsIff(Distinct(registrations), v);
  }

  lemma MessageOf(vs: seq<Violation>, k: nat)
    requires k < |vs|
    ensures Message(vs[k]) in Messages(vs)
  {
    assert Messages(vs)[k] == Message(vs[k]);
  }

  /** Each report's message is in the validator's output. */
  lemma ReportedMessage(registrations: seq<TypeDesc>, v: Violation)
    requires v in Violations(Distinct(registrations))
    ensures Message(v) in Report(registrations)
  {
    var ts := Distinct(registrations);
    var vs := Violations(ts);
    var k :| 0 <= k < |vs| && vs[k] == v;
    MessageOf(vs, k);
    assert Report(registrations) == MarkerMessages(MissingMarkers(ts)) + Messages(vs);
  }

  lemma {:induction false} MissingMarkersIff(ts: seq<TypeDesc>, name: string)
    ensures name in MissingMarkers(ts) <==> exists t :: t in ts && NeedsMarker(t) && t.name == name
  {
    if ts != [] {
      var t := ts[|ts| - 1];
      var init := ts[..|ts| - 1];
      MissingMarkersIff(init, name);
      assert forall x :: x in ts <==> x in init || x == t;
    }
  }

  /** Rule 1: a type is named exactly when it has no InterceptClass marker
      of its own and itself declares a member with an interception
      annotation; a marker inherited from a base class does not count, nor
      does an annotated member inherited from one. */
  lemma MarkerIff(registrations: seq<TypeDesc>, name: string)
    ensures name in MissingMarkers(Distinct(registrations)) <==>
      exists t :: t in registrations && !t.hasOwnInterceptClass && DeclaresIntercepted(t) && t.name == name
    ensures name in MissingMarkers(Distinct(registrations)) ==> MarkerMessage(name) in Report(registrations)
  {
    var ts := Distinct(registrations);
    MissingMarkersIff(ts, name);
    if name in MissingMarkers(ts) {
      var names := MissingMarkers(ts);
      var k :| 0 <= k < |names| && names[k] == name;
      assert Report(registrations)[k] == MarkerMessages(names)[k];
    }
  }

  /** A type whose InterceptClass marker is inherited and which declares no
      annotated member of its own gets no rule-1 message, yet rules 2 to 9
      still examine it. */
  lemma InheritedMarker(registrations: seq<TypeDesc>, t: TypeDesc, v: Violation)
    requires t in registrations && !t.hasOwnInterceptClass && t.inheritsInterceptClass
    requires !DeclaresIntercepted(t)
    requires Flags(t, v)
    ensures !NeedsMarker(t)
    ensures v in Violations(Distinct(registrations))
  {
    ReportedIff(registrations, v);
  }

  /** An annotated private, non-virtual method of an interceptable type
      draws both the private-method and the non-virtual-method message. */
  lemma PrivateNonVirtualMethod(registrations: seq<TypeDesc>, t: TypeDesc, m: Member)
    requires t in registrations && Interceptable(t) && m in t.members
    requires m.Method? && Intercepted(m) && m.visibility == Private && !m.isVirtual
    ensures Message(Violation(PrivateMethod, m.name, t.fullName)) in Report(registrations)
    ensures Message(Violation(NonVirtualMethod, m.name, t.fullName)) in Report(registrations)
  {
    ReportedIff(registrations, Violation(PrivateMethod, m.name, t.fullName));
    ReportedIff(registrations, Violation(NonVirtualMethod, m.name, t.fullName));
    ReportedMessage(registrations, Violation(PrivateMethod, m.name, t.fullName));
    ReportedMessage(registrations, Violation(NonVirtualMethod, m.name, t.fullName));
  }

  /** No report of rule 6 for a type that implements INotifyPropertyChanged. */
  lemma NotifyInterfaceImplemented(t: TypeDesc, v: Violation)
    requires t.implementsNotify && v in TypeFindings(t)
    ensures v.rule != NotifyWithoutInterface
  {
    TypeFindingsIff(t, v);
  }

  /** Rules 7 and 8 never both report one property, and a property without
      a getter is reported by neither rule 4 nor rule 5. */
  lemma PropertyRulesExclusive(t: TypeDesc, m: Member)
    ensures !(Reports(NotifyWithoutSetter, t, m) && Reports(NotifyPrivateSetter, t, m))
    ensures m.Property? && m.getter.None? ==>
      !Reports(PrivateProperty, t, m) && !Reports(NonVirtualProperty, t, m)
  {
  }

  /** Registering a type again changes nothing: Distinct keeps the first
      occurrence only. */
  lemma DuplicateRegistration(registrations: seq<TypeDesc>, t: TypeDesc)
    requires t in registrations
    ensures Report(registrations + [t]) == Report(registrations)
  {
    assert (registrations + [t])[..|registrations|] == registrations;
  }

  // ---------------------------------------------------------------------
  // Order of the messages

  /** A message starts with the literal text its format string starts with. */
  lemma FormatLeadingText(template: seq<Piece>, arg0: string, arg1: string)
    requires template != [] && template[0].Literal?
    ensures StartsWith(Format(template, arg0, arg1), template[0].text)
  {
    var head := template[0].text;
    assert Format(template, arg0, arg1)[..|head|] == head;
  }

  /** Every rule-1 message starts with "Class ". */
  lemma MarkerText(name: string)
    ensures StartsWith(MarkerMessage(name), "Class ")
  {
    FormatLeadingText(MarkerFormat, name, "");
  }

  /** No message of rules 2 to 9 starts with "Class ": each of their
      format strings starts with other literal text. */
  lemma ViolationText(v: Violation)
    ensures !StartsWith(Message(v), "Class ")
  {
    var template := Template(v.rule);
    var head := template[0].text;
    FormatLeadingText(template, v.memberName, v.typeName);
    assert head[0] != 'C';
    assert Message(v)[0] == head[0];
  }

  lemma MarkerMessagesText(names: seq<string>, i: nat)
    requires i < |names|
    ensures StartsWith(MarkerMessages(names)[i], "Class ")
  {
    MarkerText(names[i]);
  }

  lemma MessagesText(vs: seq<Violation>, i: nat)
    requires i < |vs|
    ensures !StartsWith(Messages(vs)[i], "Class ")
  {
    ViolationText(vs[i]);
  }

  /** All rule-1 messages come before every other message: a message is a
      rule-1 message exactly when its index is below the number of rule-1
      reports. */
  lemma MarkersFirst(registrations: seq<TypeDesc>)
    ensures forall i :: 0 <= i < |Report(registrations)| ==>
      (StartsWith(Report(registrations)[i], "Class ") <==> i < |MissingMarkers(Distinct(registrations))|)
  {
    var ts := Distinct(registrations);
    var markers, others := MarkerMessages(MissingMarkers(ts)), Messages(Violations(ts));
    var r := Report(registrations);
    assert r == markers + others;
    forall i | 0 <= i < |r|
      ensures StartsWith(r[i], "Class ") <==> i < |markers|
    {
      if i < |markers| {
        assert r[i] == markers[i];
        MarkerMessagesText(MissingMarkers(ts), i);
      } else {
        assert r[i] == others[i - |markers|];
        MessagesText(Violations(ts), i - |markers|);
      }
    }
  }

  /** The rule numbers of a list of reports never decrease. */
  ghost predicate RankOrdered(vs: seq<Violation>)
  {
    forall i, j :: 0 <= i < j < |vs| ==> Rank(vs[i].rule) <= Rank(vs[j].rule)
  }

  lemma AppendRule(vs: seq<Violation>, rule: Rule, more: seq<Violation>)
    requires RankOrdered(vs)
    requires forall v :: v in vs ==> Rank(v.rule) <= Rank(rule)
    requires forall v :: v in more ==> v.rule == rule
    ensures RankOrdered(vs + more)
    ensures forall v :: v in vs + more ==> Rank(v.rule) <= Rank(rule)
  {
    var all := vs + more;
    forall i, j | 0 <= i < j < |all| ensures Rank(all[i].rule) <= Rank(all[j].rule) {
      if j >= |vs| {
        assert all[j] in more;
        if i < |vs| {
          assert all[i] in vs;
        } else {
          assert all[i] in more;
        }
      } else {
        assert all[i] == vs[i] && all[j] == vs[j];
      }
    }
  }

  /** Reports of one rule per block, blocks in rule order. */
  ghost predicate OfRule(vs: seq<Violation>, rule: Rule)
  {
    forall v :: v in vs ==> v.rule == rule
  }

  lemma OrderedBlocks(
    b2: seq<Violation>, b3: seq<Violation>, b4: seq<Violation>, b5: seq<Violation>,
    b6: seq<Violation>, b7: seq<Violation>, b8: seq<Violation>, b9: seq<Violation>)
    requires OfRule(b2, PrivateMethod) && OfRule(b3, NonVirtualMethod)
    requires OfRule(b4, PrivateProperty) && OfRule(b5, NonVirtualProperty)
    requires OfRule(b6, NotifyWithoutInterface) && OfRule(b7, NotifyWithoutSetter)
    requires OfRule(b8, NotifyPrivateSetter) && OfRule(b9, ThreadingNonVoid)
    ensures RankOrdered(b2 + b3 + b4 + b5 + b6 + b7 + b8 + b9)
  {
    AppendRule([], PrivateMethod, b2);
    assert [] + b2 == b2;
    AppendRule(b2, NonVirtualMethod, b3);
    AppendRule(b2 + b3, PrivateProperty, b4);
    AppendRule(b2 + b3 + b4, NonVirtualProperty, b5);
    AppendRule(b2 + b3 + b4 + b5, NotifyWithoutInterface, b6);
    AppendRule(b2 + b3 + b4 + b5 + b6, NotifyWithoutSetter, b7);
    AppendRule(b2 + b3 + b4 + b5 + b6 + b7, NotifyPrivateSetter, b8);
    AppendRule(b2 + b3 + b4 + b5 + b6 + b7 + b8, ThreadingNonVoid, b9);
  }

  /** Within one type the reports follow the order of the rules. */
  lemma TypeFindingsOrdered(t: TypeDesc)
    ensures RankOrdered(TypeFindings(t))
  {
    var ms := t.members;
    OrderedBlocks(
      RuleFindings(PrivateMethod, t, ms), RuleFindings(NonVirtualMethod, t, ms),
      RuleFindings(PrivateProperty, t, ms), RuleFindings(NonVirtualProperty, t, ms),
      if t.implementsNotify then [] else RuleFindings(NotifyWithoutInterface, t, ms),
      RuleFindings(NotifyWithoutSetter, t, ms), RuleFindings(NotifyPrivateSetter, t, ms),
      RuleFindings(ThreadingNonVoid, t, ms));
  }

  // ---------------------------------------------------------------------
  // The private-property loop as written

  /** An annotated property without a getter: the as-written filter of the
      private-property loop dereferences its null GetMethod. */
  predicate GetterlessIntercepted(m: Member)
  {
    m.Property? && Intercepted(m) && m.getter.None?
  }

  /** The private-property loop as the library writes it, whose filter reads
      GetMethod.IsPrivate without checking GetMethod for null: None stands
      for the NullReferenceException, which escapes ValidateConfiguration and
      loses every message.  When no annotated property lacks a getter it
      agrees with the rule the validator model uses. */
  function PrivatePropertyAsWritten(t: TypeDesc, ms: seq<Member>): (r: Option<seq<Violation>>)
    ensures r.None? <==> exists m :: m in ms && GetterlessIntercepted(m)
    ensures r.Some? ==> r.value == RuleFindings(PrivateProperty, t, ms)
  {
    if ms == [] then Some([])
    else
      var m := ms[|ms| - 1];
      var init := ms[..|ms| - 1];
      assert forall x :: x in ms <==> x in init || x == m;
      var before := PrivatePropertyAsWritten(t, init);
      if before.None? || GetterlessIntercepted(m) then None
      else if m.Property? && Intercepted(m) && m.getter.value.visibility == Private then
        Some(before.value + [Violation(PrivateProperty, m.name, t.fullName)])
      else before
  }

  /** A public set-only property with a Log annotation on an interceptable
      type: the loop as written fails, where the rule reports nothing. */
  lemma SetOnlyPropertyFails()
    ensures var t := TypeDesc("Settings", "Example.Settings", true, false, false,
                              [Property("Secret", true, [Log(DefaultLog())], [Log(DefaultLog())],
                                        None, Some(Accessor(Public, true, false)))]);
            PrivatePropertyAsWritten(t, t.members) == None
            && RuleFindings(PrivateProperty, t, t.members) == []
  {
  }
}
