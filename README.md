# Imaginera.UnityExtensions, modelled in Dafny

Imaginera.UnityExtensions adds attribute-driven interception to the Unity
dependency-injection container. A type marked `InterceptClass` gets a proxy.
Each intercepted call runs through one `CallHandler`. It runs four
interception handlers in a fixed order, each guarded by its own key in the
invocation's context dictionary:

- threading: runs the rest of the call on a background thread, the dispatcher, a new task or inline;
- logging: writes a "Called with parameters" message and, when the call is timed, a "Complete in" message;
- property persistence: writes a persisted property's new value to a store under its id;
- property-change notification: raises `PropertyChanged` when a setter changed a value.

`ConfigurableLifetimeManager` picks the inner Unity lifetime manager from the
first value it is given. When it stores a value, it seeds each persisted
property from the store or from the instance's default provider. A
per-id flag stops the persistence handler from writing back what is being
loaded. `Extensions.ValidateConfiguration` checks a container's
registrations against nine rules and returns one message per problem.

The project has these modules:

- `Metadata` (metadata.dfy): the reflection data the handlers read — annotations, method and property descriptors, target types.
- `Text` (text.dfy): rendering of values, `N0` digit grouping and joining.
- `Validation` (validation.dfy): the nine rules as specification functions, and the validator as an imperative method with loops, proved to produce exactly those messages in that order.
- `Threading` (threading.dfy): the four threading strategies and where each runs its action.
- `Pipeline` (pipeline.dfy): each handler and `CallHandler.Invoke` as a function from the state before a call to the result and the state after it.
- `PipelineFacts` (pipeline_facts.dfy): what any arrangement of handlers guarantees, and the exact sequence of events of one intercepted call.
- `Interception` (interception.dfy): the handlers as methods over an intercepted instance, an invocation and the process-wide runtime (classes updated in place), each proved to do what its `Pipeline` function says.
- `Seeding` (seeding.dfy): the seeding loop of `ConfigurableLifetimeManager.SetValue` as a function, with its properties, including the store round trip.
- `Lifetime` (lifetime.dfy): the lifetime manager and its inner managers as classes. The seeding loop is a method proved against `Seeding.SeedAll`.

## Model

Source paths are relative to the repository root.

| member | source | states |
|---|---|---|
| Validation.ValidateConfiguration | Source/Imaginera.UnityExtensions/Extensions.cs:110-309 | The failures returned are exactly `Report(registrations)`: the rule-1 messages of the distinct types, then the rule 2-9 messages. The logger receives the same list when logging is enabled, and nothing otherwise. |
| Validation.ReportMissingMarkers | Source/Imaginera.UnityExtensions/Extensions.cs:115-142 | The first loop appends one "Class {0} has intercept methods but no InterceptClass attribute defined." message per type that declares an annotated member but lacks its own marker, in registration order. |
| Validation.ReportInterceptable | Source/Imaginera.UnityExtensions/Extensions.cs:144-306 | The second loop appends the rule 2-9 messages of every type that carries `InterceptClass`, own or inherited. |
| Validation.ReportType | Source/Imaginera.UnityExtensions/Extensions.cs:149-305 | For one type, the eight per-member loops run in rule order. Rule 6 is skipped when the type implements INotifyPropertyChanged. |
| Validation.ReportRule | Source/Imaginera.UnityExtensions/Extensions.cs:149-165 | One per-member loop appends the formatted message of every member its rule reports, in member order. The message is logged as well when logging is enabled. |
| Validation.Distinct | Source/Imaginera.UnityExtensions/Extensions.cs:115-119 | `Distinct` keeps the same set of types and has no repeats. |
| Validation.RuleFindingsIff | Source/Imaginera.UnityExtensions/Extensions.cs:149-165 | A rule reports (rule, member, type) if and only if a member of that name satisfies the rule's filter. |
| Validation.TypeFindingsIff | Source/Imaginera.UnityExtensions/Extensions.cs:144-306 | A report is made for an interceptable type if and only if some member of it is flagged by that report's rule. |
| Validation.ViolationsIff | Source/Imaginera.UnityExtensions/Extensions.cs:144-147 | Rules 2-9 report exactly the flagged members of the types that carry `InterceptClass`. |
| Validation.ReportedIff | Source/Imaginera.UnityExtensions/Extensions.cs:144-306 | The same, stated for the distinct registrations: both directions. |
| Validation.ReportedMessage | Source/Imaginera.UnityExtensions/Extensions.cs:149-165 | Every report's formatted message is in the returned list. |
| Validation.MissingMarkersIff | Source/Imaginera.UnityExtensions/Extensions.cs:117-129 | A type name is reported by rule 1 if and only if some type of that name declares an annotated member and lacks its own marker. |
| Validation.MarkerIff | Source/Imaginera.UnityExtensions/Extensions.cs:115-142 | Rule 1 holds for a registered type exactly as just stated, and its message is in the report. |
| Validation.InheritedMarker | Source/Imaginera.UnityExtensions/Extensions.cs:146 | An inherited marker escapes rule 1, yet the type's members are still checked by rules 2-9. |
| Validation.PrivateNonVirtualMethod | Source/Imaginera.UnityExtensions/Extensions.cs:149-184 | An annotated private non-virtual method is reported by both rule 2 and rule 3. |
| Validation.NotifyInterfaceImplemented | Source/Imaginera.UnityExtensions/Extensions.cs:228-246 | No rule-6 report is made for a type that implements INotifyPropertyChanged. |
| Validation.PropertyRulesExclusive | Source/Imaginera.UnityExtensions/Extensions.cs:249-285 | Rules 7 and 8 never report the same property. A property without a getter is never reported by rules 4 and 5. |
| Validation.DuplicateRegistration | Source/Imaginera.UnityExtensions/Extensions.cs:115-119 | Registering a type a second time does not change the report. |
| Validation.MarkersFirst | Source/Imaginera.UnityExtensions/Extensions.cs:131-134 | A message in the report starts with "Class " if and only if it lies before the end of the rule-1 block. All rule-1 messages therefore come first. |
| Validation.MarkerText | Source/Imaginera.UnityExtensions/Extensions.cs:131-134 | Every rule-1 message starts with "Class ". |
| Validation.ViolationText | Source/Imaginera.UnityExtensions/Extensions.cs:157-163 | No rule 2-9 message starts with "Class ". |
| Validation.TypeFindingsOrdered | Source/Imaginera.UnityExtensions/Extensions.cs:149-305 | Within one type, the rule numbers of the reports never decrease. |
| Validation.Rank | Source/Imaginera.UnityExtensions/Extensions.cs:149-305 | The eight per-member rules are numbered 2 to 9. |
| Validation.MessagesAppend | Source/Imaginera.UnityExtensions/Extensions.cs:157-163 | The messages of two report lists concatenate. |
| Validation.PrivatePropertyAsWritten | Source/Imaginera.UnityExtensions/Extensions.cs:187-203 | The rule-4 loop as written fails with a null dereference if and only if an annotated property has no getter. Otherwise it gives the same reports as the corrected rule. |
| Threading.StrategyFor | Source/Imaginera.UnityExtensions/Interception/Threading/ThreadingInterceptionHandler.cs:43-50 | Each mode selects its own strategy: Background, Dispatcher, NewBackground, and CallingThread for everything else (all four directions). |
| Threading.Place | Source/Imaginera.UnityExtensions/Interception/Threading/BackgroundThreadingStrategy.cs:20-30 | Background defers only when an Application exists and the caller is on its UI thread. Dispatcher marshals only when an Application exists and the caller is off its UI thread. NewBackground always defers. CallingThread always runs inline. |
| Threading.PlacementKinds | Source/Imaginera.UnityExtensions/Interception/Threading/DispatcherThreadingStrategy.cs:19-29 | Only Background and NewBackground ever defer, and only Dispatcher ever marshals. |
| Threading.NoApplicationPlacement | Source/Imaginera.UnityExtensions/Interception/Threading/NewBackgroundThreadingStrategy.cs:18-21 | Without an Application object, only NewBackground leaves the calling thread. |
| Metadata.FirstLog | Source/Imaginera.UnityExtensions/Interception/Logging/LoggingInterceptionHandler.cs:37-50 | `GetCustomAttribute<LogAttribute>()`, which finds the member's single Log attribute (LogAttribute allows one use per member): the result is one of the Log annotations, and it is None only when there are none. |
| Metadata.FirstPersisted | Source/Imaginera.UnityExtensions/Interception/PropertyPersistence/PropertyPersistenceInterceptionHandler.cs:44-50 | The id of the first PersistedProperty annotation, or None exactly when there is none. |
| Metadata.FindProperty | Source/Imaginera.UnityExtensions/Interception/PropertyPersistence/PropertyPersistenceInterceptionHandler.cs:44-47 | The property found has the name asked for, and None means that no property has that name. |
| Pipeline.LogSpecOf | Source/Imaginera.UnityExtensions/Interception/Logging/LoggingInterceptionHandler.cs:37-50 | The member's own Log annotation wins. When it has none, a special-name member whose name is longer than four characters takes the first Log annotation of the property named by the rest of its name, if that property exists. Nothing else is logged. |
| Pipeline.SeverityOf | Source/Imaginera.UnityExtensions/Interception/Logging/LoggingInterceptionHandler.cs:64-72 | An unset severity is written as Verbose. A set severity is kept. |
| Pipeline.Moved | Source/Imaginera.UnityExtensions/Interception/Threading/BackgroundThreadingStrategy.cs:20-30 | After a deferral the chain runs off the UI thread. After marshalling it runs on the UI thread. An inline placement leaves the host as it was. Logging and the Application object never change. |
| Pipeline.EventFieldLevel | Source/Imaginera.UnityExtensions/Interception/PropertyNotification/NotifyPropertyInterceptionHandler.cs:54-63 | The base-type walk finds the first type that has the PropertyChanged field, or proves that there is none. |
| Pipeline.ListenerPlacement | Source/Imaginera.UnityExtensions/Interception/PropertyNotification/NotifyPropertyInterceptionHandler.cs:70-84 | Listeners are marshalled synchronously to the dispatcher if and only if an Application exists and the caller is off its UI thread. Otherwise they run inline. They are never deferred. |
| Pipeline.FiredEvents | Source/Imaginera.UnityExtensions/Interception/PropertyNotification/NotifyPropertyInterceptionHandler.cs:72-84 | Each subscribed handler is invoked once, in subscription order, with the property name. |
| Pipeline.GetterCall | Source/Imaginera.UnityExtensions/Interception/PropertyNotification/NotifyPropertyInterceptionHandler.cs:48 | `PropertyInfo.GetValue` calls the property's `get_` accessor. It is not a setter, it carries no annotations of its own, and its body reads the property. |
| Interception.GetValue | Source/Imaginera.UnityExtensions/Interception/PropertyNotification/NotifyPropertyInterceptionHandler.cs:48-50 | A read is a new invocation of the getter on the intercepted instance, with a context of its own, taken through every handler as `Pipeline.GetValue` says. |
| PipelineFacts.GetValueEffect | Source/Imaginera.UnityExtensions/Interception/PropertyPersistence/PropertyPersistenceInterceptionHandler.cs:58 | A read returns the property's current value. It changes only the trace, which gains the getter call's events. |
| PipelineFacts.ReadCounts | Source/Imaginera.UnityExtensions/Interception/PropertyPersistence/PropertyPersistenceInterceptionHandler.cs:58 | A read runs one body and makes the getter's log writes (none, one or two). No other kind of event is added. |
| PipelineFacts.GetterLogSpec | Source/Imaginera.UnityExtensions/Interception/Logging/LoggingInterceptionHandler.cs:39-49 | The getter call is logged under the property's own Log annotation, through the special-name fallback. |
| PipelineFacts.PersistenceOwn | Source/Imaginera.UnityExtensions/Interception/PropertyPersistence/PropertyPersistenceInterceptionHandler.cs:35-52 | The persistence handler stores exactly when the call persists and no inner persistence handler has already stored. |
| PipelineFacts.NotifierEvents | Source/Imaginera.UnityExtensions/Interception/PropertyNotification/NotifyPropertyInterceptionHandler.cs:46-84 | The notification handler records a read, the body, a read, and then the listeners, in that order. |
| PipelineFacts.StoreAfter | Source/Imaginera.UnityExtensions/Interception/PropertyPersistence/PropertyPersistenceInterceptionHandler.cs:35-60 | The persistence handler records its getter call and its store write after everything the rest of the chain records. |
| PipelineFacts.RunFrame | Source/Imaginera.UnityExtensions/Interception/CallHandler.cs:40-51 | Whatever the arrangement of handlers, the target's body runs once, and the property's getter runs once more for each read a handler makes: twice for the notification handler, once for the persistence handler. The instance ends as the body leaves it, the seeding flags are untouched, and the trace is only appended to. A threading strategy takes the call exactly when a threading handler in the chain applies. |
| PipelineFacts.ThreadingFrame | Source/Imaginera.UnityExtensions/Interception/Threading/ThreadingInterceptionHandler.cs:33-60 | The same, for a chain that starts with the threading handler. |
| PipelineFacts.LoggingFrame | Source/Imaginera.UnityExtensions/Interception/Logging/LoggingInterceptionHandler.cs:35-108 | The same, for a chain that starts with the logging handler. |
| PipelineFacts.PersistenceFrame | Source/Imaginera.UnityExtensions/Interception/PropertyPersistence/PropertyPersistenceInterceptionHandler.cs:33-66 | The same, for a chain that starts with the persistence handler. |
| PipelineFacts.NotificationFrame | Source/Imaginera.UnityExtensions/Interception/PropertyNotification/NotifyPropertyInterceptionHandler.cs:31-100 | The same, for a chain that starts with the notification handler. |
| PipelineFacts.RunResult | Source/Imaginera.UnityExtensions/Interception/CallHandler.cs:40-51 | A call's return value is the target's result. It is null once a threading handler has taken the call. |
| PipelineFacts.ThreadingResult | Source/Imaginera.UnityExtensions/Interception/Threading/ThreadingInterceptionHandler.cs:52-59 | A call the threading handler takes returns null. Otherwise the inner result is passed through. |
| PipelineFacts.LoggingResult | Source/Imaginera.UnityExtensions/Interception/Logging/LoggingInterceptionHandler.cs:104-107 | The logging handler returns the inner result unchanged. |
| PipelineFacts.PersistenceResult | Source/Imaginera.UnityExtensions/Interception/PropertyPersistence/PropertyPersistenceInterceptionHandler.cs:65 | The persistence handler returns the inner result unchanged. |
| PipelineFacts.NotificationResult | Source/Imaginera.UnityExtensions/Interception/PropertyNotification/NotifyPropertyInterceptionHandler.cs:99 | The notification handler returns the inner result unchanged. |
| PipelineFacts.RunGrown | Source/Imaginera.UnityExtensions/Interception/CallHandler.cs:40-51 | The invocation context only grows, and only by handler keys. No key is added twice, so no `Dictionary.Add` throws. |
| PipelineFacts.ThreadingGrown | Source/Imaginera.UnityExtensions/Interception/Threading/ThreadingInterceptionHandler.cs:37-42 | The same, for a chain that starts with the threading handler. |
| PipelineFacts.LoggingGrown | Source/Imaginera.UnityExtensions/Interception/Logging/LoggingInterceptionHandler.cs:52-56 | The same, for a chain that starts with the logging handler. |
| PipelineFacts.PersistenceGrown | Source/Imaginera.UnityExtensions/Interception/PropertyPersistence/PropertyPersistenceInterceptionHandler.cs:37-42 | The same, for a chain that starts with the persistence handler. |
| PipelineFacts.NotificationGrown | Source/Imaginera.UnityExtensions/Interception/PropertyNotification/NotifyPropertyInterceptionHandler.cs:35-41 | The same, for a chain that starts with the notification handler. |
| PipelineFacts.MarkGrown | Source/Imaginera.UnityExtensions/Interception/Logging/LoggingInterceptionHandler.cs:56 | Adding an absent handler key keeps the context free of repeats. |
| PipelineFacts.RunMarked | Source/Imaginera.UnityExtensions/Interception/CallHandler.cs:40-51 | A handler's key is in the context afterwards if and only if it was there before, or a handler of that kind in the chain handles the call. |
| PipelineFacts.ThreadingMarked | Source/Imaginera.UnityExtensions/Interception/Threading/ThreadingInterceptionHandler.cs:35-42 | The same, for a chain that starts with the threading handler. |
| PipelineFacts.LoggingMarked | Source/Imaginera.UnityExtensions/Interception/Logging/LoggingInterceptionHandler.cs:37-56 | The same, for a chain that starts with the logging handler. |
| PipelineFacts.PersistenceMarked | Source/Imaginera.UnityExtensions/Interception/PropertyPersistence/PropertyPersistenceInterceptionHandler.cs:37-42 | The same, for a chain that starts with the persistence handler. |
| PipelineFacts.NotificationMarked | Source/Imaginera.UnityExtensions/Interception/PropertyNotification/NotifyPropertyInterceptionHandler.cs:35-41 | The same, for a chain that starts with the notification handler. |
| PipelineFacts.RunStores | Source/Imaginera.UnityExtensions/Interception/PropertyPersistence/PropertyPersistenceInterceptionHandler.cs:33-66 | The store changes only for a persisted setter whose id is not being seeded. It then takes, at that id, the value the property holds after the call, as read back through its getter, and exactly one write is recorded. |
| PipelineFacts.ThreadingStores | Source/Imaginera.UnityExtensions/Interception/Threading/ThreadingInterceptionHandler.cs:33-60 | The same, for a chain that starts with the threading handler. |
| PipelineFacts.LoggingStores | Source/Imaginera.UnityExtensions/Interception/Logging/LoggingInterceptionHandler.cs:35-108 | The same, for a chain that starts with the logging handler. |
| PipelineFacts.PersistenceStores | Source/Imaginera.UnityExtensions/Interception/PropertyPersistence/PropertyPersistenceInterceptionHandler.cs:49-60 | The same, for a chain that starts with the persistence handler. |
| PipelineFacts.NotificationStores | Source/Imaginera.UnityExtensions/Interception/PropertyNotification/NotifyPropertyInterceptionHandler.cs:31-100 | The same, for a chain that starts with the notification handler. |
| PipelineFacts.RunLogged | Source/Imaginera.UnityExtensions/Interception/Logging/LoggingInterceptionHandler.cs:35-108 | With logging enabled, a call the logging handler takes writes its call message and, when timed, its completion message. Each getter call a handler makes writes the same pair for the property's own Log annotation. Nothing else writes to the log. |
| PipelineFacts.ThreadingLogged | Source/Imaginera.UnityExtensions/Interception/Threading/ThreadingInterceptionHandler.cs:33-60 | The same, for a chain that starts with the threading handler. |
| PipelineFacts.LoggingLogged | Source/Imaginera.UnityExtensions/Interception/Logging/LoggingInterceptionHandler.cs:58-102 | The same, for a chain that starts with the logging handler. |
| PipelineFacts.PersistenceLogged | Source/Imaginera.UnityExtensions/Interception/PropertyPersistence/PropertyPersistenceInterceptionHandler.cs:33-66 | The same, for a chain that starts with the persistence handler. |
| PipelineFacts.NotificationLogged | Source/Imaginera.UnityExtensions/Interception/PropertyNotification/NotifyPropertyInterceptionHandler.cs:31-100 | The same, for a chain that starts with the notification handler. |
| PipelineFacts.RunNotified | Source/Imaginera.UnityExtensions/Interception/PropertyNotification/NotifyPropertyInterceptionHandler.cs:31-100 | Every subscriber is invoked once when a notifying setter changed the value on an instance that has the event field. Otherwise no subscriber is invoked. |
| PipelineFacts.ThreadingNotified | Source/Imaginera.UnityExtensions/Interception/Threading/ThreadingInterceptionHandler.cs:33-60 | The same, for a chain that starts with the threading handler. |
| PipelineFacts.LoggingNotified | Source/Imaginera.UnityExtensions/Interception/Logging/LoggingInterceptionHandler.cs:35-108 | The same, for a chain that starts with the logging handler. |
| PipelineFacts.PersistenceNotified | Source/Imaginera.UnityExtensions/Interception/PropertyPersistence/PropertyPersistenceInterceptionHandler.cs:33-66 | The same, for a chain that starts with the persistence handler. |
| PipelineFacts.NotificationNotified | Source/Imaginera.UnityExtensions/Interception/PropertyNotification/NotifyPropertyInterceptionHandler.cs:48-84 | The same, for a chain that starts with the notification handler. |
| PipelineFacts.TallyFired | Source/Imaginera.UnityExtensions/Interception/PropertyNotification/NotifyPropertyInterceptionHandler.cs:72-84 | Firing the event adds one invocation per listener and nothing else. |
| PipelineFacts.InvokeEvents | Source/Imaginera.UnityExtensions/Interception/CallHandler.cs:40-51 | One call adds exactly these events, in this order: the hand-off to a threading strategy, the call message, the getter call before the body, the body, the getter call after it, the notifications, the persistence handler's getter call, the store write, the completion message. Each part is present exactly when its handler acts. A getter call records its own log messages around its body. |
| PipelineFacts.InnerEvents | Source/Imaginera.UnityExtensions/Interception/PropertyPersistence/PropertyPersistenceInterceptionHandler.cs:35-60 | Persistence around notification: the notification handler's read, the body, its second read and the notifications, then the persistence handler's read and the store write. |
| PipelineFacts.LoggedEvents | Source/Imaginera.UnityExtensions/Interception/Logging/LoggingInterceptionHandler.cs:58-102 | Logging around the rest: the call message comes before everything the inner handlers record, getter calls included, and the completion message after it. |
| PipelineFacts.ThreadedEvents | Source/Imaginera.UnityExtensions/Interception/Threading/ThreadingInterceptionHandler.cs:43-56 | A call the threading handler takes records the hand-off first, then the events of the rest of the chain on the new thread. |
| PipelineFacts.InvokeResult | Source/Imaginera.UnityExtensions/Interception/Threading/ThreadingInterceptionHandler.cs:52-59 | A call returns null when its method asks for a threading strategy. Otherwise it returns the target's result. |
| PipelineFacts.InvokeContext | Source/Imaginera.UnityExtensions/Interception/CallHandler.cs:40-51 | Starting from an empty context, each of the four keys ends in the context if and only if its handler took the call. No key is repeated. |
| PipelineFacts.InvokeLogOrder | Source/Imaginera.UnityExtensions/Interception/Logging/LoggingInterceptionHandler.cs:56-102 | With logging on, the call message is the first event after the hand-off. The completion message of a timed call is the last event, with the target's result. |
| PipelineFacts.InvokeStoresLast | Source/Imaginera.UnityExtensions/Interception/PropertyPersistence/PropertyPersistenceInterceptionHandler.cs:35-60 | Within one call, every listener invocation comes before the store write. |
| Interception.Runtime.constructor | Source/Imaginera.UnityExtensions/Interception/PropertyPersistence/PropertyPersistenceInterceptionHandler.cs:52-60 | The runtime starts with the given store, no seeding flags and an empty trace. |
| Interception.Instance.constructor | Source/Imaginera.UnityExtensions/Interception/PropertyNotification/NotifyPropertyInterceptionHandler.cs:63-84 | An instance has its type and its subscribers, and no property values yet. |
| Interception.Invocation.constructor | Source/Imaginera.UnityExtensions/Interception/CallHandler.cs:40-51 | An invocation starts with an empty context. |
| Interception.Invoke | Source/Imaginera.UnityExtensions/Interception/CallHandler.cs:40-51 | The in-place call leaves the instance, invocation and runtime as `Pipeline.Invoke` says, and returns its result. |
| Interception.Proceed | Source/Imaginera.UnityExtensions/Interception/CallHandler.cs:40-51 | The continuation runs the rest of the chain, then the target, as `Pipeline.Run` says. |
| Interception.Execute | Source/Imaginera.UnityExtensions/Interception/CallHandler.cs:40-51 | The target's body updates the instance in place and records that it ran. |
| Interception.InterceptThreading | Source/Imaginera.UnityExtensions/Interception/Threading/ThreadingInterceptionHandler.cs:33-60 | Marks the context, hands the rest of the call to the selected strategy and returns null. Otherwise it passes the call on. This matches `ThreadingIntercept`. |
| Interception.WriteLog | Source/Imaginera.UnityExtensions/Interception/Logging/LoggingInterceptionHandler.cs:64-72 | A log write appends exactly one entry when logging is enabled, and nothing otherwise. |
| Interception.InterceptLogging | Source/Imaginera.UnityExtensions/Interception/Logging/LoggingInterceptionHandler.cs:35-108 | Writes the call message, runs the rest, and writes the completion message when timed. This matches `LoggingIntercept`. |
| Interception.InterceptPersistence | Source/Imaginera.UnityExtensions/Interception/PropertyPersistence/PropertyPersistenceInterceptionHandler.cs:33-66 | Runs the rest first. Then, for a persisted setter whose id is not being seeded, it reads the property through an intercepted call of its getter and stores that value. This matches `PersistenceIntercept`. |
| Interception.FindEventField | Source/Imaginera.UnityExtensions/Interception/PropertyNotification/NotifyPropertyInterceptionHandler.cs:54-63 | The `while` walk up the base types returns the first level that has the event field, as `EventFieldLevel` describes. |
| Interception.FireAll | Source/Imaginera.UnityExtensions/Interception/PropertyNotification/NotifyPropertyInterceptionHandler.cs:72-84 | Invokes each subscriber in order and touches nothing else. |
| Interception.InterceptNotification | Source/Imaginera.UnityExtensions/Interception/PropertyNotification/NotifyPropertyInterceptionHandler.cs:31-100 | Reads the property through an intercepted call of its getter before and after the rest of the call, and fires the event only when the two reads differ. This matches `NotificationIntercept`. |
| Seeding.SetterCall | Source/Imaginera.UnityExtensions/Registration/ConfigurableLifetimeManager.cs:99 | `PropertyInfo.SetValue` calls the property's `set_` accessor, which the persistence handler treats as its setter. The accessor reports the class that declares the property as its type. |
| Seeding.LoadFor | Source/Imaginera.UnityExtensions/Registration/ConfigurableLifetimeManager.cs:93-112 | A stored entry is loaded exactly when the property has a setter, and the stored value is what is loaded. With no entry and an instance that is a default provider, the provider's value for the property's name is loaded exactly when it has one and the property has a setter; otherwise seeding fails, and the property is never skipped. With neither, the property is skipped. A value is only ever loaded through a setter. |
| Seeding.Persisted | Source/Imaginera.UnityExtensions/Registration/ConfigurableLifetimeManager.cs:77-79 | Exactly the properties that carry PersistedProperty. |
| Seeding.Ids | Source/Imaginera.UnityExtensions/Registration/ConfigurableLifetimeManager.cs:81 | The ids of those properties, both directions. |
| Seeding.SeedingSet | Source/Imaginera.UnityExtensions/Interception/PropertyPersistence/PropertyPersistenceInterceptionHandler.cs:52 | A setter call on a property whose id is flagged assigns the value but leaves the store and the flags alone. Its trace is exactly that of an ordinary intercepted call. |
| Seeding.OrdinarySet | Source/Imaginera.UnityExtensions/Interception/PropertyPersistence/PropertyPersistenceInterceptionHandler.cs:49-60 | The same setter call outside seeding stores the new value under the property's id. |
| Seeding.CallEventsNotSeeding | Source/Imaginera.UnityExtensions/Interception/CallHandler.cs:40-51 | An intercepted call never reports to the seeding notifier or the seeding error log. |
| Seeding.StepValues | Source/Imaginera.UnityExtensions/Registration/ConfigurableLifetimeManager.cs:83-128 | One iteration leaves the store alone, and sets the property exactly when a value was loaded for it. |
| Seeding.SetterSilent | Source/Imaginera.UnityExtensions/Registration/ConfigurableLifetimeManager.cs:99 | The setter call keeps the earlier trace and adds no notifier event. |
| Seeding.StepNotified | Source/Imaginera.UnityExtensions/Registration/ConfigurableLifetimeManager.cs:115-123 | The notifier hears of the property in this iteration if and only if the instance is a notifier and a value was loaded for it. |
| Seeding.StepSeeding | Source/Imaginera.UnityExtensions/Registration/ConfigurableLifetimeManager.cs:129-132 | After one iteration the property's flag is cleared, and no other flag has moved. |
| Seeding.SeedAllStore | Source/Imaginera.UnityExtensions/Registration/ConfigurableLifetimeManager.cs:77-133 | Seeding never writes the store. |
| Seeding.SeedAllSeeding | Source/Imaginera.UnityExtensions/Registration/ConfigurableLifetimeManager.cs:85 | Every flag the loop raised is cleared again, whatever happened while loading. |
| Seeding.SeedAllValues | Source/Imaginera.UnityExtensions/Registration/ConfigurableLifetimeManager.cs:77-133 | Each persisted property ends with the value loaded for it, or keeps its value when nothing was loaded. Every other property is unchanged. |
| Seeding.SeedAllNotified | Source/Imaginera.UnityExtensions/Registration/ConfigurableLifetimeManager.cs:115-123 | The notifier is told of a name if and only if the instance is a notifier and some persisted property of that name had a value loaded. Earlier events stay. |
| Seeding.RoundTrip | Source/Imaginera.UnityExtensions/Registration/ConfigurableLifetimeManager.cs:93-101 | Once a persisted property is set outside seeding, a new instance of the same type seeded from the resulting store gets the same value. |
| Seeding.PersistedUnique | Source/Imaginera.UnityExtensions/Registration/ConfigurableLifetimeManager.cs:77-79 | Filtering keeps property names unique. |
| Lifetime.KindFor | Source/Imaginera.UnityExtensions/Registration/ConfigurableLifetimeManager.cs:64-71 | The inner manager is per-resolve if and only if the value's LifetimeManager annotation says PerResolve. Otherwise it is container-controlled. |
| Lifetime.InnerManager.constructor | Source/Imaginera.UnityExtensions/Registration/ConfigurableLifetimeManager.cs:69-71 | A new inner manager holds nothing. |
| Lifetime.InnerManager.SetValue | Source/Imaginera.UnityExtensions/Registration/ConfigurableLifetimeManager.cs:75 | A container-controlled manager keeps the value. A per-resolve manager keeps nothing. |
| Lifetime.InnerManager.RemoveValue | Source/Imaginera.UnityExtensions/Registration/ConfigurableLifetimeManager.cs:143 | The inner manager then holds nothing. |
| Lifetime.ConfigurableLifetimeManager.constructor | Source/Imaginera.UnityExtensions/Registration/ConfigurableLifetimeManager.cs:47-52 | A new manager has no inner manager. |
| Lifetime.ConfigurableLifetimeManager.GetValue | Source/Imaginera.UnityExtensions/Registration/ConfigurableLifetimeManager.cs:47-52 | Returns null without an inner manager, and that manager's value otherwise. |
| Lifetime.ConfigurableLifetimeManager.SetValue | Source/Imaginera.UnityExtensions/Registration/ConfigurableLifetimeManager.cs:58-134 | The inner manager is chosen once, from the first value, and kept afterwards. The value is handed to it. The instance and the runtime end as `Seeding.SeedAll` over the persisted properties describes. |
| Lifetime.ConfigurableLifetimeManager.RemoveValue | Source/Imaginera.UnityExtensions/Registration/ConfigurableLifetimeManager.cs:139-145 | Does nothing without an inner manager, and empties it otherwise. |
| Lifetime.SeedProperties | Source/Imaginera.UnityExtensions/Registration/ConfigurableLifetimeManager.cs:77-133 | The `foreach` leaves the instance and the runtime as `SeedAll` says. |
| Lifetime.SeedProperty | Source/Imaginera.UnityExtensions/Registration/ConfigurableLifetimeManager.cs:81-132 | One iteration with its flag, its `valueSet` bookkeeping, the notifier, the caught failure and the `finally` leaves the state as `SeedStep` says. |
| Text.DigitsRoundTrip | Source/Imaginera.UnityExtensions/Interception/Logging/LoggingInterceptionHandler.cs:82-87 | Decimal rendering of a count is read back as the same number. |
| Text.GroupedIsDigits | Source/Imaginera.UnityExtensions/Interception/Logging/LoggingInterceptionHandler.cs:82-87 | The `N0` rendering of the elapsed milliseconds, with its group separators removed, is the plain decimal rendering. |
| Text.RenderAll | Source/Imaginera.UnityExtensions/Interception/Logging/LoggingInterceptionHandler.cs:58-62 | Each argument is rendered in place, in order. |

## Left out

- A target body is one of three kinds (`Metadata.Body`): an auto-property setter that stores its last argument, a getter that returns the stored field, or a method that computes a result without touching the instance. Bodies that change other state or throw are not modelled. The values clause of `PipelineFacts.RunFrame` (the instance ends as `BodyEffect` leaves it) and `Pipeline.Target` rely on this.
- A getter is assumed to return its property's stored field. A getter computed from other state is not modelled. `PipelineFacts.NotifyFires` (the two reads compared are the old and the new field value), `PipelineFacts.RunNotified`, `PipelineFacts.RunStores` (the stored value is `NewValue`) and `PipelineFacts.GetValueEffect` rely on this.
- A PropertyChanged listener runs no code in the model: `Pipeline.FiredEvents` records one `Fired` event per subscriber. A listener with side effects, one that throws, or one that sets a property again (and so starts a nested intercepted call) is not modelled. `PipelineFacts.InvokeStoresLast`, `PipelineFacts.RunFrame`, `PipelineFacts.RunStores` and `PipelineFacts.InvokeEvents` rely on this. With a listener that sets a persisted property, a nested `Stored` event could come before the outer call's later `Fired` events.
- Concurrency. A deferred or marshalled continuation runs at once in the model, after a `Scheduled` event that records where it would have run. Interleavings with other threads, the dispatcher queue and exceptions lost on a background thread are not modelled.
- The seeding flags are thread-local slots in the library. The model keeps one global set of flags, which is the same thing for a single thread.
- Isolated storage, JSON serialisation and network deployment are left out. The store is a map from id to value, and a value deserialises to itself.
- `IPersistedValueDefaultValueProvider.GetDefaultValue` throwing is modelled as the name being absent from the provider's defaults. Any other exception inside the seeding `try` is not modelled. The caught exception becomes a `SeedFailed` event instead of a `Debug.WriteLine`.
- `IPersistedValueSetNotifier.PropertySet` is recorded as a `SeedNotified` event. It is not an intercepted call.
- The stopwatch reading is a parameter of each call (`elapsedMs`). The `N0` group separator is the invariant culture's ",".
- Exceptions thrown by the target's own body, and `Debug.Assert`, are not modelled.
- The lock around the choice of inner manager is not modelled.
- Unity's own `PerResolveLifetimeManager` and `ContainerControlledLifetimeManager` are not part of this model. `Lifetime.InnerManager` assumes that the first keeps no value and the second keeps it until removed.
- A property's setter accessor is assumed to carry no annotations of its own. The handlers read the property's annotations through the `set_` name.
- Pipeline.GetterCall: the getter accessor is assumed to carry no annotations of its own either, and its stopwatch reads 0 ms.
- InterceptPersistence and InterceptNotification (Interception.InterceptPersistence, Interception.InterceptNotification): every property is assumed to have a getter. For a set-only property `PropertyInfo.GetValue` throws an ArgumentException; that failure is not modelled.
- `NotifyPropertyChangedCallHandler`, `PersistedPropertyCallHandler`, `AutoConfigure`, the `IsLoggingEnabled` lookup and the object factory are outside the modelled core. Logging is a flag on the host.
- The validator's concrete message lists for particular sample types are not stated as lemmas. The general iff, order and text lemmas above cover every input.

These behaviours of the code are easy to miss; the model follows them:

- Rule 3 reports a method that is not virtual. A virtual but sealed method is not reported by it.
- Rule 5 sees only a public getter (`GetGetMethod()`).
- The persistence handler writes the store after the rest of the chain has run, so property-change listeners run before the store write (`PipelineFacts.InvokeStoresLast`).
- The handlers read a property through `PropertyInfo.GetValue` on the intercepted instance, so each read is itself an intercepted getter call. It runs the property's getter and is logged when the property carries a Log annotation.

## Findings

| source | as written | input that shows it | evidently intended | confidence | as-written member | corrected member |
|---|---|---|---|---|---|---|
| Source/Imaginera.UnityExtensions/Extensions.cs:187-203 | The rule-4 filter reads `GetMethod.IsPrivate` without checking that `GetMethod` is not null. | An interceptable type with a public set-only property that carries a Log annotation: the loop dereferences null, and `ValidateConfiguration` throws instead of returning its messages (`Validation.SetOnlyPropertyFails`). | A property without a getter is simply not reported by rule 4. | not executed | Validation.PrivatePropertyAsWritten | Validation.RuleFindingsIff |
