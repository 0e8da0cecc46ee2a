/** The four threading strategies and the placement decision each one makes
    for the action it is given.  Only the decision is modelled: whether the
    action runs inline on the calling thread, is deferred to a thread-pool
    task, or is marshalled synchronously onto the UI dispatcher. */
module Threading {
  import opened Metadata

  /** The IThreadingStrategy implementations. */
  datatype Strategy =
    | BackgroundStrategy
    | DispatcherStrategy
    | NewBackgroundStrategy
    | CallingThreadStrategy

  /** Where an action handed to a strategy (or a notification handed to the
      dispatcher) runs. */
  datatype Placement = Inline | Deferred | Marshalled

  /** The strategy the threading handler builds for the mode of a
      ThreadingStrategy annotation: Background, Dispatcher and NewBackground
      get their own strategy, every other mode the calling-thread one. */
  function StrategyFor(mode: ThreadingMode): (s: Strategy)
    ensures mode == Background <==> s == BackgroundStrategy
    ensures mode == Dispatcher <==> s == DispatcherStrategy
    ensures mode == NewBackground <==> s == NewBackgroundStrategy
    ensures mode == CallingThread <==> s == CallingThreadStrategy
  {
    if mode == Background then BackgroundStrategy
    else if mode == Dispatcher then DispatcherStrategy
    else if mode == NewBackground then NewBackgroundStrategy
    else assert mode.CallingThread?; CallingThreadStrategy
  }

  /** Strategy.Run(action): where the action runs, given whether an
      Application object exists and whether the current thread is its UI
      thread (Dispatcher.CheckAccess). */
  function Place(s: Strategy, applicationExists: bool, onUiThread: bool): (p: Placement)
    ensures s == BackgroundStrategy ==>
              (p == Deferred <==> applicationExists && onUiThread) && p != Marshalled
    ensures s == DispatcherStrategy ==>
              (p == Marshalled <==> applicationExists && !onUiThread) && p != Deferred
    ensures s == NewBackgroundStrategy ==> p == Deferred
    ensures s == CallingThreadStrategy ==> p == Inline
  {
    match s
    case BackgroundStrategy =>
      if applicationExists && onUiThread then Deferred else Inline
    case DispatcherStrategy =>
      if applicationExists && !onUiThread then Marshalled else Inline
    case NewBackgroundStrategy => Deferred
    case CallingThreadStrategy => Inline
  }

  /** Only the two background strategies ever leave the calling thread
      without waiting, and only the dispatcher strategy marshals. */
  lemma PlacementKinds(mode: ThreadingMode, applicationExists: bool, onUiThread: bool)
    ensures Place(StrategyFor(mode), applicationExists, onUiThread) == Deferred ==>
              mode == Background || mode == NewBackground
    ensures Place(StrategyFor(mode), applicationExists, onUiThread) == Marshalled ==>
              mode == Dispatcher
  {
  }

  /** Without an Application object (a unit-test host) the calling-thread,
      background and dispatcher strategies all run the action inline on the
      calling thread, and only NewBackground moves it to another thread. */
  lemma NoApplicationPlacement(onUiThread: bool)
    ensures Place(StrategyFor(CallingThread), false, onUiThread) == Inline
    ensures Place(StrategyFor(Background), false, onUiThread) == Inline
    ensures Place(StrategyFor(Dispatcher), false, onUiThread) == Inline
    ensures Place(StrategyFor(NewBackground), false, onUiThread) == Deferred
  {
  }
}
