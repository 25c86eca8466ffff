/**
 * The owner side of the model: the androidx lifecycle states in their total
 * order, the six lifecycle events, the five activation spans of the library,
 * and an owner object whose current state the handlers read.
 */
module Lifecycle {
  import opened SavedState

  /** Lifecycle.State, in the order androidx declares it. */
  datatype State = Destroyed | Initialized | Created | Started | Resumed

  function Ordinal(s: State): nat
  {
    match s
    case Destroyed => 0
    case Initialized => 1
    case Created => 2
    case Started => 3
    case Resumed => 4
  }

  /** Lifecycle.State.isAtLeast: compares ordinals. */
  predicate IsAtLeast(s: State, t: State)
  {
    Ordinal(s) >= Ordinal(t)
  }

  /** The events an owner delivers to its observers. */
  datatype Event = OnCreate | OnStart | OnResume | OnPause | OnStop | OnDestroy
  {
    /** Events that move the owner up the state order. */
    predicate IsForward()
    {
      OnCreate? || OnStart? || OnResume?
    }

    /** Events that move the owner down the state order. */
    predicate IsBackward()
    {
      OnPause? || OnStop? || OnDestroy?
    }
  }

  /** The state an owner is in when its observers receive the event. */
  function StateAfter(e: Event): (s: State)
    ensures s != State.Initialized
    ensures s == State.Destroyed <==> e == OnDestroy
    ensures e.IsForward() ==> IsAtLeast(s, State.Created)
  {
    match e
    case OnCreate => State.Created
    case OnStart => State.Started
    case OnResume => State.Resumed
    case OnPause => State.Started
    case OnStop => State.Created
    case OnDestroy => State.Destroyed
  }

  /** LifeSpan: how long a registered life is meant to stay alive. */
  datatype LifeSpan = UserFlow | ConfigurationChanged | Created | Started | Resumed

  /**
   * A lifecycle owner (an activity or fragment), reduced to its current
   * state and the saved-state registry it carries. A fresh owner is
   * INITIALIZED.
   */
  class Owner {
    var state: State
    const registry: SavedStateRegistry

    constructor (restored: map<string, Bundle>)
      ensures state == State.Initialized
      ensures fresh(registry) && registry.restored == restored && registry.providers == {}
    {
      state := State.Initialized;
      registry := new SavedStateRegistry(restored);
    }

    /** LifecycleRegistry.handleLifecycleEvent, without notifying anyone. */
    method Move(e: Event)
      modifies this`state
      ensures state == StateAfter(e)
    {
      state := StateAfter(e);
    }
  }
}
