/**
 * The decision logic of the two template base classes, BaseLifeHandler and
 * BaseLifecycleHandler: when bornIfPossible calls born(), when dieIfPossible
 * calls die(), and which of born/die/unregister each lifecycle event method
 * invokes. The guards are written exactly as the source writes them; the
 * contracts relate them to a threshold table.
 */
module Dispatch {
  import opened Lifecycle

  /** The template base a concrete handler extends. */
  datatype Base =
    | LifeBase       // BaseLifeHandler: knows all five spans
    | LifecycleBase  // BaseLifecycleHandler: knows RESUMED, STARTED and CREATED only

  /** The owner state from which a span is meant to be alive. */
  function BornThreshold(span: LifeSpan): State
  {
    match span
    case Resumed => State.Resumed
    case Started => State.Started
    case Created => State.Created
    case ConfigurationChanged => State.Created
    case UserFlow => State.Created
  }

  /** The guards of BaseLifeHandler.bornIfPossible, one disjunct per branch. */
  function LifeBornGuard(span: LifeSpan, st: State): (r: bool)
    ensures r <==> IsAtLeast(st, BornThreshold(span))
  {
    || (IsAtLeast(st, State.Resumed) && span == LifeSpan.Resumed)
    || (IsAtLeast(st, State.Started) && span == LifeSpan.Started)
    || (IsAtLeast(st, State.Created) && span == LifeSpan.Created)
    || (IsAtLeast(st, State.Created) && span == LifeSpan.ConfigurationChanged)
    || (IsAtLeast(st, State.Created) && span == LifeSpan.UserFlow)
  }

  /**
   * The guards of BaseLifeHandler.dieIfPossible. Every state is at least
   * DESTROYED, so the outcome depends on the span alone: every span but
   * CONFIGURATION_CHANGED dies on every pause, stop and destroy.
   */
  function LifeDieGuard(span: LifeSpan, st: State): (r: bool)
    ensures r <==> span != LifeSpan.ConfigurationChanged
  {
    || span == LifeSpan.Resumed
    || ((IsAtLeast(st, State.Created) || IsAtLeast(st, State.Destroyed)) && span == LifeSpan.Started)
    || (IsAtLeast(st, State.Destroyed) && span == LifeSpan.Created)
    || (IsAtLeast(st, State.Destroyed) && span == LifeSpan.UserFlow)
  }

  /** The spans BaseLifecycleHandler has a branch for. */
  predicate LifecycleKnows(span: LifeSpan)
  {
    span == LifeSpan.Resumed || span == LifeSpan.Started || span == LifeSpan.Created
  }

  /** The guards of BaseLifecycleHandler.bornIfPossible. */
  function LifecycleBornGuard(span: LifeSpan, st: State): (r: bool)
    ensures r <==> LifecycleKnows(span) && IsAtLeast(st, BornThreshold(span))
  {
    || (IsAtLeast(st, State.Resumed) && span == LifeSpan.Resumed)
    || (IsAtLeast(st, State.Started) && span == LifeSpan.Started)
    || (IsAtLeast(st, State.Created) && span == LifeSpan.Created)
  }

  /** The guards of BaseLifecycleHandler.dieIfPossible; again independent of the state. */
  function LifecycleDieGuard(span: LifeSpan, st: State): (r: bool)
    ensures r <==> LifecycleKnows(span)
  {
    || span == LifeSpan.Resumed
    || ((IsAtLeast(st, State.Created) || IsAtLeast(st, State.Destroyed)) && span == LifeSpan.Started)
    || (IsAtLeast(st, State.Destroyed) && span == LifeSpan.Created)
  }

  function BornGuard(base: Base, span: LifeSpan, st: State): bool
  {
    match base
    case LifeBase => LifeBornGuard(span, st)
    case LifecycleBase => LifecycleBornGuard(span, st)
  }

  function DieGuard(base: Base, span: LifeSpan, st: State): bool
  {
    match base
    case LifeBase => LifeDieGuard(span, st)
    case LifecycleBase => LifecycleDieGuard(span, st)
  }

  /** The abstract operations an event method of the base classes can invoke. */
  datatype Action = InvokeBorn | InvokeDie | InvokeUnregister

  /**
   * What onCreate, onStart, onResume, onPause, onStop and onDestroy invoke,
   * in order, when the owner is in state st.
   */
  function Reaction(base: Base, span: LifeSpan, st: State, e: Event): (acts: seq<Action>)
    ensures InvokeBorn in acts <==> e.IsForward() && BornGuard(base, span, st)
    ensures InvokeDie in acts <==> e.IsBackward() && DieGuard(base, span, st)
    ensures InvokeUnregister in acts <==> e == OnDestroy
  {
    match e
    case OnCreate => if BornGuard(base, span, st) then [InvokeBorn] else []
    case OnStart => if BornGuard(base, span, st) then [InvokeBorn] else []
    case OnResume => if BornGuard(base, span, st) then [InvokeBorn] else []
    case OnPause => if DieGuard(base, span, st) then [InvokeDie] else []
    case OnStop => if DieGuard(base, span, st) then [InvokeDie] else []
    case OnDestroy => (if DieGuard(base, span, st) then [InvokeDie] else []) + [InvokeUnregister]
  }

  /** No event invokes an action twice, and unregister, when invoked, comes last. */
  lemma ReactionOrder(base: Base, span: LifeSpan, st: State, e: Event)
    ensures var acts := Reaction(base, span, st, e);
      && (forall i, j :: 0 <= i < j < |acts| ==> acts[i] != acts[j])
      && (InvokeUnregister in acts ==> acts[|acts| - 1] == InvokeUnregister)
  {
  }

  /** A forward event never kills and a backward event never revives. */
  lemma ForwardBornsBackwardDies(base: Base, span: LifeSpan, st: State, e: Event)
    ensures e.IsForward() ==> InvokeDie !in Reaction(base, span, st, e) && InvokeUnregister !in Reaction(base, span, st, e)
    ensures e.IsBackward() ==> InvokeBorn !in Reaction(base, span, st, e)
    ensures e.IsForward() ==> |Reaction(base, span, st, e)| <= 1
  {
  }

  /** BaseLifecycleHandler neither borns nor kills USER_FLOW or CONFIGURATION_CHANGED lives. */
  lemma LifecycleIgnoresLongSpans(span: LifeSpan, st: State, e: Event)
    requires span == LifeSpan.UserFlow || span == LifeSpan.ConfigurationChanged
    ensures Reaction(LifecycleBase, span, st, e) == if e == OnDestroy then [InvokeUnregister] else []
  {
  }

  /**
   * The die thresholds the LifeSpan documentation describes: RESUMED ends at
   * pause, STARTED at stop, CREATED and USER_FLOW only at destroy. st is the
   * state the owner is in when a backward event is delivered.
   */
  predicate DocumentedDieGuard(span: LifeSpan, st: State)
  {
    match span
    case Resumed => true
    case Started => !IsAtLeast(st, State.Started)
    case Created => st == State.Destroyed
    case UserFlow => st == State.Destroyed
    case ConfigurationChanged => st == State.Destroyed
  }

  /**
   * Where BaseLifeHandler's die guard departs from the documentation: it never
   * kills a CONFIGURATION_CHANGED life, not even at destroy, and on a pause it
   * kills STARTED, CREATED and USER_FLOW lives the documentation keeps alive.
   * (For every other span it fires in every state, so it never fires later than
   * the documented guard.)
   */
  lemma LifeDiesNoLaterThanDocumented(span: LifeSpan, e: Event)
    requires e.IsBackward()
    ensures !LifeDieGuard(LifeSpan.ConfigurationChanged, StateAfter(OnDestroy))
    ensures e == OnPause && span != LifeSpan.ConfigurationChanged && span != LifeSpan.Resumed ==>
      LifeDieGuard(span, StateAfter(e)) && !DocumentedDieGuard(span, StateAfter(e))
  {
  }
}
