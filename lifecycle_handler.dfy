/**
 * AndroidLifecycleHandler and AndroidLifecycleHandlerImpl: a registration
 * that binds one owner, one Life and one LifeSpan, and turns the owner's
 * events into onBorn/onDie calls guarded by an alive flag.
 *
 * The Life is code outside the model; it is represented by the log of the
 * calls the handler makes on it.
 */
module LifecycleHandlers {
  import opened Lifecycle
  import opened Pairing
  import opened Dispatch

  /**
   * The handler. Both source classes extend BaseLifecycleHandler and have the
   * same body; `base` records which template table the handler runs, so the
   * same class also serves as the BaseLifeHandler-based handler the life store
   * registers its wrappers with.
   */
  class LifecycleHandler {
    const base: Base
    var owner: Owner?     // lateinit: null until Register
    var span: LifeSpan    // lateinit: meaningful once owner != null
    var alive: bool
    var observing: bool   // whether this handler is among the owner's lifecycle observers
    var calls: seq<Call>  // the calls made on the registered Life, in order

    /** Born/die calls alternate starting with born, and nothing happens before registration. */
    ghost predicate Valid()
      reads this
    {
      && Paired(calls, alive)
      && (owner == null ==> !observing && calls == [])
    }

    constructor (base: Base)
      ensures Valid() && this.base == base
      ensures owner == null && !alive && !observing && calls == []
    {
      this.base := base;
      owner := null;
      span := LifeSpan.UserFlow;
      alive := false;
      observing := false;
      calls := [];
    }

    /**
     * register: remembers owner and span, then attaches to a live owner and
     * catches up at once if the owner is already past the span's threshold.
     */
    method Register(owner: Owner, span: LifeSpan)
      requires Valid() && this.owner == null
      modifies this`owner, this`span, this`alive, this`observing, this`calls
      ensures Valid() && this.owner == owner && this.span == span
      ensures observing == (owner.state != State.Destroyed)
      ensures alive == (observing && BornGuard(base, span, owner.state))
      ensures calls == if alive then [OnBorn] else []
    {
      this.owner := owner;
      this.span := span;
      RegisterIfPossible();
    }

    method RegisterIfPossible()
      requires Valid() && owner != null && !observing && calls == []
      modifies this`alive, this`observing, this`calls
      ensures Valid()
      ensures observing == (owner.state != State.Destroyed)
      ensures alive == (observing && BornGuard(base, span, owner.state))
      ensures calls == if alive then [OnBorn] else []
    {
      if owner.state != State.Destroyed {
        observing := true;
        BornIfPossible();
      }
    }

    /** born: calls onBorn only on the dead-to-alive transition. */
    method Born()
      requires Valid() && owner != null
      modifies this`alive, this`calls
      ensures Valid() && alive
      ensures calls == old(calls) + BornCalls(old(alive))
    {
      BornKeepsPairing(calls, alive);
      if !alive {
        alive := true;
        calls := calls + [OnBorn];
      }
    }

    /** die: calls onDie only on the alive-to-dead transition. */
    method Die()
      requires Valid() && owner != null
      modifies this`alive, this`calls
      ensures Valid() && !alive
      ensures calls == old(calls) + DieCalls(old(alive))
    {
      DieKeepsPairing(calls, alive);
      if alive {
        alive := false;
        calls := calls + [OnDie];
      }
    }

    /** unregister: detaches from the owner and leaves the alive flag alone. */
    method Unregister()
      requires Valid()
      modifies this`observing
      ensures Valid() && !observing
    {
      observing := false;
    }

    method BornIfPossible()
      requires Valid() && owner != null
      modifies this`alive, this`calls
      ensures Valid()
      ensures var fire := BornGuard(base, span, owner.state);
        && alive == (old(alive) || fire)
        && calls == old(calls) + (if fire then BornCalls(old(alive)) else [])
    {
      if BornGuard(base, span, owner.state) {
        Born();
      }
    }

    method DieIfPossible()
      requires Valid() && owner != null
      modifies this`alive, this`calls
      ensures Valid()
      ensures var fire := DieGuard(base, span, owner.state);
        && alive == (old(alive) && !fire)
        && calls == old(calls) + (if fire then DieCalls(old(alive)) else [])
    {
      if DieGuard(base, span, owner.state) {
        Die();
      }
    }

    /** The six event methods of the base class, as one method over the event. */
    method OnEvent(e: Event)
      requires Valid() && owner != null
      modifies this`alive, this`calls, this`observing
      ensures Valid()
      ensures var acts := Reaction(base, span, owner.state, e);
        && alive == (if InvokeBorn in acts then true else if InvokeDie in acts then false else old(alive))
        && calls == old(calls) + (if InvokeBorn in acts then BornCalls(old(alive))
                                  else if InvokeDie in acts then DieCalls(old(alive)) else [])
        && observing == (old(observing) && InvokeUnregister !in acts)
    {
      ForwardBornsBackwardDies(base, span, owner.state, e);
      match e
      case OnCreate => BornIfPossible();
      case OnStart => BornIfPossible();
      case OnResume => BornIfPossible();
      case OnPause => DieIfPossible();
      case OnStop => DieIfPossible();
      case OnDestroy =>
        DieIfPossible();
        Unregister();
    }
  }

  /**
   * One step of the owner: it moves to the event's state and then notifies
   * the handler, if the handler still observes it.
   */
  method Deliver(owner: Owner, h: LifecycleHandler, e: Event)
    requires h.Valid() && h.owner == owner
    modifies owner`state, h`alive, h`calls, h`observing
    ensures h.Valid() && owner.state == StateAfter(e)
    ensures !old(h.observing) ==> h.alive == old(h.alive) && h.calls == old(h.calls) && !h.observing
    ensures old(h.observing) ==>
      var acts := Reaction(h.base, h.span, StateAfter(e), e);
      && h.alive == (if InvokeBorn in acts then true else if InvokeDie in acts then false else old(h.alive))
      && h.calls == old(h.calls) + (if InvokeBorn in acts then BornCalls(old(h.alive))
                                    else if InvokeDie in acts then DieCalls(old(h.alive)) else [])
      && h.observing == (e != OnDestroy)
  {
    owner.Move(e);
    if h.observing {
      h.OnEvent(e);
    }
  }

  /** Registering against a destroyed owner attaches nothing; a later create reaches no one. */
  method DestroyedThenRegisterThenCreate(span: LifeSpan) returns (calls: seq<Call>, observing: bool)
    ensures calls == [] && !observing
  {
    var owner := new Owner(map[]);
    owner.Move(OnDestroy);
    var h := new LifecycleHandler(LifecycleBase);
    h.Register(owner, span);
    Deliver(owner, h, OnCreate);
    calls, observing := h.calls, h.observing;
  }

  /** One stop/start cycle of an observing, alive STARTED handler: it is killed, then born again. */
  method StopStart(owner: Owner, h: LifecycleHandler)
    requires h.Valid() && h.owner == owner && h.observing && h.alive
    requires h.base == LifecycleBase && h.span == LifeSpan.Started
    modifies owner`state, h`alive, h`calls, h`observing
    ensures h.Valid() && h.observing && h.alive && owner.state == State.Started
    ensures h.calls == old(h.calls) + [OnDie, OnBorn]
  {
    Deliver(owner, h, OnStop);
    Deliver(owner, h, OnStart);
  }

  /** A STARTED life through create, start, stop, start is born twice and dies once. */
  method StartedStopThenStart() returns (calls: seq<Call>, borns: nat, dies: nat)
    ensures calls == [OnBorn, OnDie, OnBorn]
    ensures borns == Count(calls, OnBorn) == 2 && dies == Count(calls, OnDie) == 1
  {
    var owner := new Owner(map[]);
    var h := new LifecycleHandler(LifecycleBase);
    h.Register(owner, LifeSpan.Started);
    Deliver(owner, h, OnCreate);
    assert h.calls == [] && !h.alive && h.observing;
    Deliver(owner, h, OnStart);
    assert h.calls == [OnBorn] && h.alive && h.observing;
    StopStart(owner, h);
    calls := h.calls;
    assert calls == [OnBorn, OnDie, OnBorn] && h.alive;
    PairedCounts(calls, h.alive);
    borns, dies := Count(calls, OnBorn), Count(calls, OnDie);
  }

  /** After destroy the handler is detached: a later start adds no call. */
  method StartedDestroyThenStart() returns (calls: seq<Call>, observing: bool)
    ensures calls == [OnBorn, OnDie] && !observing
  {
    var owner := new Owner(map[]);
    var h := new LifecycleHandler(LifecycleBase);
    h.Register(owner, LifeSpan.Started);
    Deliver(owner, h, OnCreate);
    Deliver(owner, h, OnStart);
    Deliver(owner, h, OnDestroy);
    Deliver(owner, h, OnStart);
    calls, observing := h.calls, h.observing;
  }

  /** One resume/pause cycle of an observing, dead RESUMED handler: it is born, then killed. */
  method ResumePause(owner: Owner, h: LifecycleHandler)
    requires h.Valid() && h.owner == owner && h.observing && !h.alive
    requires h.base == LifecycleBase && h.span == LifeSpan.Resumed
    modifies owner`state, h`alive, h`calls, h`observing
    ensures h.Valid() && h.observing && !h.alive && owner.state == State.Started
    ensures h.calls == old(h.calls) + [OnBorn, OnDie]
  {
    Deliver(owner, h, OnResume);
    Deliver(owner, h, OnPause);
  }

  /** A RESUMED life through create, start, resume, pause, resume, pause is born and dies twice. */
  method ResumedPausedTwice() returns (calls: seq<Call>, borns: nat, dies: nat)
    ensures borns == Count(calls, OnBorn) == 2 && dies == Count(calls, OnDie) == 2
  {
    var owner := new Owner(map[]);
    var h := new LifecycleHandler(LifecycleBase);
    h.Register(owner, LifeSpan.Resumed);
    Deliver(owner, h, OnCreate);
    Deliver(owner, h, OnStart);
    assert h.calls == [] && !h.alive && h.observing;
    ResumePause(owner, h);
    ResumePause(owner, h);
    calls := h.calls;
    assert calls == [OnBorn, OnDie, OnBorn, OnDie];
    PairedCounts(calls, h.alive);
    borns, dies := Count(calls, OnBorn), Count(calls, OnDie);
  }

  /** A late registration catches up: a STARTED life registered on a resumed owner is born at once. */
  method LateRegistrationCatchesUp() returns (calls: seq<Call>)
    ensures calls == [OnBorn]
  {
    var owner := new Owner(map[]);
    owner.Move(OnCreate);
    owner.Move(OnStart);
    owner.Move(OnResume);
    var h := new LifecycleHandler(LifecycleBase);
    h.Register(owner, LifeSpan.Started);
    calls := h.calls;
  }
}
