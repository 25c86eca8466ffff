/**
 * AndroidELifeHandlerImpl: a BaseLifeHandler registration whose life takes a
 * payload when born and returns one when it dies. The handler keeps the last
 * payload returned by onDie (keepBundle) and hands it to the next born unless
 * the saved-state registry has a restored payload for the key. It is also the
 * registry's provider for its key: a checkpoint while alive forces a die.
 */
module ELifeHandlers {
  import opened Wrappers
  import opened SavedState
  import opened Lifecycle
  import opened Pairing
  import opened Dispatch

  class ELifeHandler {
    var owner: Owner?
    var span: LifeSpan
    var key: string
    var alive: bool
    var keepBundle: Option<Bundle>
    var observing: bool
    var calls: seq<PayloadCall>  // the calls made on the registered ELife, in order

    /**
     * Born/die calls alternate starting with born, and the retained payload is
     * always the one the life returned from its latest onDie.
     */
    ghost predicate Valid()
      reads this
    {
      && PayloadPaired(calls, alive)
      && keepBundle == LastDied(calls)
      && (owner == null ==> !observing && calls == [])
    }

    constructor ()
      ensures Valid() && owner == null && !alive && !observing && calls == [] && keepBundle == None
    {
      owner := null;
      span := LifeSpan.UserFlow;
      key := "";
      alive := false;
      keepBundle := None;
      observing := false;
      calls := [];
    }

    /**
     * register: attaches to a live owner, registers itself as the saved-state
     * provider for key, then catches up; against a destroyed owner it does nothing.
     */
    method Register(owner: Owner, span: LifeSpan, key: string)
      requires Valid() && this.owner == null
      modifies this, owner.registry
      ensures Valid() && this.owner == owner && this.span == span && this.key == key
      ensures observing == (old(owner.state) != State.Destroyed)
      ensures owner.state == old(owner.state)
      ensures owner.registry.providers == old(owner.registry.providers) + (if observing then {key} else {})
      ensures var born := observing && LifeBornGuard(span, owner.state);
        && alive == born
        && calls == (if born then [BornWith(Lookup(old(owner.registry.restored), key))] else [])
        && owner.registry.restored == (if born then old(owner.registry.restored) - {key} else old(owner.registry.restored))
    {
      this.owner := owner;
      this.span := span;
      this.key := key;
      if owner.state != State.Destroyed {
        observing := true;
        owner.registry.RegisterSavedStateProvider(key);
        BornIfPossible();
      }
    }

    /** born: when dead, passes the restored payload for key, or else the retained one. */
    method Born()
      requires Valid() && owner != null
      modifies this`alive, this`calls, owner.registry
      ensures Valid() && alive && keepBundle == old(keepBundle)
      ensures owner.registry.providers == old(owner.registry.providers)
      ensures old(alive) ==> calls == old(calls) && unchanged(owner.registry)
      ensures !old(alive) ==>
        var restored := Lookup(old(owner.registry.restored), key);
        && calls == old(calls) + [BornWith(if restored.Some? then restored else old(keepBundle))]
        && owner.registry.restored == old(owner.registry.restored) - {key}
    {
      if !alive {
        var restored := owner.registry.ConsumeRestoredStateForKey(key);
        var payload := if restored.Some? then restored else keepBundle;
        var before := calls;
        PayloadBornKeepsPairing(before, payload);
        LastDiedAppend(before, BornWith(payload));
        alive := true;
        calls := before + [BornWith(payload)];
        assert PayloadPaired(calls, alive) && keepBundle == LastDied(calls);
      }
    }

    /** die: when alive, retains what onDie returns; dieResult is that value. */
    method Die(dieResult: Bundle)
      requires Valid() && owner != null
      modifies this`alive, this`calls, this`keepBundle
      ensures Valid() && !alive
      ensures calls == old(calls) + (if old(alive) then [DiedWith(dieResult)] else [])
      ensures keepBundle == if old(alive) then Some(dieResult) else old(keepBundle)
    {
      if alive {
        PayloadDieKeepsPairing(calls, dieResult);
        alive := false;
        keepBundle := Some(dieResult);
        calls := calls + [DiedWith(dieResult)];
      }
    }

    /** unregister: detaches from the owner and removes the provider for key. */
    method Unregister()
      requires Valid() && owner != null
      modifies this`observing, owner.registry
      ensures Valid() && !observing
      ensures owner.registry.providers == old(owner.registry.providers) - {key}
      ensures owner.registry.restored == old(owner.registry.restored)
    {
      observing := false;
      owner.registry.UnregisterSavedStateProvider(key);
    }

    /**
     * saveState: while alive, forces a die whose payload is both retained and
     * returned; while dead, returns the retained payload, or a fresh empty one.
     */
    method SaveState(dieResult: Bundle) returns (saved: Bundle)
      requires Valid() && owner != null
      modifies this`alive, this`calls, this`keepBundle
      ensures Valid() && !alive
      ensures old(alive) ==>
        && saved == dieResult && keepBundle == Some(dieResult)
        && calls == old(calls) + [DiedWith(dieResult)]
      ensures !old(alive) ==>
        && calls == old(calls) && keepBundle == old(keepBundle)
        && (if keepBundle.Some? then saved == keepBundle.value else fresh(saved))
    {
      if alive {
        PayloadDieKeepsPairing(calls, dieResult);
        alive := false;
        calls := calls + [DiedWith(dieResult)];
        keepBundle := Some(dieResult);
        saved := dieResult;
      } else if keepBundle.Some? {
        saved := keepBundle.value;
      } else {
        saved := new Bundle();
      }
    }

    method BornIfPossible()
      requires Valid() && owner != null
      modifies this`alive, this`calls, owner.registry
      ensures Valid() && keepBundle == old(keepBundle)
      ensures owner.registry.providers == old(owner.registry.providers)
      ensures var fire := LifeBornGuard(span, owner.state);
        && alive == (old(alive) || fire)
        && (fire && !old(alive) ==>
            var restored := Lookup(old(owner.registry.restored), key);
            && calls == old(calls) + [BornWith(if restored.Some? then restored else old(keepBundle))]
            && owner.registry.restored == old(owner.registry.restored) - {key})
        && (!fire || old(alive) ==> calls == old(calls) && unchanged(owner.registry))
    {
      if LifeBornGuard(span, owner.state) {
        Born();
      }
    }

    method DieIfPossible(dieResult: Bundle)
      requires Valid() && owner != null
      modifies this`alive, this`calls, this`keepBundle
      ensures Valid()
      ensures var dies := LifeDieGuard(span, owner.state) && old(alive);
        && alive == (old(alive) && !LifeDieGuard(span, owner.state))
        && calls == old(calls) + (if dies then [DiedWith(dieResult)] else [])
        && keepBundle == if dies then Some(dieResult) else old(keepBundle)
    {
      if LifeDieGuard(span, owner.state) {
        Die(dieResult);
      }
    }

    /** The six event methods of BaseLifeHandler; dieResult is what onDie would return. */
    method OnEvent(e: Event, dieResult: Bundle)
      requires Valid() && owner != null
      modifies this`alive, this`calls, this`keepBundle, this`observing, owner.registry
      ensures Valid()
      ensures var acts := Reaction(LifeBase, span, owner.state, e);
        && (InvokeBorn in acts ==>
              && alive && keepBundle == old(keepBundle)
              && owner.registry.providers == old(owner.registry.providers)
              && (old(alive) ==> calls == old(calls))
              && (!old(alive) ==>
                   var restored := Lookup(old(owner.registry.restored), key);
                   calls == old(calls) + [BornWith(if restored.Some? then restored else old(keepBundle))]))
        && (InvokeDie in acts ==>
              && !alive
              && calls == old(calls) + (if old(alive) then [DiedWith(dieResult)] else [])
              && keepBundle == (if old(alive) then Some(dieResult) else old(keepBundle)))
        && (InvokeBorn !in acts && InvokeDie !in acts ==>
              alive == old(alive) && calls == old(calls) && keepBundle == old(keepBundle))
        && observing == (old(observing) && InvokeUnregister !in acts)
        && owner.registry.providers == old(owner.registry.providers) - (if InvokeUnregister in acts then {key} else {})
      ensures owner.registry.restored ==
        if InvokeBorn in Reaction(LifeBase, span, owner.state, e) && !old(alive)
        then old(owner.registry.restored) - {key} else old(owner.registry.restored)
    {
      ForwardBornsBackwardDies(LifeBase, span, owner.state, e);
      match e
      case OnCreate => BornIfPossible();
      case OnStart => BornIfPossible();
      case OnResume => BornIfPossible();
      case OnPause => DieIfPossible(dieResult);
      case OnStop => DieIfPossible(dieResult);
      case OnDestroy =>
        DieIfPossible(dieResult);
        Unregister();
    }
  }

  /** One owner step: move to the event's state, then notify the handler if it still observes. */
  method Deliver(owner: Owner, h: ELifeHandler, e: Event, dieResult: Bundle)
    requires h.Valid() && h.owner == owner
    modifies owner`state, h, owner.registry
    ensures h.Valid() && h.owner == owner && h.key == old(h.key) && h.span == old(h.span)
    ensures owner.state == StateAfter(e)
    ensures !old(h.observing) ==>
      h.alive == old(h.alive) && h.calls == old(h.calls) && h.keepBundle == old(h.keepBundle) && !h.observing
    ensures old(h.observing) ==> h.observing == (e != OnDestroy)
    ensures old(h.observing) && e.IsForward() && LifeBornGuard(h.span, StateAfter(e)) && !old(h.alive) ==>
      var restored := Lookup(old(owner.registry.restored), h.key);
      h.calls == old(h.calls) + [BornWith(if restored.Some? then restored else old(h.keepBundle))]
    ensures old(h.observing) && e.IsForward() && !(LifeBornGuard(h.span, StateAfter(e)) && !old(h.alive)) ==>
      h.calls == old(h.calls) && h.alive == old(h.alive)
    ensures old(h.observing) && e.IsBackward() ==>
      var dies := LifeDieGuard(h.span, StateAfter(e)) && old(h.alive);
      && h.alive == (old(h.alive) && !LifeDieGuard(h.span, StateAfter(e)))
      && h.calls == old(h.calls) + (if dies then [DiedWith(dieResult)] else [])
      && h.keepBundle == if dies then Some(dieResult) else old(h.keepBundle)
    ensures e.IsForward() ==> h.keepBundle == old(h.keepBundle)
    ensures owner.registry.providers == old(owner.registry.providers) - (if old(h.observing) && e == OnDestroy then {h.key} else {})
    ensures owner.registry.restored ==
      if old(h.observing) && e.IsForward() && LifeBornGuard(h.span, StateAfter(e)) && !old(h.alive)
      then old(owner.registry.restored) - {h.key} else old(owner.registry.restored)
  {
    owner.Move(e);
    if h.observing {
      h.OnEvent(e, dieResult);
    }
  }

  /**
   * A payload restored for the key of a STARTED life is still there after
   * create and reaches the onBorn made at start.
   */
  method RestoredPayloadWaitsForStart(key: string, restored: Bundle) returns (calls: seq<PayloadCall>)
    ensures calls == [BornWith(Some(restored))]
  {
    var owner := new Owner(map[key := restored]);
    var h := new ELifeHandler();
    h.Register(owner, LifeSpan.Started, key);
    assert h.calls == [] && h.observing && !h.alive;
    Deliver(owner, h, OnCreate, restored);
    assert h.calls == [] && h.observing && !h.alive;
    assert owner.registry.restored == map[key := restored];
    Deliver(owner, h, OnStart, restored);
    calls := h.calls;
  }

  /**
   * A checkpoint of the owner's saved-state registry: the provider registered
   * for the handler's key is asked for its payload.
   */
  method Checkpoint(owner: Owner, h: ELifeHandler, dieResult: Bundle) returns (saved: Option<Bundle>)
    requires h.Valid() && h.owner == owner
    modifies h
    ensures h.Valid() && h.owner == owner && h.key == old(h.key) && h.span == old(h.span)
    ensures h.observing == old(h.observing)
    ensures h.key !in owner.registry.providers ==> saved == None && h.calls == old(h.calls) && h.alive == old(h.alive)
    ensures h.key in owner.registry.providers ==> saved.Some? && !h.alive
    ensures h.key in owner.registry.providers && old(h.alive) ==>
      saved == Some(dieResult) && h.calls == old(h.calls) + [DiedWith(dieResult)] && h.keepBundle == Some(dieResult)
    ensures h.key in owner.registry.providers && !old(h.alive) ==>
      && h.calls == old(h.calls) && h.keepBundle == old(h.keepBundle)
      && (old(h.keepBundle).Some? ==> saved == old(h.keepBundle))
  {
    if h.key in owner.registry.providers {
      var b := h.SaveState(dieResult);
      saved := Some(b);
    } else {
      saved := None;
    }
  }

  /** A payload restored for the key reaches the first onBorn (the registry consumes it). */
  method RestoredPayloadReachesBorn(key: string, restored: Bundle) returns (calls: seq<PayloadCall>)
    ensures calls == [BornWith(Some(restored))]
  {
    var owner := new Owner(map[key := restored]);
    var h := new ELifeHandler();
    h.Register(owner, LifeSpan.Created, key);
    Deliver(owner, h, OnCreate, restored);
    calls := h.calls;
  }

  /** A checkpoint of a born CREATED life kills it and saves exactly what its onDie returned. */
  method CheckpointSavesDiePayload(key: string, result: Bundle) returns (saved: Option<Bundle>, calls: seq<PayloadCall>)
    ensures saved == Some(result)
    ensures calls == [BornWith(None), DiedWith(result)]
  {
    var owner := new Owner(map[]);
    var h := new ELifeHandler();
    h.Register(owner, LifeSpan.Created, key);
    Deliver(owner, h, OnCreate, result);
    saved := Checkpoint(owner, h, result);
    calls := h.calls;
  }

  /**
   * One stop/start cycle of an observing, alive STARTED handler with nothing
   * restored for its key: the restart hands back what the stop's onDie returned.
   */
  method StopStart(owner: Owner, h: ELifeHandler, result: Bundle)
    requires h.Valid() && h.owner == owner && h.observing && h.alive
    requires h.span == LifeSpan.Started && h.key !in owner.registry.restored
    modifies owner`state, h, owner.registry
    ensures h.Valid() && h.owner == owner && h.observing && h.alive && h.keepBundle == Some(result)
    ensures h.calls == old(h.calls) + [DiedWith(result), BornWith(Some(result))]
  {
    Deliver(owner, h, OnStop, result);
    assert h.calls == old(h.calls) + [DiedWith(result)] && h.keepBundle == Some(result);
    assert !h.alive && h.observing && h.key !in owner.registry.restored;
    Deliver(owner, h, OnStart, result);
  }

  /** A STARTED life stopped and restarted is born the second time with what it returned on dying. */
  method StopStartHandsBackPayload(key: string, result: Bundle) returns (calls: seq<PayloadCall>)
    ensures calls == [BornWith(None), DiedWith(result), BornWith(Some(result))]
  {
    var owner := new Owner(map[]);
    var h := new ELifeHandler();
    h.Register(owner, LifeSpan.Started, key);
    assert h.calls == [] && h.observing && owner.registry.restored == map[];
    Deliver(owner, h, OnCreate, result);
    assert h.calls == [] && !h.alive && h.observing;
    assert owner.registry.restored == map[];
    Deliver(owner, h, OnStart, result);
    assert h.calls == [BornWith(None)] && h.alive && h.observing;
    assert owner.registry.restored == map[];
    StopStart(owner, h, result);
    calls := h.calls;
  }

  /**
   * The die guard of BaseLifeHandler fires on a pause for a CREATED life: a
   * CREATED life registered on a resumed owner is born at once and dies at
   * the owner's next pause.
   */
  method CreatedDiesOnPause(key: string, result: Bundle) returns (calls: seq<PayloadCall>)
    ensures calls == [BornWith(None), DiedWith(result)]
  {
    var owner := new Owner(map[]);
    owner.Move(OnCreate);
    owner.Move(OnStart);
    owner.Move(OnResume);
    var h := new ELifeHandler();
    h.Register(owner, LifeSpan.Created, key);
    Deliver(owner, h, OnPause, result);
    calls := h.calls;
  }
}
