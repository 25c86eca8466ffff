/**
 * AndroidExtendedLifecycleHandlerImpl: a BaseLifecycleHandler registration
 * whose life takes a payload when born and returns one when it dies. Unlike
 * the ELife handler, born never falls back to the retained payload: it gets
 * the restored payload for the key or a fresh empty one. The payload retained
 * from the latest die is handed out, once, by the next checkpoint taken while
 * the life is dead.
 */
module ExtendedHandlers {
  import opened Wrappers
  import opened SavedState
  import opened Lifecycle
  import opened Pairing
  import opened Dispatch

  /**
   * after is before plus one onBorn whose payload is present, and is the
   * restored payload whenever there was one.
   */
  ghost predicate BornAppended(before: seq<PayloadCall>, after: seq<PayloadCall>, restored: Option<Bundle>)
  {
    && |after| == |before| + 1
    && after[..|before|] == before
    && after[|before|].BornWith?
    && after[|before|].payload.Some?
    && (restored.Some? ==> after[|before|].payload == restored)
  }

  class ExtendedHandler {
    var owner: Owner?
    var span: LifeSpan
    var key: string
    var alive: bool
    var keepBundle: Option<Bundle>
    var observing: bool
    var calls: seq<PayloadCall>  // the calls made on the registered ExtendedLife, in order

    /** Born/die calls alternate starting with born; a retained payload is one onDie returned. */
    ghost predicate Valid()
      reads this
    {
      && PayloadPaired(calls, alive)
      && (keepBundle.Some? ==> DiedWith(keepBundle.value) in calls)
      && (owner == null ==> !observing && calls == [])
    }

    constructor ()
      ensures Valid() && owner == null && !alive && !observing && calls == [] && keepBundle == None
    {
      owner := null;
      span := LifeSpan.UserFlow;
      key := "";
      alive := false;
      keepBundle := None;
      observing := false;
      calls := [];
    }

    /** register: attaches to a live owner as observer and as the provider for key, then catches up. */
    method Register(owner: Owner, span: LifeSpan, key: string)
      requires Valid() && this.owner == null
      modifies this, owner.registry
      ensures Valid() && this.owner == owner && this.span == span && this.key == key
      ensures observing == (old(owner.state) != State.Destroyed)
      ensures owner.state == old(owner.state) && keepBundle == old(keepBundle)
      ensures owner.registry.providers == old(owner.registry.providers) + (if observing then {key} else {})
      ensures var born := observing && LifecycleBornGuard(span, owner.state);
        && alive == born
        && (born ==> BornAppended([], calls, Lookup(old(owner.registry.restored), key))
                     && owner.registry.restored == old(owner.registry.restored) - {key})
        && (!born ==> calls == [] && owner.registry.restored == old(owner.registry.restored))
    {
      this.owner := owner;
      this.span := span;
      this.key := key;
      if owner.state != State.Destroyed {
        observing := true;
        owner.registry.RegisterSavedStateProvider(key);
        BornIfPossible();
      }
    }

    /** born: when dead, passes the restored payload for key, or else a fresh empty one. */
    method Born()
      requires Valid() && owner != null
      modifies this`alive, this`calls, owner.registry
      ensures Valid() && alive && keepBundle == old(keepBundle)
      ensures owner.registry.providers == old(owner.registry.providers)
      ensures old(alive) ==> calls == old(calls) && unchanged(owner.registry)
      ensures !old(alive) ==>
        var restored := Lookup(old(owner.registry.restored), key);
        && BornAppended(old(calls), calls, restored)
        && (restored.None? ==> fresh(calls[|calls| - 1].payload.value))
        && owner.registry.restored == old(owner.registry.restored) - {key}
    {
      if !alive {
        var restored := owner.registry.ConsumeRestoredStateForKey(key);
        var payload: Bundle;
        if restored.Some? {
          payload := restored.value;
        } else {
          payload := new Bundle();
        }
        PayloadBornKeepsPairing(calls, Some(payload));
        alive := true;
        calls := calls + [BornWith(Some(payload))];
      }
    }

    /** die: when alive, retains what onDie returns; dieResult is that value. */
    method Die(dieResult: Bundle)
      requires Valid() && owner != null
      modifies this`alive, this`calls, this`keepBundle
      ensures Valid() && !alive
      ensures calls == old(calls) + (if old(alive) then [DiedWith(dieResult)] else [])
      ensures keepBundle == if old(alive) then Some(dieResult) else old(keepBundle)
    {
      if alive {
        PayloadDieKeepsPairing(calls, dieResult);
        alive := false;
        keepBundle := Some(dieResult);
        calls := calls + [DiedWith(dieResult)];
      }
    }

    /** unregister: detaches from the owner and removes the provider for key. */
    method Unregister()
      requires Valid() && owner != null
      modifies this`observing, owner.registry
      ensures Valid() && !observing
      ensures owner.registry.providers == old(owner.registry.providers) - {key}
      ensures owner.registry.restored == old(owner.registry.restored)
    {
      observing := false;
      owner.registry.UnregisterSavedStateProvider(key);
    }

    /**
     * saveState: while alive, forces a die and returns its payload without
     * retaining it; while dead, hands out the retained payload and forgets it,
     * or returns a fresh empty one.
     */
    method SaveState(dieResult: Bundle) returns (saved: Bundle)
      requires Valid() && owner != null
      modifies this`alive, this`calls, this`keepBundle
      ensures Valid() && !alive
      ensures old(alive) ==>
        && saved == dieResult && keepBundle == old(keepBundle)
        && calls == old(calls) + [DiedWith(dieResult)]
      ensures !old(alive) ==>
        && calls == old(calls) && keepBundle == None
        && (if old(keepBundle).Some? then saved == old(keepBundle).value else fresh(saved))
    {
      if alive {
        PayloadDieKeepsPairing(calls, dieResult);
        alive := false;
        calls := calls + [DiedWith(dieResult)];
        saved := dieResult;
      } else if keepBundle.Some? {
        saved := keepBundle.value;
        keepBundle := None;
      } else {
        saved := new Bundle();
      }
    }

    method BornIfPossible()
      requires Valid() && owner != null
      modifies this`alive, this`calls, owner.registry
      ensures Valid() && keepBundle == old(keepBundle)
      ensures owner.registry.providers == old(owner.registry.providers)
      ensures var fire := LifecycleBornGuard(span, owner.state);
        && alive == (old(alive) || fire)
        && (fire && !old(alive) ==>
            && BornAppended(old(calls), calls, Lookup(old(owner.registry.restored), key))
            && owner.registry.restored == old(owner.registry.restored) - {key})
        && (!fire || old(alive) ==> calls == old(calls) && unchanged(owner.registry))
    {
      if LifecycleBornGuard(span, owner.state) {
        Born();
      }
    }

    method DieIfPossible(dieResult: Bundle)
      requires Valid() && owner != null
      modifies this`alive, this`calls, this`keepBundle
      ensures Valid()
      ensures var dies := LifecycleDieGuard(span, owner.state) && old(alive);
        && alive == (old(alive) && !LifecycleDieGuard(span, owner.state))
        && calls == old(calls) + (if dies then [DiedWith(dieResult)] else [])
        && keepBundle == if dies then Some(dieResult) else old(keepBundle)
    {
      if LifecycleDieGuard(span, owner.state) {
        Die(dieResult);
      }
    }

    /** The six event methods of BaseLifecycleHandler; dieResult is what onDie would return. */
    method OnEvent(e: Event, dieResult: Bundle)
      requires Valid() && owner != null
      modifies this`alive, this`calls, this`keepBundle, this`observing, owner.registry
      ensures Valid()
      ensures var acts := Reaction(LifecycleBase, span, owner.state, e);
        && (InvokeBorn in acts ==>
              && alive && keepBundle == old(keepBundle)
              && (old(alive) ==> calls == old(calls))
              && (!old(alive) ==> BornAppended(old(calls), calls, Lookup(old(owner.registry.restored), key))))
        && (InvokeDie in acts ==>
              && !alive
              && calls == old(calls) + (if old(alive) then [DiedWith(dieResult)] else [])
              && keepBundle == (if old(alive) then Some(dieResult) else old(keepBundle)))
        && (InvokeBorn !in acts && InvokeDie !in acts ==>
              alive == old(alive) && calls == old(calls) && keepBundle == old(keepBundle))
        && observing == (old(observing) && InvokeUnregister !in acts)
        && owner.registry.providers == old(owner.registry.providers) - (if InvokeUnregister in acts then {key} else {})
      ensures owner.registry.restored ==
        if InvokeBorn in Reaction(LifecycleBase, span, owner.state, e) && !old(alive)
        then old(owner.registry.restored) - {key} else old(owner.registry.restored)
    {
      ForwardBornsBackwardDies(LifecycleBase, span, owner.state, e);
      match e
      case OnCreate => BornIfPossible();
      case OnStart => BornIfPossible();
      case OnResume => BornIfPossible();
      case OnPause => DieIfPossible(dieResult);
      case OnStop => DieIfPossible(dieResult);
      case OnDestroy =>
        DieIfPossible(dieResult);
        Unregister();
    }
  }

  /** One owner step: move to the event's state, then notify the handler if it still observes. */
  method Deliver(owner: Owner, h: ExtendedHandler, e: Event, dieResult: Bundle)
    requires h.Valid() && h.owner == owner
    modifies owner`state, h, owner.registry
    ensures h.Valid() && h.owner == owner && h.key == old(h.key) && h.span == old(h.span)
    ensures owner.state == StateAfter(e)
    ensures !old(h.observing) ==>
      h.alive == old(h.alive) && h.calls == old(h.calls) && h.keepBundle == old(h.keepBundle) && !h.observing
    ensures old(h.observing) ==> h.observing == (e != OnDestroy)
    ensures old(h.observing) && e.IsForward() && LifecycleBornGuard(h.span, StateAfter(e)) && !old(h.alive) ==>
      BornAppended(old(h.calls), h.calls, Lookup(old(owner.registry.restored), h.key)) && h.alive
    ensures old(h.observing) && e.IsForward() && !(LifecycleBornGuard(h.span, StateAfter(e)) && !old(h.alive)) ==>
      h.calls == old(h.calls) && h.alive == old(h.alive)
    ensures old(h.observing) && e.IsBackward() ==>
      var dies := LifecycleDieGuard(h.span, StateAfter(e)) && old(h.alive);
      && h.alive == (old(h.alive) && !LifecycleDieGuard(h.span, StateAfter(e)))
      && h.calls == old(h.calls) + (if dies then [DiedWith(dieResult)] else [])
      && h.keepBundle == if dies then Some(dieResult) else old(h.keepBundle)
    ensures e.IsForward() ==> h.keepBundle == old(h.keepBundle)
    ensures owner.registry.providers == old(owner.registry.providers) - (if old(h.observing) && e == OnDestroy then {h.key} else {})
    ensures owner.registry.restored ==
      if old(h.observing) && e.IsForward() && LifecycleBornGuard(h.span, StateAfter(e)) && !old(h.alive)
      then old(owner.registry.restored) - {h.key} else old(owner.registry.restored)
  {
    owner.Move(e);
    if h.observing {
      h.OnEvent(e, dieResult);
    }
  }

  /** A checkpoint of the owner's saved-state registry, asking the provider registered for the key. */
  method Checkpoint(owner: Owner, h: ExtendedHandler, dieResult: Bundle) returns (saved: Option<Bundle>)
    requires h.Valid() && h.owner == owner
    modifies h
    ensures h.Valid() && h.owner == owner && h.key == old(h.key) && h.span == old(h.span)
    ensures h.observing == old(h.observing)
    ensures h.key !in owner.registry.providers ==>
      saved == None && h.calls == old(h.calls) && h.alive == old(h.alive) && h.keepBundle == old(h.keepBundle)
    ensures h.key in owner.registry.providers ==> saved.Some? && !h.alive
    ensures h.key in owner.registry.providers && old(h.alive) ==>
      saved == Some(dieResult) && h.calls == old(h.calls) + [DiedWith(dieResult)] && h.keepBundle == old(h.keepBundle)
    ensures h.key in owner.registry.providers && !old(h.alive) ==>
      h.calls == old(h.calls) && h.keepBundle == None
      && (old(h.keepBundle).Some? ==> saved == old(h.keepBundle))
  {
    if h.key in owner.registry.providers {
      var b := h.SaveState(dieResult);
      saved := Some(b);
    } else {
      saved := None;
    }
  }

  /** A checkpoint before create neither borns nor kills the life. */
  method SaveBeforeCreate(key: string, result: Bundle) returns (saved: Option<Bundle>, calls: seq<PayloadCall>)
    ensures saved.Some? && calls == []
  {
    var owner := new Owner(map[]);
    var h := new ExtendedHandler();
    h.Register(owner, LifeSpan.Created, key);
    saved := Checkpoint(owner, h, result);
    calls := h.calls;
  }

  /** A CREATED life through create, checkpoint, destroy is born once and dies once, at the checkpoint. */
  method CreateSaveDestroy(key: string, result: Bundle) returns (saved: Option<Bundle>, calls: seq<PayloadCall>)
    ensures saved == Some(result)
    ensures Kinds(calls) == [OnBorn, OnDie] && calls[1] == DiedWith(result)
  {
    var owner := new Owner(map[]);
    var h := new ExtendedHandler();
    h.Register(owner, LifeSpan.Created, key);
    assert h.calls == [] && h.observing && key in owner.registry.providers;
    Deliver(owner, h, OnCreate, result);
    assert |h.calls| == 1 && h.calls[0].BornWith? && h.alive && h.observing;
    assert key in owner.registry.providers;
    saved := Checkpoint(owner, h, result);
    assert |h.calls| == 2 && h.calls[1] == DiedWith(result) && !h.alive && h.observing;
    Deliver(owner, h, OnDestroy, result);
    calls := h.calls;
    KindsAppend(calls[..1], calls[1]);
    KindsAppend([], calls[0]);
    assert calls[..1] == [] + [calls[0]];
    assert calls == calls[..1] + [calls[1]];
  }

  /**
   * One stop/start cycle of an observing, alive STARTED handler: the stop
   * retains what onDie returned and the restart is born again.
   */
  method StopStart(owner: Owner, h: ExtendedHandler, dieResult: Bundle)
    requires h.Valid() && h.owner == owner && h.observing && h.alive && h.span == LifeSpan.Started
    modifies owner`state, h, owner.registry
    ensures h.Valid() && h.owner == owner && h.key == old(h.key) && h.observing && h.alive
    ensures h.keepBundle == Some(dieResult) && owner.state == State.Started
    ensures owner.registry.providers == old(owner.registry.providers)
    ensures |h.calls| == |old(h.calls)| + 2 && h.calls[..|old(h.calls)|] == old(h.calls)
    ensures h.calls[|old(h.calls)|] == DiedWith(dieResult) && h.calls[|old(h.calls)| + 1].BornWith?
  {
    Deliver(owner, h, OnStop, dieResult);
    ghost var died := h.calls;
    assert died == old(h.calls) + [DiedWith(dieResult)] && !h.alive && h.observing;
    Deliver(owner, h, OnStart, dieResult);
    assert h.calls[..|died|] == died;
  }

  /**
   * A STARTED life through create, start, stop, start, checkpoint is born
   * twice and dies twice; the checkpoint returns the second die's payload
   * while the first one stays retained.
   */
  method StopStartThenSave(key: string, first: Bundle, second: Bundle)
    returns (saved: Option<Bundle>, calls: seq<PayloadCall>, kept: Option<Bundle>)
    ensures saved == Some(second) && kept == Some(first)
    ensures Count(Kinds(calls), OnBorn) == 2 && Count(Kinds(calls), OnDie) == 2
  {
    var owner := new Owner(map[]);
    var h := new ExtendedHandler();
    h.Register(owner, LifeSpan.Started, key);
    assert h.calls == [] && h.observing && key in owner.registry.providers;
    Deliver(owner, h, OnCreate, first);
    assert h.calls == [] && !h.alive && h.observing;
    Deliver(owner, h, OnStart, first);
    assert |h.calls| == 1 && h.alive && h.observing && key in owner.registry.providers;
    StopStart(owner, h, first);
    assert |h.calls| == 3 && h.alive && h.keepBundle == Some(first);
    saved := Checkpoint(owner, h, second);
    calls, kept := h.calls, h.keepBundle;
    assert |calls| == 4;
    PairedCounts(Kinds(calls), h.alive);
  }
}
