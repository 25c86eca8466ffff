/**
 * LifeStoreImpl and LifeWrapper: a map from keys to wrapped USER_FLOW lives
 * that lets one life outlast the owner that created it. Each owner registers
 * the wrapper with a BaseLifeHandler-based handler; a wrapper that is kept
 * ignores the next die, and a wrapper that dies leaves the store.
 */
module LifeStores {
  import opened Wrappers
  import opened Lifecycle
  import opened Pairing
  import opened Dispatch
  import opened LifecycleHandlers

  /** The identity of a Life object produced by a factory; the life itself is outside the model. */
  type LifeId = nat

  class LifeWrapper {
    const key: string
    const life: LifeId
    const store: LifeStoreImpl   // the map the wrapper removes itself from
    var keep: bool
    var isAlive: bool
    var lifeCalls: seq<Call>     // the calls forwarded to the wrapped life, in order

    /** Calls forwarded to the wrapped life alternate starting with onBorn. */
    ghost predicate Valid()
      reads this
    {
      Paired(lifeCalls, isAlive)
    }

    constructor (key: string, life: LifeId, store: LifeStoreImpl)
      ensures this.key == key && this.life == life && this.store == store
      ensures !keep && !isAlive && lifeCalls == [] && Valid()
    {
      this.key := key;
      this.life := life;
      this.store := store;
      keep := false;
      isAlive := false;
      lifeCalls := [];
    }

    /** onBorn: forwards to the life only on the dead-to-alive transition. */
    method OnBorn()
      requires Valid() && store.Valid()
      modifies this`isAlive, this`lifeCalls
      ensures Valid() && store.Valid() && isAlive
      ensures lifeCalls == old(lifeCalls) + BornCalls(old(isAlive))
    {
      BornKeepsPairing(lifeCalls, isAlive);
      if !isAlive {
        isAlive := true;
        lifeCalls := lifeCalls + [Call.OnBorn];
      }
    }

    /**
     * onDie: when alive and not kept, forwards to the life and removes the
     * key from the store; otherwise does nothing.
     */
    method OnDie()
      requires Valid() && store.Valid()
      modifies this`isAlive, this`lifeCalls, store`entries
      ensures Valid() && store.Valid()
      ensures var dies := old(isAlive) && !keep;
        && isAlive == (old(isAlive) && !dies)
        && lifeCalls == old(lifeCalls) + (if dies then [Call.OnDie] else [])
        && store.entries == if dies then old(store.entries) - {key} else old(store.entries)
    {
      if isAlive && !keep {
        DieKeepsPairing(lifeCalls, isAlive);
        isAlive := false;
        lifeCalls := lifeCalls + [Call.OnDie];
        store.entries := store.entries - {key};
      }
    }
  }

  class LifeStoreImpl {
    var entries: map<string, LifeWrapper>

    /** Every wrapper is filed under its own key, belongs to this store and keeps its pairing. */
    ghost predicate Valid()
      reads this, entries.Values
    {
      forall k :: k in entries ==>
        entries[k].key == k && entries[k].store == this && entries[k].Valid()
    }

    constructor ()
      ensures entries == map[] && Valid()
    {
      entries := map[];
    }

    /**
     * provideLife: reuses the wrapper stored under key, clearing its keep
     * flag, or builds a life with the factory (made is what factory.get()
     * returns) and stores a fresh wrapper for it; either way the wrapper is
     * registered with handler under USER_FLOW. built says whether the factory
     * was called.
     */
    method ProvideLife(key: string, owner: Owner, made: LifeId, handler: LifecycleHandler)
      returns (life: LifeId, built: bool)
      requires Valid() && handler.Valid() && handler.owner == null && handler.base == LifeBase
      modifies this`entries, handler, if key in entries then {entries[key]} else {}
      ensures Valid() && key in entries && !entries[key].keep && entries[key].life == life
      ensures built <==> key !in old(entries)
      ensures key in old(entries) ==>
        && life == old(entries)[key].life && entries == old(entries)
        && entries[key].lifeCalls == old(entries[key].lifeCalls) + (if handler.alive then BornCalls(old(entries[key].isAlive)) else [])
        && entries[key].isAlive == (old(entries[key].isAlive) || handler.alive)
      ensures key !in old(entries) ==>
        && life == made && fresh(entries[key]) && entries == old(entries)[key := entries[key]]
        && entries[key].lifeCalls == (if handler.alive then [Call.OnBorn] else [])
        && entries[key].isAlive == handler.alive
      ensures handler.owner == owner && handler.span == LifeSpan.UserFlow
      ensures handler.observing == (owner.state != State.Destroyed)
      ensures handler.alive == (handler.observing && LifeBornGuard(LifeSpan.UserFlow, owner.state))
      ensures handler.calls == if handler.alive then [Call.OnBorn] else []
    {
      if key in entries {
        var w := entries[key];
        w.keep := false;
        handler.Register(owner, LifeSpan.UserFlow);
        if handler.alive {
          w.OnBorn();
        }
        life, built := w.life, false;
      } else {
        var w := new LifeWrapper(key, made, this);
        entries := entries[key := w];
        handler.Register(owner, LifeSpan.UserFlow);
        if handler.alive {
          w.OnBorn();
        }
        life, built := made, true;
      }
    }

    /** keep: marks the wrapper under key as kept; an absent key is ignored. */
    method Keep(key: string)
      requires Valid()
      modifies if key in entries then {entries[key]} else {}
      ensures Valid()
      ensures key in entries ==>
        && entries[key].keep
        && entries[key].isAlive == old(entries[key].isAlive)
        && entries[key].lifeCalls == old(entries[key].lifeCalls)
    {
      if key in entries {
        entries[key].keep := true;
      }
    }

    /** get: the wrapper stored under key, if any. */
    function Get(key: string): (r: Option<LifeWrapper>)
      reads this
      ensures r.Some? <==> key in entries
      ensures r.Some? ==> r.value == entries[key]
    {
      if key in entries then Some(entries[key]) else None
    }
  }

  /**
   * One owner step for a handler registered with wrapper w: the handler
   * reacts as Deliver says, and each onBorn/onDie it makes is a call on w.
   */
  method DeliverToWrapper(owner: Owner, h: LifecycleHandler, w: LifeWrapper, e: Event)
    requires h.Valid() && h.owner == owner && h.base == LifeBase && h.span == LifeSpan.UserFlow
    requires w.Valid() && w.store.Valid()
    modifies owner`state, h`alive, h`calls, h`observing, w`isAlive, w`lifeCalls, w.store`entries
    ensures h.Valid() && w.Valid() && w.store.Valid() && owner.state == StateAfter(e)
    ensures old(h.observing) ==> h.observing == (e != OnDestroy)
    ensures old(h.observing) && e.IsForward() ==>
      && h.alive && w.isAlive == (old(w.isAlive) || !old(h.alive))
      && w.lifeCalls == old(w.lifeCalls) + (if old(h.alive) then [] else BornCalls(old(w.isAlive)))
      && w.store.entries == old(w.store.entries)
    ensures old(h.observing) && e.IsBackward() ==>
      var dies := old(h.alive) && old(w.isAlive) && !w.keep;
      && !h.alive
      && w.isAlive == (old(w.isAlive) && !dies)
      && w.lifeCalls == old(w.lifeCalls) + (if dies then [Call.OnDie] else [])
      && w.store.entries == if dies then old(w.store.entries) - {w.key} else old(w.store.entries)
    ensures !old(h.observing) ==>
      && h.alive == old(h.alive) && h.calls == old(h.calls) && !h.observing
      && w.isAlive == old(w.isAlive) && w.lifeCalls == old(w.lifeCalls)
      && w.store.entries == old(w.store.entries)
  {
    var wasAlive := h.alive;
    Deliver(owner, h, e);
    if !wasAlive && h.alive {
      w.OnBorn();
    } else if wasAlive && !h.alive {
      w.OnDie();
    }
  }

  /** Without keep, the owner's destroy kills the life once and evicts its key. */
  method DestroyWithoutKeep(key: string, made: LifeId) returns (lifeCalls: seq<Call>, stored: bool)
    ensures lifeCalls == [Call.OnBorn, Call.OnDie] && !stored
  {
    var store := new LifeStoreImpl();
    var owner := new Owner(map[]);
    owner.Move(OnCreate);
    var h := new LifecycleHandler(LifeBase);
    var life, built := store.ProvideLife(key, owner, made, h);
    var w := store.entries[key];
    DeliverToWrapper(owner, h, w, OnDestroy);
    lifeCalls, stored := w.lifeCalls, store.Get(key).Some?;
  }

  /**
   * A kept life survives its owner's destroy: an owner provides the life under
   * key into an empty store, keeps it and is destroyed; the life is born once,
   * and stays stored and kept.
   */
  method DestroyAfterKeep(store: LifeStoreImpl, key: string, made: LifeId) returns (life: LifeId, w: LifeWrapper)
    requires store.Valid() && store.entries == map[]
    modifies store
    ensures store.Valid() && store.entries == map[key := w] && w.store == store && w.key == key
    ensures life == made && w.life == made
    ensures w.lifeCalls == [Call.OnBorn] && w.isAlive && w.keep
  {
    var owner := new Owner(map[]);
    owner.Move(OnCreate);
    var h := new LifecycleHandler(LifeBase);
    var built;
    life, built := store.ProvideLife(key, owner, made, h);
    w := store.entries[key];
    assert w.lifeCalls == [Call.OnBorn] && w.isAlive && h.alive && h.observing;
    store.Keep(key);
    DeliverToWrapper(owner, h, w, OnDestroy);
  }

  /**
   * The hand-off of one life across two owners: the second provideLife
   * returns the first life without calling its factory and clears keep; the
   * life is born once and dies once, at the second owner's destroy.
   */
  method HandOffBetweenOwners(key: string, firstMade: LifeId, secondMade: LifeId)
    returns (firstLife: LifeId, secondLife: LifeId, secondBuilt: bool, keptAfter: bool, lifeCalls: seq<Call>, stored: bool)
    ensures firstLife == secondLife == firstMade && !secondBuilt && !keptAfter
    ensures lifeCalls == [Call.OnBorn, Call.OnDie] && !stored
  {
    var store := new LifeStoreImpl();
    var w;
    firstLife, w := DestroyAfterKeep(store, key, firstMade);
    var second := new Owner(map[]);
    second.Move(OnCreate);
    var h2 := new LifecycleHandler(LifeBase);
    secondLife, secondBuilt := store.ProvideLife(key, second, secondMade, h2);
    assert store.entries[key] == w && !w.keep && w.isAlive && w.lifeCalls == [Call.OnBorn];
    assert h2.alive && h2.observing && h2.owner == second;
    keptAfter := store.entries[key].keep;
    DeliverToWrapper(second, h2, w, OnDestroy);
    lifeCalls, stored := w.lifeCalls, key in store.entries;
  }

  /** After an eviction the next provideLife calls the factory again and gets a new wrapper. */
  method ProvideAfterEviction(key: string, firstMade: LifeId, secondMade: LifeId)
    returns (secondLife: LifeId, secondBuilt: bool)
    ensures secondBuilt && secondLife == secondMade
  {
    var store := new LifeStoreImpl();
    var first := new Owner(map[]);
    first.Move(OnCreate);
    var h1 := new LifecycleHandler(LifeBase);
    var life, built := store.ProvideLife(key, first, firstMade, h1);
    var w := store.entries[key];
    DeliverToWrapper(first, h1, w, OnDestroy);
    var second := new Owner(map[]);
    var h2 := new LifecycleHandler(LifeBase);
    secondLife, secondBuilt := store.ProvideLife(key, second, secondMade, h2);
  }
}
