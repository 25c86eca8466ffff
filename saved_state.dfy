/**
 * The parts of the androidx saved-state machinery the persisted handlers
 * touch: an opaque payload with identity, and a registry that hands out a
 * restored payload once per key and keeps the set of keys that have a
 * provider.
 */
module SavedState {
  import opened Wrappers

  /** android.os.Bundle, as an opaque object: only its identity matters. */
  class Bundle {
    constructor ()
    {
    }
  }

  /** The value stored under a key, if any. */
  function Lookup(m: map<string, Bundle>, key: string): (r: Option<Bundle>)
    ensures r.Some? <==> key in m
    ensures r.Some? ==> r.value == m[key]
  {
    if key in m then Some(m[key]) else None
  }

  /** SavedStateRegistry: restored payloads not yet consumed, and provider keys. */
  class SavedStateRegistry {
    var restored: map<string, Bundle>
    var providers: set<string>

    constructor (restored: map<string, Bundle>)
      ensures this.restored == restored && providers == {}
    {
      this.restored := restored;
      providers := {};
    }

    /** consumeRestoredStateForKey: a one-shot lookup that forgets the entry. */
    method ConsumeRestoredStateForKey(key: string) returns (b: Option<Bundle>)
      modifies this
      ensures b == Lookup(old(restored), key)
      ensures restored == old(restored) - {key}
      ensures providers == old(providers)
    {
      b := Lookup(restored, key);
      restored := restored - {key};
    }

    method RegisterSavedStateProvider(key: string)
      modifies this
      ensures providers == old(providers) + {key}
      ensures restored == old(restored)
    {
      providers := providers + {key};
    }

    method UnregisterSavedStateProvider(key: string)
      modifies this
      ensures providers == old(providers) - {key}
      ensures restored == old(restored)
    {
      providers := providers - {key};
    }
  }
}
