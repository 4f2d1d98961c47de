/**
 The per-session key/value store of the host framework and initialize, the
 get-or-insert on it that keeps one object (such as the App router) alive
 across the reruns of a script.
 */
module Session {

  /** What a call gives back: a value, or an exception that propagates to the caller. */
  datatype Made<V> = Returned(v: V) | Raised

  /**
   The default handed to initialize: a callable, which is called to make the
   value (Factory, carrying what that call does), or a plain value, stored as it is.
   */
  datatype Default<V> = Factory(call: Made<V>) | Plain(value: V) {
    /** What initialize gets from the default when the key is missing. */
    function Produce(): (m: Made<V>) {
      match this
      case Factory(made) => made
      case Plain(v) => Returned(v)
    }
  }

  /**
   The store after initialize(key, default): nothing already there changes, and
   the key is there afterwards unless it was missing and the factory raised.
   */
  function Initialized<V>(store: map<string, V>, key: string, default: Default<V>): (after: map<string, V>)
    ensures store.Keys <= after.Keys <= store.Keys + {key}
    ensures forall k :: k in store ==> after[k] == store[k]
    ensures key in after <==> key in store || default.Produce().Returned?
    ensures key !in store && default.Plain? ==> after[key] == default.value
    ensures key !in store && default.Factory? && default.call.Returned? ==> after[key] == default.call.v
  {
    if key in store then store
    else match default.Produce()
      case Returned(v) => store[key := v]
      case Raised => store
  }

  /**
   Once initialize has put a value under key, a further initialize of that key
   changes nothing, whatever its default.
   */
  lemma InitializeIdempotent<V>(store: map<string, V>, key: string, first: Default<V>, second: Default<V>)
    ensures key in Initialized(store, key, first) ==>
              Initialized(Initialized(store, key, first), key, second) == Initialized(store, key, first)
  {
  }

  /** The store after one initialize of key per script run, with the defaults of those runs in order. */
  function Rerun<V>(store: map<string, V>, key: string, defaults: seq<Default<V>>): (after: map<string, V>)
    decreases |defaults|
  {
    if defaults == [] then store
    else Rerun(Initialized(store, key, defaults[0]), key, defaults[1..])
  }

  /**
   If the first run's initialize leaves a value under key, the store ends as it
   was after that first run, however many runs follow. If it does not (the key
   was missing and the factory raised), the store is untouched and the next run
   starts over, calling its factory again.
   */
  lemma {:induction false} RerunKeepsFirst<V>(store: map<string, V>, key: string, defaults: seq<Default<V>>)
    requires defaults != []
    ensures key in Initialized(store, key, defaults[0]) ==>
              Rerun(store, key, defaults) == Initialized(store, key, defaults[0])
    ensures key !in Initialized(store, key, defaults[0]) ==>
              Rerun(store, key, defaults) == Rerun(store, key, defaults[1..])
    decreases |defaults|
  {
    var once := Initialized(store, key, defaults[0]);
    if key in once && |defaults| > 1 {
      RerunKeepsFirst(once, key, defaults[1..]);
      InitializeIdempotent(store, key, defaults[0], defaults[1]);
      assert defaults[1..][0] == defaults[1];
    }
  }

  /** The host framework's session_state for one browser session. */
  class SessionState<V> {
    var entries: map<string, V>
    /** How many times initialize has called a factory default. */
    ghost var factoryCalls: nat

    constructor ()
      ensures entries == map[] && factoryCalls == 0
    {
      entries := map[];
      factoryCalls := 0;
    }

    /**
     initialize(key, default): get-or-insert, returning what the store holds for
     key afterwards, or raising what a raising factory raised.
     */
    method Initialize(key: string, default: Default<V>) returns (r: Made<V>)
      modifies this
      ensures entries == Initialized(old(entries), key, default)
      ensures r.Returned? <==> key in entries
      ensures r.Returned? ==> r.v == entries[key]
      ensures key in old(entries) ==> r == Returned(old(entries)[key]) && entries == old(entries)
      ensures key !in old(entries) ==> r == default.Produce()
      ensures factoryCalls == old(factoryCalls) + (if key !in old(entries) && default.Factory? then 1 else 0)
    {
      if key in entries {
      } else if default.Factory? {
        factoryCalls := factoryCalls + 1;
        if default.call.Raised? {
          return Raised;
        }
        entries := entries[key := default.call.v];
      } else {
        entries := entries[key := default.value];
      }
      r := Returned(entries[key]);
    }
  }
}
