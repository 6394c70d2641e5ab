/**
 * The scope registry: one object holding, per key name, a bound value, a registered
 * provider and a persisted copy. Each operation changes the object's fields exactly as
 * the matching function of ScopeState changes a State, and says what `get` and `has`
 * answer afterwards.
 */
module Registry {
  import opened Wrappers
  import opened Providers
  import opened TypedKeys
  import opened ScopeState

  class AppScope {
    var values: map<string, Value>
    var providers: map<string, InstanceProvider>
    var store: map<string, Value>

    /** The registry's fields as a State value. */
    function Snapshot(): State
      reads this
    {
      State(values, providers, store)
    }

    /** A registry set up by `TestAccess.init`: nothing bound, registered or stored. */
    constructor ()
      ensures Snapshot() == Initial
      ensures forall key: TypedKey :: !Has(key)
    {
      values, providers, store := map[], map[], map[];
    }

    /**
     * `TestAccess.init`: re-initialisation drops every bound value, every registered
     * provider and every persisted copy, whatever the keys' `config` and `persist` flags.
     */
    method Init()
      modifies this
      ensures Snapshot() == Initial
      ensures forall key: TypedKey :: !Has(key)
    {
      values, providers, store := map[], map[], map[];
    }

    /**
     * `has(key)`: a bound value or a registered provider always counts; a persisted copy
     * counts for a persisted key only. A key that is not held and brings no provider of
     * its own reads as its default.
     */
    function Has(key: TypedKey): (b: bool)
      reads this
      ensures key.name in values || key.name in providers ==> b
      ensures key.persist && key.name in store ==> b
      ensures b ==> key.name in values || key.name in providers || key.name in store
      ensures !key.persist && key.name !in values && key.name !in providers ==> !b
      ensures !b && !key.HasProvider() ==> Resolve(Snapshot(), key) == FromValue(DefaultValue(key.typeOfValue))
    {
      Holds(Snapshot(), key)
    }

    /**
     * `get(key)`: the key's own provider answers first, then a registered provider;
     * otherwise the bound or persisted value, and a missing key reads as its default.
     */
    function Get(key: TypedKey): (r: Value)
      reads this, providers.Values, key.ProviderFootprint()
      ensures key.HasProvider() ==> r == key.provider.value.Get()
      ensures !key.HasProvider() && key.name in providers ==> r == providers[key.name].Get()
      ensures !key.HasProvider() && !Has(key) ==> r == DefaultValue(key.typeOfValue)
    {
      match Resolve(Snapshot(), key)
      case FromProvider(p) => p.Get()
      case FromValue(v) => v
    }

    /**
     * `bind(key, v)`: a key with its own provider passes `v` to that provider's
     * update(), and the registry keeps that provider under the key's name; any other key
     * stores `v`, in memory and, when persisted, on disk.
     */
    method Bind(key: TypedKey, v: Value)
      modifies this, key.ProviderFootprint()
      ensures Snapshot() == Bound(old(Snapshot()), key, v)
      ensures key.HasProvider() ==> key.provider.value.Get() == v
      ensures key.HasProvider() || key.name !in old(providers) ==> Get(key) == v
      ensures Has(key)
    {
      if key.provider.Some? {
        key.provider.value.Update(v);
        providers := providers[key.name := key.provider.value];
      } else {
        values := values[key.name := v];
        if key.persist {
          store := store[key.name := v];
        }
      }
    }

    /** `bindIfAbsent(key, v)`: binds only when `has(key)` is false; never overwrites. */
    method BindIfAbsent(key: TypedKey, v: Value)
      modifies this, key.ProviderFootprint()
      ensures Snapshot() == BoundIfAbsent(old(Snapshot()), key, v)
      ensures old(Has(key)) ==> unchanged(this) && unchanged(key.ProviderFootprint())
      ensures !old(Has(key)) ==> Get(key) == v
      ensures Has(key)
    {
      if !Has(key) {
        Bind(key, v);
      }
    }

    /** `remove(key)`: drops the bound value and a persisted copy; a registered provider stays. */
    method Remove(key: TypedKey)
      modifies this
      ensures Snapshot() == Removed(old(Snapshot()), key)
      ensures key.name !in providers ==> !Has(key)
      ensures !key.HasProvider() && key.name !in providers ==> Get(key) == DefaultValue(key.typeOfValue)
    {
      values := values - {key.name};
      if key.persist {
        store := store - {key.name};
      }
    }

    /**
     * `bindProvider(key, p)`: fails with ProviderConflict, changing nothing, when the
     * key is persisted; otherwise registers `p`, whose get() then answers `get(key)`.
     */
    method BindProvider(key: TypedKey, p: InstanceProvider) returns (result: Outcome<ScopeError>)
      modifies this
      ensures result.Fail? <==> key.persist
      ensures result.Fail? ==> result.error == ProviderConflict && unchanged(this)
      ensures result.Pass? ==> ProviderBound(old(Snapshot()), key, p) == Success(Snapshot())
      ensures result.Pass? ==> Has(key)
      ensures result.Pass? && !key.HasProvider() ==> Get(key) == p.Get()
    {
      if key.persist {
        return Fail(ProviderConflict);
      }
      providers := providers[key.name := p];
      result := Pass;
    }
  }
}
