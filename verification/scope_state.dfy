/**
 * The observable state of the scope registry as plain values, and each registry
 * operation as a function from the old state to the new one. The registry class
 * (module Registry) is specified by these functions.
 *
 * Three layers, all keyed by a key's name: values bound in memory, providers registered
 * through bindProvider, and the persisted store, which holds the values of keys flagged
 * `persist` (serialization is taken as exact, so the store holds values directly).
 */
module ScopeState {
  import opened Wrappers
  import opened Providers
  import opened TypedKeys

  datatype ScopeError = ProviderConflict

  datatype State = State(
    values: map<string, Value>,
    providers: map<string, InstanceProvider>,
    store: map<string, Value>)

  /** Everything the registry holds under one name. */
  datatype Entry = Entry(value: Option<Value>, provider: Option<InstanceProvider>, stored: Option<Value>)

  function Lookup<V>(m: map<string, V>, n: string): Option<V>
  {
    if n in m then Some(m[n]) else None
  }

  function Slice(s: State, n: string): Entry
  {
    Entry(Lookup(s.values, n), Lookup(s.providers, n), Lookup(s.store, n))
  }

  /** The state right after the registry is (re)initialised: every layer empty. */
  const Initial: State := State(map[], map[], map[])

  /** `has` and `get` of a key look at nothing but the entry under its name. */
  lemma SliceDetermines(s: State, t: State, key: TypedKey)
    requires Slice(s, key.name) == Slice(t, key.name)
    ensures Holds(s, key) == Holds(t, key)
    ensures Resolve(s, key) == Resolve(t, key)
  {
  }

  /** Where a read of a key is answered from: a provider's get(), or a plain value. */
  datatype Source = FromProvider(p: InstanceProvider) | FromValue(v: Value)

  /** The value a missing key reads as: false for a Boolean key, null for a String key. */
  function DefaultValue(t: ValueType): (r: Value)
    ensures r.BoolVal? <==> t == Bool
    ensures r.BoolVal? ==> !r.b
    ensures t == Str ==> r == Null
  {
    if t == Bool then BoolVal(false) else Null
  }

  /**
   * `has(key)`: a provider is registered under the key's name (by bindProvider, or by a
   * bind through the key's own provider), a value is bound, or a persisted copy exists.
   */
  predicate Holds(s: State, key: TypedKey)
  {
    key.name in s.providers || key.name in s.values || (key.persist && key.name in s.store)
  }

  /**
   * How `get(key)` resolves: the key's own provider, then a registered provider, then
   * the in-memory value, then (for a persisted key) the stored value, then the default.
   */
  function Resolve(s: State, key: TypedKey): (r: Source)
    ensures r.FromProvider? <==> key.HasProvider() || key.name in s.providers
    ensures r.FromProvider? ==> r.p in key.ProviderFootprint() + s.providers.Values
    ensures key.HasProvider() ==> r == FromProvider(key.provider.value)
    ensures !key.HasProvider() && !Holds(s, key) ==> r == FromValue(DefaultValue(key.typeOfValue))
  {
    if key.provider.Some? then FromProvider(key.provider.value)
    else if key.name in s.providers then FromProvider(s.providers[key.name])
    else if key.name in s.values then FromValue(s.values[key.name])
    else if key.persist && key.name in s.store then FromValue(s.store[key.name])
    else FromValue(DefaultValue(key.typeOfValue))
  }

  /**
   * The registry's part of `bind(key, v)`. A key with its own provider hands `v` to
   * that provider's update(), and the registry keeps that provider under the key's name,
   * so later reads and `has` see it. Any other key gets `v` in memory and, when
   * persisted, in the store, overwriting what was there.
   */
  function Bound(s: State, key: TypedKey, v: Value): (t: State)
    ensures Holds(t, key)
    ensures key.HasProvider() ==>
      t.providers == s.providers[key.name := key.provider.value] && t.values == s.values && t.store == s.store
    ensures !key.HasProvider() ==> t.providers == s.providers
    ensures !key.HasProvider() && key.name !in s.providers ==> Resolve(t, key) == FromValue(v)
    ensures !key.HasProvider() && key.persist ==> t.store == s.store[key.name := v]
    ensures !key.persist ==> t.store == s.store
    ensures forall n :: n != key.name ==> Slice(t, n) == Slice(s, n)
  {
    if key.provider.Some? then s.(providers := s.providers[key.name := key.provider.value])
    else State(
      s.values[key.name := v],
      s.providers,
      if key.persist then s.store[key.name := v] else s.store)
  }

  /** `bindIfAbsent(key, v)`: a bind when `has(key)` is false, and nothing otherwise. */
  function BoundIfAbsent(s: State, key: TypedKey, v: Value): (t: State)
    ensures Holds(s, key) ==> t == s
    ensures !Holds(s, key) ==> t == Bound(s, key, v)
    ensures Holds(s, key) ==> Resolve(t, key) == Resolve(s, key)
  {
    if Holds(s, key) then s else Bound(s, key, v)
  }

  /**
   * `remove(key)`: the in-memory value goes, and so does the stored copy of a persisted
   * key. A registered provider stays.
   */
  function Removed(s: State, key: TypedKey): (t: State)
    ensures key.name !in t.values
    ensures key.persist ==> key.name !in t.store
    ensures !key.persist ==> t.store == s.store
    ensures t.providers == s.providers
    ensures key.name !in s.providers ==> !Holds(t, key)
    ensures !key.HasProvider() && key.name !in s.providers ==>
      Resolve(t, key) == FromValue(DefaultValue(key.typeOfValue))
    ensures forall n :: n != key.name ==> Slice(t, n) == Slice(s, n)
  {
    State(
      s.values - {key.name},
      s.providers,
      if key.persist then s.store - {key.name} else s.store)
  }

  /**
   * `bindProvider(key, p)`: refused for a persisted key; otherwise `p` becomes the
   * registered provider for the key's name.
   */
  function ProviderBound(s: State, key: TypedKey, p: InstanceProvider): (r: Result<State, ScopeError>)
    ensures r.Failure? <==> key.persist
    ensures r.Failure? ==> r.error == ProviderConflict
    ensures r.Success? ==> Holds(r.value, key)
    ensures r.Success? && !key.HasProvider() ==> Resolve(r.value, key) == FromProvider(p)
    ensures r.Success? ==> r.value.values == s.values && r.value.store == s.store
    ensures r.Success? ==> r.value.providers == s.providers[key.name := p]
  {
    if key.persist then Failure(ProviderConflict)
    else Success(s.(providers := s.providers[key.name := p]))
  }

  /**
   * The state a restarted process starts from: memory and registered providers are
   * gone, and the durable store is read back as it was left.
   */
  function Reloaded(s: State): (t: State)
    ensures t.store == s.store
    ensures forall n :: Slice(t, n) == Slice(Initial, n).(stored := Lookup(s.store, n))
  {
    State(map[], map[], s.store)
  }
}
