/**
 * Laws of the scope registry over single operations and over whole call sequences:
 * bind overwrites, bindIfAbsent never overwrites (a bind through a key's own provider
 * registers that provider, so the key is held from then on), remove undoes bind,
 * operations on one name leave the entry under every other name alone, re-initialisation
 * forgets every key, and a persisted binding is what a restarted process reads back.
 */
module ScopeLaws {
  import opened Wrappers
  import opened Providers
  import opened TypedKeys
  import opened ScopeState

  /** One call a client makes on the registry. */
  datatype Call =
    | BindCall(key: TypedKey, v: Value)
    | BindIfAbsentCall(key: TypedKey, v: Value)
    | RemoveCall(key: TypedKey)
    | BindProviderCall(key: TypedKey, p: InstanceProvider)
    | InitCall

  /** The registry state after one call; a refused bindProvider changes nothing. */
  function Step(s: State, c: Call): State
  {
    match c
    case BindCall(key, v) => Bound(s, key, v)
    case BindIfAbsentCall(key, v) => BoundIfAbsent(s, key, v)
    case RemoveCall(key) => Removed(s, key)
    case BindProviderCall(key, p) =>
      (match ProviderBound(s, key, p)
       case Success(t) => t
       case Failure(_) => s)
    case InitCall => Initial
  }

  /** The registry state after a sequence of calls, first call first. */
  function Replay(s: State, calls: seq<Call>): State
    decreases |calls|
  {
    if calls == [] then s else Replay(Step(s, calls[0]), calls[1..])
  }

  /** Whether a call can affect what is held under name `n`. */
  predicate Touches(c: Call, n: string)
  {
    c.InitCall? || c.key.name == n
  }

  /** A later bind replaces an earlier one: bind overwrites. */
  lemma BindOverwrites(s: State, key: TypedKey, v: Value, w: Value)
    ensures Bound(Bound(s, key, v), key, w) == Bound(s, key, w)
  {
  }

  /** A second bindIfAbsent on the same key changes nothing. */
  lemma BindIfAbsentTwice(s: State, key: TypedKey, v: Value, w: Value)
    ensures BoundIfAbsent(BoundIfAbsent(s, key, v), key, w) == BoundIfAbsent(s, key, v)
  {
  }

  /** Removing twice is removing once. */
  lemma RemoveIdempotent(s: State, key: TypedKey)
    ensures Removed(Removed(s, key), key) == Removed(s, key)
  {
  }

  /**
   * Removing a bound key brings `get` back to the default and `has` back to false,
   * unless a provider answers for it.
   */
  lemma RemoveUndoesBind(s: State, key: TypedKey, v: Value)
    requires !key.HasProvider() && key.name !in s.providers
    ensures !Holds(Removed(Bound(s, key, v), key), key)
    ensures Resolve(Removed(Bound(s, key, v), key), key) == FromValue(DefaultValue(key.typeOfValue))
  {
  }

  /**
   * Keys that are equal (same name) and agree on `persist` and on their provider are
   * interchangeable in the registry; the declared type only changes the default.
   */
  lemma EqualKeysInterchangeable(s: State, a: TypedKey, b: TypedKey, v: Value)
    requires a.Equals(KeyRef(b)) && a.persist == b.persist && a.provider == b.provider
    ensures Holds(s, a) == Holds(s, b)
    ensures Bound(s, a, v) == Bound(s, b, v)
    ensures Removed(s, a) == Removed(s, b)
    ensures Holds(s, a) ==> Resolve(s, a) == Resolve(s, b)
  {
  }

  /**
   * A persisted key's binding is read back after a restart; a key that is not persisted
   * reads as its default after a restart.
   */
  lemma PersistedBindSurvivesRestart(s: State, key: TypedKey, v: Value)
    requires !key.HasProvider()
    ensures key.persist ==> Resolve(Reloaded(Bound(s, key, v)), key) == FromValue(v)
    ensures !key.persist ==>
      Resolve(Reloaded(Bound(s, key, v)), key) == FromValue(DefaultValue(key.typeOfValue))
  {
  }

  /** A call that does not touch name `n` leaves the entry under `n` as it was. */
  lemma StepFrame(s: State, c: Call, n: string)
    requires !Touches(c, n)
    ensures Slice(Step(s, c), n) == Slice(s, n)
  {
  }

  /** Calls on other names, however many, leave the entry under `n` as it was. */
  lemma {:induction false} ReplayFrame(s: State, calls: seq<Call>, n: string)
    requires forall i :: 0 <= i < |calls| ==> !Touches(calls[i], n)
    ensures Slice(Replay(s, calls), n) == Slice(s, n)
    decreases |calls|
  {
    if calls != [] {
      StepFrame(s, calls[0], n);
      ReplayFrame(Step(s, calls[0]), calls[1..], n);
    }
  }

  /**
   * Operations on other keys never change `has(key)`, nor which provider or which value
   * answers `get(key)`: the registry keeps one independent entry per name. (A provider
   * object shared by two names is still one object, so an update() through one name
   * changes what that provider returns for the other.)
   */
  lemma {:induction false} OtherKeysDoNotInterfere(s: State, calls: seq<Call>, key: TypedKey)
    requires forall i :: 0 <= i < |calls| ==> !Touches(calls[i], key.name)
    ensures Holds(Replay(s, calls), key) == Holds(s, key)
    ensures Resolve(Replay(s, calls), key) == Resolve(s, key)
  {
    ReplayFrame(s, calls, key.name);
    SliceDetermines(Replay(s, calls), s, key);
  }

  /**
   * After a re-initialisation followed by calls on other names only, `has(key)` is
   * false, whatever the key's `config` and `persist` flags.
   */
  lemma {:induction false} InitForgetsEveryKey(s: State, calls: seq<Call>, key: TypedKey)
    requires |calls| > 0 && calls[0] == InitCall
    requires forall i :: 1 <= i < |calls| ==> !Touches(calls[i], key.name)
    ensures !Holds(Replay(s, calls), key)
  {
    assert Replay(s, calls) == Replay(Initial, calls[1..]);
    OtherKeysDoNotInterfere(Initial, calls[1..], key);
  }

  /**
   * Once `has(key)` holds, any number of bindIfAbsent calls on that key change nothing.
   */
  lemma {:induction false} BindIfAbsentNeverOverwrites(s: State, calls: seq<Call>, key: TypedKey)
    requires Holds(s, key)
    requires forall i :: 0 <= i < |calls| ==> calls[i].BindIfAbsentCall? && calls[i].key == key
    ensures Replay(s, calls) == s
    decreases |calls|
  {
    if calls != [] {
      assert Step(s, calls[0]) == s;
      BindIfAbsentNeverOverwrites(s, calls[1..], key);
    }
  }
}
