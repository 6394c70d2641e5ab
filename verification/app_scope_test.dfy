/**
 * The unit tests of the scope registry, each as a client of AppScope. Every test starts
 * from a freshly initialised registry (the tests' setUp) and returns what the test reads
 * from it; the postconditions are the tests' assertions.
 */
module AppScopeTest {
  import opened Wrappers
  import opened Providers
  import opened TypedKeys
  import opened ScopeState
  import opened Registry

  /** A Boolean key reads false until bound, true once bound, and false after removal. */
  method BooleanDefaultValueOnGet() returns (initially: Value, bound: Value, removed: Value)
    ensures initially == BoolVal(false) && bound == BoolVal(true) && removed == BoolVal(false)
  {
    var scope := new AppScope();
    var testKey := NewFlaggedKey("testKey", Bool, false, false);
    scope.Remove(testKey);
    initially := scope.Get(testKey);
    scope.Bind(testKey, BoolVal(true));
    bound := scope.Get(testKey);
    scope.Remove(testKey);
    removed := scope.Get(testKey);
  }

  /** A String key reads null until bound, and the bound string afterwards. */
  method TestBind() returns (initially: Value, bound: Value)
    ensures initially == Null && bound == StrVal("19999999999")
  {
    var scope := new AppScope();
    var key := NewFlaggedKey("userId", Str, false, false);
    initially := scope.Get(key);
    scope.Bind(key, StrVal("19999999999"));
    bound := scope.Get(key);
  }

  /** A registered provider answers `get`. */
  method TestBindProvider() returns (got: Value)
    ensures got == StrVal("a")
  {
    var scope := new AppScope();
    var instanceProvider := new InstanceProvider(StrVal("a"));
    var key := NewFlaggedKey("key", Str, false, false);
    var outcome := scope.BindProvider(key, instanceProvider);
    got := scope.Get(key);
  }

  /** bindProvider on a persisted key fails. */
  method TestBindProviderCantBeUsedWithPersistableKeys() returns (outcome: Outcome<ScopeError>)
    ensures outcome == Fail(ProviderConflict)
  {
    var scope := new AppScope();
    var key := NewFlaggedKey("key", Str, false, true);
    var instanceProvider := new InstanceProvider(StrVal("a"));
    outcome := scope.BindProvider(key, instanceProvider);
  }

  /**
   * A persisted key whose descriptor supplies a provider: bind goes to the provider's
   * update(), and `get` then reads the bound value back through it.
   */
  method TestBindProviderWithInstanceProvider() returns (got: Value)
    ensures got == StrVal("b")
  {
    var scope := new AppScope();
    var instanceProvider := new InstanceProvider(StrVal("a"));
    var key := OverrideProvider(NewFlaggedKey("key", Str, false, true), instanceProvider);
    scope.Bind(key, StrVal("b"));
    got := scope.Get(key);
  }

  /** bindIfAbsent on a bound key leaves the earlier value in place. */
  method TestBindIfNew() returns (bound: Value, afterBindIfAbsent: Value)
    ensures bound == StrVal("19999999999")
    ensures afterBindIfAbsent == StrVal("19999999999") && afterBindIfAbsent != StrVal("16506953562")
  {
    var scope := new AppScope();
    var key := NewFlaggedKey("userId", Str, false, false);
    scope.Bind(key, StrVal("19999999999"));
    bound := scope.Get(key);
    scope.BindIfAbsent(key, StrVal("16506953562"));
    afterBindIfAbsent := scope.Get(key);
  }

  /** Binds a key, re-initialises the registry, and reports what `get` and `has` answered. */
  method BindThenReinit(key: TypedKey) returns (bound: Value, hasAfterInit: bool)
    requires !key.HasProvider()
    ensures bound == StrVal("a") && !hasAfterInit
  {
    var scope := new AppScope();
    scope.Bind(key, StrVal("a"));
    bound := scope.Get(key);
    scope.Init();
    hasAfterInit := scope.Has(key);
  }

  /** Re-initialisation clears a plain key. */
  method TestTestAccessReconfigure() returns (bound: Value, hasAfterInit: bool)
    ensures bound == StrVal("a") && !hasAfterInit
  {
    bound, hasAfterInit := BindThenReinit(NewFlaggedKey("userId", Str, false, false));
  }

  /** Re-initialisation clears a persisted key. */
  method TestReconfigureClearsPersistentProperties() returns (bound: Value, hasAfterInit: bool)
    ensures bound == StrVal("a") && !hasAfterInit
  {
    bound, hasAfterInit := BindThenReinit(NewFlaggedKey("key", Str, false, true));
  }

  /** Re-initialisation clears a key that is both a configuration key and persisted. */
  method TestReconfigureClearsConfigProperties() returns (bound: Value, hasAfterInit: bool)
    ensures bound == StrVal("a") && !hasAfterInit
  {
    bound, hasAfterInit := BindThenReinit(NewFlaggedKey("userId", Str, true, true));
  }
}
