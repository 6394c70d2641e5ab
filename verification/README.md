# appscope: typed keys and the scope registry, in Dafny

This project models the core of *appscope*, a process-wide typed scope registry for
Android applications. An application binds, reads and clears named values through the
registry. Each value is described by a `TypedKey`: a name, a declared value type, and two
flags. `config` marks an app configuration property that an app reset keeps. `persist`
marks a value that is saved to disk and reloaded when the app restarts. A key may also
supply its own `InstanceProvider`, an object that computes the value on `get()` and
accepts pushed values through `update()`.

Modules:

- `Wrappers` (`wrappers.dfy`): `Option`, `Result` and `Outcome`. `Option` stands in for a
  nullable reference; `Result` and `Outcome` stand in for thrown exceptions.
- `Providers` (`providers.dfy`): the `Value` datatype (null, a Boolean or a String) and
  the `InstanceProvider` class, one mutable field that `Update` sets and `Get` returns.
- `TypedKeys` (`typed_key.dfy`): the immutable key as a datatype. It covers the
  constructors, the static factory `Of`, the accessors, `equals`, `hashCode` (Java's
  `String.hashCode` with 32-bit wrap-around) and `toString`. An overridden `getProvider()`
  becomes the optional `provider` field.
- `ScopeState` (`scope_state.dfy`): the registry's state as a value. There are three maps,
  all keyed by name: bound values, registered providers and the persisted store. Each
  registry operation is a function from the old state to the new one.
- `Registry` (`registry.dfy`): the registry as the class `AppScope`. Its map fields are
  updated in place. Every method states its new state through a `ScopeState` function and
  says what `Get` and `Has` answer afterwards.
- `ScopeLaws` (`scope_laws.dfy`): laws over single operations and over whole call
  sequences. Bind overwrites. bindIfAbsent never overwrites. Remove undoes bind. Calls on
  other names leave a key's entry alone. Re-initialisation forgets every key.
- `AppScopeTest` (`app_scope_test.dfy`): each unit test as a client of a freshly
  initialised `AppScope`. The test's assertions are the method's postconditions; one method
  also states a read the test does not make, as its row says.

How the model resolves `get(key)`: the key's own provider comes first, then a provider
registered under its name, then the in-memory value, then the persisted copy (for
`persist` keys only), and last the default. The default is `false` for a Boolean key and
null for every other type.

`has(key)` is true when a provider is registered under the key's name, an in-memory value
exists, or (for a `persist` key) a persisted copy exists. `bind` on a key that brings its
own provider sends the value to that provider's `update()` and registers the provider
under the key's name. From then on the key is held, so `bindIfAbsent` never overwrites
it. A key's own provider that was never bound through does not make `has` true.

`AppScope.java` is not part of this model. The registry's behaviour comes from its unit
tests and from the documentation comments of `TypedKey`. Two choices follow the tests
directly:

- A String key that holds nothing reads as null, as `AppScopeTest.java:68` expects.
- `TestAccess.init` empties the persisted store too. The tests at
  `AppScopeTest.java:146-162` re-initialise with the same context and expect `has` to be
  false for persisted keys.

## Model

| member | source | states |
|---|---|---|
| `Providers.InstanceProvider.constructor` | src/test/java/com/peel/appscope/AppScopeTest.java:76-77 | A new provider's `get()` returns the initial value it was given. |
| `Providers.InstanceProvider.Update` | src/test/java/com/peel/appscope/AppScopeTest.java:78-83 | After `update(v)`, `get()` returns `v`. |
| `TypedKeys.NewKey` | src/main/java/com/peel/appscope/TypedKey.java:41-43 | The two-argument constructor stores name and type. The key is neither config nor persisted, and it has no provider. |
| `TypedKeys.NewFlaggedKey` | src/main/java/com/peel/appscope/TypedKey.java:52-57 | The four-argument constructor stores name, type, config and persist. Each accessor returns what was stored. The key has no provider. |
| `TypedKeys.Create` | src/main/java/com/peel/appscope/TypedKey.java:59-64 | The private constructor takes the type first and stores each argument in its own field. |
| `TypedKeys.Of` | src/main/java/com/peel/appscope/TypedKey.java:28-30 | `of(name, type, config, persist)` yields a key whose name is `name` and whose type is `type`, even though it reorders arguments for the private constructor. The flags are kept and the key has no provider. |
| `TypedKeys.OverrideProvider` | src/main/java/com/peel/appscope/TypedKey.java:82-92 | A key whose `getProvider()` is overridden has a provider, and `getProvider()` returns exactly that provider. Name, type and flags are unchanged, and the key is still equal to the base key. |
| `TypedKeys.TypedKey.EqualsAsWritten` | src/main/java/com/peel/appscope/TypedKey.java:100-109 | `equals` as written: false for null, a comparison of names for a key, and a ClassCastException for any other object. |
| `TypedKeys.TypedKey.Equals` | src/main/java/com/peel/appscope/TypedKey.java:100-109 | The corrected `equals`: true exactly when the argument is a key with the same name. It agrees with the written method wherever that method returns. |
| `TypedKeys.TypedKey.HashCode` | src/main/java/com/peel/appscope/TypedKey.java:95-97 | `hashCode()` is the name's `String.hashCode`, a value in Java's `int` range. |
| `Registry.AppScope.Has` | src/test/java/com/peel/appscope/AppScopeTest.java:137-162 | `has` is true when a value is bound or a provider is registered under the name, and for a persisted key also when a persisted copy exists. It is false when none of these exist. A key that is not held and has no provider of its own reads as its default. |
| `ScopeState.DefaultValue` | src/test/java/com/peel/appscope/AppScopeTest.java:55-72 | A missing Boolean key reads `false`, and a missing String key reads null. |
| `TypedKeys.TypedKey.GetProvider` | src/main/java/com/peel/appscope/TypedKey.java:86-92 | `getProvider()` returns the overriding provider, or null (None) when the key has none. |
| `TypedKeys.TypedKey.HasProvider` | src/main/java/com/peel/appscope/TypedKey.java:82-84 | `hasProvider()` holds iff `getProvider()` is non-null. |
| `TypedKeys.TypedKey.ToString` | src/main/java/com/peel/appscope/TypedKey.java:111-114 | `toString()` returns the name. |
| `TypedKeys.StringHash` | src/main/java/com/peel/appscope/TypedKey.java:95-97 | The name's `String.hashCode` lies in Java's `int` range, and the empty string hashes to 0. |
| `TypedKeys.StringHashIsPolynomial` | src/main/java/com/peel/appscope/TypedKey.java:95-97 | The name's hash, computed character by character as `h = 31 * h + c` with `int` wrap-around, equals the documented closed form `s[0]*31^(n-1) + ... + s[n-1]` reduced to a Java `int`. |
| `TypedKeys.EqualsIsEquivalence` | src/main/java/com/peel/appscope/TypedKey.java:100-109 | Key equality is reflexive, symmetric and transitive, and no key equals null. |
| `TypedKeys.EqualsIgnoresTypeAndFlags` | src/main/java/com/peel/appscope/TypedKey.java:107-108 | Two keys are equal iff their names are equal, whatever their type, flags or provider. |
| `TypedKeys.EqualKeysHashAlike` | src/main/java/com/peel/appscope/TypedKey.java:94-109 | Equal keys have equal hash codes. |
| `TypedKeys.ToStringIdentifiesKey` | src/main/java/com/peel/appscope/TypedKey.java:111-114 | `toString()` is the name. Two keys print alike iff they are equal. |
| `TypedKeys.EqualsAsWrittenThrowsOnForeign` | src/main/java/com/peel/appscope/TypedKey.java:107 | The written `equals` throws when given an object of another class, while the corrected one returns false. |
| `ScopeState.Resolve` | src/test/java/com/peel/appscope/AppScopeTest.java:55-88 | `get` is answered by a provider iff the key has its own provider or one is registered under its name. A key with its own provider reads through that provider. A key with no provider and nothing held reads as its type's default. |
| `ScopeState.Bound` | src/test/java/com/peel/appscope/AppScopeTest.java:107-124 | After `bind` the key is held. A key with its own provider only gets that provider registered under its name; values and store are untouched. Any other key reads back the bound value unless a registered provider answers for it; its persisted copy, if the key is persisted, is overwritten, and registered providers are untouched. Every other name is untouched. |
| `ScopeState.BoundIfAbsent` | src/test/java/com/peel/appscope/AppScopeTest.java:126-135 | `bindIfAbsent` is a no-op when `has(key)` holds, so the earlier value stays. Otherwise it is `bind`. |
| `ScopeState.Removed` | src/test/java/com/peel/appscope/AppScopeTest.java:55-63 | `remove` drops the in-memory value and, for a persisted key, the stored copy. Registered providers and other names are untouched. Without a provider the key is no longer held and reads as its default. |
| `ScopeState.ProviderBound` | src/test/java/com/peel/appscope/AppScopeTest.java:74-105 | `bindProvider` fails with ProviderConflict iff the key is persisted. Otherwise `p` becomes the provider registered under the key's name, every other name keeps its provider, the key is held, and a key without its own provider resolves to `p`. Values and store are untouched. |
| `ScopeState.Reloaded` | src/main/java/com/peel/appscope/TypedKey.java:48-50 | After an app restart, memory and registered providers are empty and the durable store is read back unchanged. |
| `Registry.AppScope.constructor` | src/test/java/com/peel/appscope/AppScopeTest.java:49-53 | A freshly initialised registry is empty, and `has` is false for every key. |
| `Registry.AppScope.Init` | src/test/java/com/peel/appscope/AppScopeTest.java:137-162 | `TestAccess.init` empties the memory, the providers and the store. Afterwards `has` is false for every key, whatever its config and persist flags. |
| `Registry.AppScope.Get` | src/test/java/com/peel/appscope/AppScopeTest.java:55-88 | `get` returns the key's own provider's value when there is one, and otherwise the registered provider's value. A key that is not held and has no provider reads as its default. |
| `Registry.AppScope.Bind` | src/test/java/com/peel/appscope/AppScopeTest.java:107-124 | `bind` routes the value to the key's own provider when there is one, even for a persisted key, and registers that provider under the key's name. Otherwise it stores the value as `Bound` says. Afterwards `has` is true, and `get` returns the value unless a provider registered earlier under the name answers for a key without its own. |
| `Registry.AppScope.BindIfAbsent` | src/test/java/com/peel/appscope/AppScopeTest.java:126-135 | When `has(key)` held before the call, nothing changes: neither the registry nor the key's provider. Otherwise it binds, and `get` returns the new value. Either way `has` is true afterwards, so a later call never overwrites, also for a key with its own provider. |
| `Registry.AppScope.Remove` | src/test/java/com/peel/appscope/AppScopeTest.java:55-63 | After `remove`, `has` is false and `get` returns the default unless a provider answers for the key. |
| `Registry.AppScope.BindProvider` | src/test/java/com/peel/appscope/AppScopeTest.java:74-105 | `bindProvider` fails with ProviderConflict and changes nothing iff the key is persisted. Otherwise the key is held, and for a key without its own provider `get` returns the registered provider's value. |
| `ScopeLaws.BindOverwrites` | src/test/java/com/peel/appscope/AppScopeTest.java:126-135 | A later `bind` on a key replaces an earlier one entirely. |
| `ScopeLaws.BindIfAbsentTwice` | src/test/java/com/peel/appscope/AppScopeTest.java:126-135 | A second `bindIfAbsent` on the same key changes nothing, for every key, including one with its own provider. |
| `ScopeLaws.RemoveIdempotent` | src/test/java/com/peel/appscope/AppScopeTest.java:58-62 | Removing twice is the same as removing once. |
| `ScopeLaws.RemoveUndoesBind` | src/test/java/com/peel/appscope/AppScopeTest.java:55-63 | `remove` after `bind` makes the key not held and brings `get` back to the default, unless a provider answers for the key. |
| `ScopeLaws.EqualKeysInterchangeable` | src/main/java/com/peel/appscope/TypedKey.java:100-109 | Equal keys that agree on persist and provider give the same `has`, `bind` and `remove`, and the same `get` whenever the key is held. |
| `ScopeLaws.PersistedBindSurvivesRestart` | src/main/java/com/peel/appscope/TypedKey.java:48-50 | After an app restart, a persisted key without its own provider reads back its bound value, and a key that is neither persisted nor provider-backed reads as its default. |
| `ScopeLaws.OtherKeysDoNotInterfere` | src/main/java/com/peel/appscope/TypedKey.java:37-38 | Any sequence of calls on other names, with no re-initialisation, leaves `has` of a key as it was, and the same provider or the same value answers its `get`. A provider object shared with another name can still change what it returns. |
| `ScopeLaws.InitForgetsEveryKey` | src/test/java/com/peel/appscope/AppScopeTest.java:137-162 | After re-initialisation followed by any calls on other names, `has(key)` is false, whatever the key's flags. |
| `ScopeLaws.BindIfAbsentNeverOverwrites` | src/test/java/com/peel/appscope/AppScopeTest.java:126-135 | Once a key is held, any number of `bindIfAbsent` calls on it leave the registry unchanged. |
| `AppScopeTest.BooleanDefaultValueOnGet` | src/test/java/com/peel/appscope/AppScopeTest.java:55-63 | An unbound Boolean key reads false, and reads true after `bind(key, true)`. The method also reads the key after the final `remove` and shows it is false again; the test removes there without asserting. |
| `AppScopeTest.TestBind` | src/test/java/com/peel/appscope/AppScopeTest.java:65-72 | An unbound String key reads null and reads the bound string after `bind`. |
| `AppScopeTest.TestBindProvider` | src/test/java/com/peel/appscope/AppScopeTest.java:74-88 | After `bindProvider` on a key that is not persisted, `get` returns the provider's value "a". |
| `AppScopeTest.TestBindProviderCantBeUsedWithPersistableKeys` | src/test/java/com/peel/appscope/AppScopeTest.java:90-105 | `bindProvider` on a persisted key fails. |
| `AppScopeTest.TestBindProviderWithInstanceProvider` | src/test/java/com/peel/appscope/AppScopeTest.java:107-124 | On a persisted key that supplies its own provider, `bind(key, "b")` goes to the provider, and `get` returns "b". |
| `AppScopeTest.TestBindIfNew` | src/test/java/com/peel/appscope/AppScopeTest.java:126-135 | `bindIfAbsent` on a bound key leaves the first value, which is not the second one. |
| `AppScopeTest.TestTestAccessReconfigure` | src/test/java/com/peel/appscope/AppScopeTest.java:137-144 | A plain key reads its bound value, and `has` is false for it after re-initialisation. |
| `AppScopeTest.TestReconfigureClearsPersistentProperties` | src/test/java/com/peel/appscope/AppScopeTest.java:146-153 | The same holds for a persisted key. |
| `AppScopeTest.TestReconfigureClearsConfigProperties` | src/test/java/com/peel/appscope/AppScopeTest.java:155-162 | The same holds for a key that is both config and persisted, so re-initialisation ignores the config exemption. |

## Left out

- `reset()`, the app-data reset that keeps `config` keys: `AppScope.java` is not part of this model, and no test calls it. The `config` flag is stored and read back, but no operation of the model honours it. Re-initialisation deliberately ignores it.
- ScopeLaws.PersistedBindSurvivesRestart: covers keys without their own provider only. A bind through a key's own provider goes only to that provider, so nothing is saved to the store, and a restart reloads nothing for that key; after a restart its `get` answers from its own provider again.
- Registry.AppScope.Get: does not copy a persisted value into memory when it reads it. Any such caching is internal to `AppScope.java` and invisible to `get` and `has`. For a key with its own provider, `get` always answers from that provider and ignores a provider that `bindProvider` registered under the same name; no test decides which of the two should win.
- Providers supplied by a key: the model's key holds one provider object for its lifetime. The test at `AppScopeTest.java:109-121` builds a new provider on every `getProvider()` call, so the real registry must keep the first one it obtains. The model keeps it when `bind` goes through it. Whether `get` alone also registers it is not modelled: in the model `get` changes nothing.
- `bind` on a key with no provider of its own but with a registered provider stores the value in memory, and `get` keeps answering from the registered provider. No test covers this case.
- TypedKeys.TypedKey: the name is never null. The Java constructors and `of` accept a null name without a check, and then `hashCode` and `equals` throw NullPointerException and `toString` returns null. Null names and those exceptions are not modelled.
- Android `Context` and `SharedPreferences`: the persisted store is an abstract map from name to value.
- Gson: serialisation is taken as an exact round trip, so the store holds values directly. Decoding failures are not modelled.
- Java reflection: a declared type is a tag (`Bool`, `Str`, `Other`) that only selects the default value. Numeric defaults are not modelled. Values are not checked against their key's declared type, which Java generics do at compile time.
- Synchronisation and thread safety of the registry: the model is sequential.
- `TypedKeys.StringHash` works on Dafny characters (Unicode scalar values), while Java hashes UTF-16 code units. The two differ only for names with characters above U+FFFF.
- JUnit and PowerMock setup (`AndroidFixtures`, the runner): each test starts from a new `AppScope`, which is what `setUp` produces.

## Findings

| source | as written | input that shows it | evidently intended | confidence | as-written member | corrected member |
|---|---|---|---|---|---|---|
| src/main/java/com/peel/appscope/TypedKey.java:107 | `equals(Object)` casts its argument to `TypedKey` without checking its class | `key.equals("key")` throws ClassCastException | `equals` returns false for an object of another class, as `Object.equals` requires | high that it throws; not executed | `TypedKeys.TypedKey.EqualsAsWritten` (shown by `TypedKeys.EqualsAsWrittenThrowsOnForeign`) | `TypedKeys.TypedKey.Equals` (proved an equivalence in `TypedKeys.EqualsIsEquivalence`) |
