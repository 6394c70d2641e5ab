/**
 * TypedKey: an immutable descriptor of one scope entry. It carries a name, the declared
 * type of its value and two independent flags: `config` (an app configuration property
 * that an app reset keeps) and `persist` (saved to durable storage and reloaded on app
 * restart). Identity, equality, hash code and string form all go by the name alone.
 */
module TypedKeys {
  import opened Wrappers
  import opened Providers

  /** The declared type of a key's value; it only selects the default value. */
  datatype ValueType = Bool | Str | Other

  /** What `equals(Object)` may be handed: null, another key, or an object of another class. */
  datatype Obj = NullRef | KeyRef(key: TypedKey) | ForeignRef

  datatype JavaException = ClassCastException

  const MinInt32: int := -0x8000_0000
  const MaxInt32: int := 0x7fff_ffff

  /** Two's-complement truncation of an integer to a Java `int`. */
  function ToInt32(x: int): (r: int)
    ensures MinInt32 <= r <= MaxInt32
    ensures (r - x) % 0x1_0000_0000 == 0
  {
    (x - MinInt32) % 0x1_0000_0000 + MinInt32
  }

  /**
   * Java's `String.hashCode`: h := 31 * h + c over the characters, in `int` arithmetic.
   */
  function StringHash(s: string): (h: int)
    ensures MinInt32 <= h <= MaxInt32
    ensures s == [] ==> h == 0
  {
    if s == [] then 0 else ToInt32(31 * StringHash(s[..|s| - 1]) + s[|s| - 1] as int)
  }

  /**
   * A key. The four first fields are the Java class's final fields. `provider` stands
   * in for an override of `getProvider()`: the base class has None.
   */
  datatype TypedKey = TypedKey(
    name: string,
    typeOfValue: ValueType,
    config: bool,
    persist: bool,
    provider: Option<InstanceProvider>)
  {
    function GetName(): string { name }

    function GetTypeOfValue(): ValueType { typeOfValue }

    function IsConfigType(): bool { config }

    function IsPersistable(): bool { persist }

    /** `getProvider()`: the overriding provider, or None (null) for the base class. */
    function GetProvider(): (r: Option<InstanceProvider>)
      ensures r.Some? <==> ProviderFootprint() != {}
      ensures r.Some? ==> ProviderFootprint() == {r.value}
    {
      provider
    }

    /** `hasProvider()`: whether `getProvider()` returns a provider rather than null. */
    predicate HasProvider(): (b: bool)
      ensures b <==> GetProvider().Some?
    {
      GetProvider() != None
    }

    /** The objects a registry may read or update through this key's provider. */
    function ProviderFootprint(): set<InstanceProvider>
    {
      if provider.Some? then {provider.value} else {}
    }

    /**
     * `equals(Object)` as written: the identity shortcut, false for null, and otherwise
     * an unchecked cast to TypedKey followed by a comparison of names.
     */
    function EqualsAsWritten(obj: Obj): (r: Result<bool, JavaException>)
      ensures obj.NullRef? ==> r == Success(false)
      ensures obj.KeyRef? ==> r == Success(obj.key.name == name)
      ensures obj.ForeignRef? <==> r == Failure(ClassCastException)
    {
      if obj == KeyRef(this) then Success(true)
      else match obj
        case NullRef => Success(false)
        case ForeignRef => Failure(ClassCastException)
        case KeyRef(other) => Success(name == other.name)
    }

    /**
     * `equals(Object)` with the cast guarded: an object that is not a key is unequal.
     * It agrees with the written method wherever that one returns.
     */
    function Equals(obj: Obj): (r: bool)
      ensures r <==> obj.KeyRef? && obj.key.name == name
      ensures EqualsAsWritten(obj).Success? ==> r == EqualsAsWritten(obj).value
    {
      if obj == KeyRef(this) then true
      else match obj
        case NullRef => false
        case ForeignRef => false
        case KeyRef(other) => name == other.name
    }

    /** `hashCode()`: the hash of the name, a Java `int`. */
    function HashCode(): (h: int)
      ensures MinInt32 <= h <= MaxInt32
    {
      StringHash(name)
    }

    /** `toString()`: the name, for diagnostics. */
    function ToString(): (r: string)
      ensures r == GetName()
    {
      name
    }
  }

  /** The private constructor, which takes the type before the name. */
  function Create(typeOfValue: ValueType, name: string, config: bool, persist: bool): (k: TypedKey)
    ensures k.GetName() == name && k.GetTypeOfValue() == typeOfValue
    ensures k.IsConfigType() == config && k.IsPersistable() == persist
    ensures !k.HasProvider()
  {
    TypedKey(name, typeOfValue, config, persist, None)
  }

  /** The static factory `of`; it hands its arguments to the private constructor reordered. */
  function Of(name: string, typeOfValue: ValueType, config: bool, persist: bool): (k: TypedKey)
    ensures k.GetName() == name && k.GetTypeOfValue() == typeOfValue
    ensures k.IsConfigType() == config && k.IsPersistable() == persist
    ensures !k.HasProvider()
  {
    Create(typeOfValue, name, config, persist)
  }

  /** The public four-argument constructor. */
  function NewFlaggedKey(name: string, clazz: ValueType, config: bool, persist: bool): (k: TypedKey)
    ensures k.GetName() == name && k.GetTypeOfValue() == clazz
    ensures k.IsConfigType() == config && k.IsPersistable() == persist
    ensures !k.HasProvider()
  {
    TypedKey(name, clazz, config, persist, None)
  }

  /** The public two-argument constructor: neither a configuration nor a persisted key. */
  function NewKey(name: string, clazz: ValueType): (k: TypedKey)
    ensures k.GetName() == name && k.GetTypeOfValue() == clazz
    ensures !k.IsConfigType() && !k.IsPersistable()
    ensures !k.HasProvider()
  {
    NewFlaggedKey(name, clazz, false, false)
  }

  /**
   * A subclass of `k` that overrides `getProvider()` to return `p`; it keeps k's name,
   * type and flags, and so stays equal to `k`.
   */
  function OverrideProvider(k: TypedKey, p: InstanceProvider): (r: TypedKey)
    ensures r.HasProvider() && r.GetProvider() == Some(p)
    ensures r.GetName() == k.GetName() && r.GetTypeOfValue() == k.GetTypeOfValue()
    ensures r.IsConfigType() == k.IsConfigType() && r.IsPersistable() == k.IsPersistable()
    ensures r.Equals(KeyRef(k)) && k.Equals(KeyRef(r))
  {
    k.(provider := Some(p))
  }

  function Pow31(n: nat): int
  {
    if n == 0 then 1 else 31 * Pow31(n - 1)
  }

  /** The documented closed form of `String.hashCode`: s[0]*31^(n-1) + ... + s[n-1], unbounded. */
  function Poly(s: string): int
  {
    if s == [] then 0 else s[0] as int * Pow31(|s| - 1) + Poly(s[1..])
  }

  lemma {:induction false} PolyAppend(s: string, c: char)
    ensures Poly(s + [c]) == 31 * Poly(s) + c as int
    decreases |s|
  {
    if s == [] {
      assert Poly([c]) == c as int * Pow31(0) + Poly([]);
    } else {
      assert (s + [c])[1..] == s[1..] + [c];
      PolyAppend(s[1..], c);
      assert Pow31(|s|) == 31 * Pow31(|s| - 1);
      calc {
        Poly(s + [c]);
        s[0] as int * Pow31(|s|) + Poly(s[1..] + [c]);
        s[0] as int * (31 * Pow31(|s| - 1)) + 31 * Poly(s[1..]) + c as int;
        31 * (s[0] as int * Pow31(|s| - 1) + Poly(s[1..])) + c as int;
      }
    }
  }

  /** Truncation to `int` depends only on the value modulo 2^32. */
  lemma ToInt32Congruent(x: int, y: int)
    requires (x - y) % 0x1_0000_0000 == 0
    ensures ToInt32(x) == ToInt32(y)
  {
    var q := (x - y) / 0x1_0000_0000;
    assert x - MinInt32 == (y - MinInt32) + q * 0x1_0000_0000;
    assert (x - MinInt32) % 0x1_0000_0000 == (y - MinInt32) % 0x1_0000_0000;
  }

  /**
   * The loop-shaped `StringHash` agrees with the documented closed form of
   * `String.hashCode`, reduced to a Java `int`.
   */
  lemma {:induction false} StringHashIsPolynomial(s: string)
    ensures StringHash(s) == ToInt32(Poly(s))
    decreases |s|
  {
    if s != [] {
      var p, c := s[..|s| - 1], s[|s| - 1];
      assert s == p + [c];
      StringHashIsPolynomial(p);
      PolyAppend(p, c);
      var h := StringHash(p);
      var q := (h - Poly(p)) / 0x1_0000_0000;
      assert h - Poly(p) == q * 0x1_0000_0000;
      assert (31 * h + c as int) - (31 * Poly(p) + c as int) == (31 * q) * 0x1_0000_0000;
      ToInt32Congruent(31 * h + c as int, 31 * Poly(p) + c as int);
    }
  }

  /** Equality of keys is an equivalence relation, and no key equals null. */
  lemma EqualsIsEquivalence(a: TypedKey, b: TypedKey, c: TypedKey)
    ensures a.Equals(KeyRef(a))
    ensures !a.Equals(NullRef)
    ensures a.Equals(KeyRef(b)) == b.Equals(KeyRef(a))
    ensures a.Equals(KeyRef(b)) && b.Equals(KeyRef(c)) ==> a.Equals(KeyRef(c))
  {
  }

  /** Equality looks at nothing but the name: type, flags and provider are ignored. */
  lemma EqualsIgnoresTypeAndFlags(a: TypedKey, b: TypedKey)
    ensures a.Equals(KeyRef(b)) <==> a.GetName() == b.GetName()
  {
  }

  /** Equal keys have equal hash codes. */
  lemma EqualKeysHashAlike(a: TypedKey, b: TypedKey)
    requires a.Equals(KeyRef(b))
    ensures a.HashCode() == b.HashCode()
  {
  }

  /** `toString()` is the name, so two keys print alike exactly when they are equal. */
  lemma ToStringIdentifiesKey(a: TypedKey, b: TypedKey)
    ensures a.ToString() == a.GetName()
    ensures a.ToString() == b.ToString() <==> a.Equals(KeyRef(b))
  {
  }

  /** The written `equals` throws on an object of another class, where false is due. */
  lemma EqualsAsWrittenThrowsOnForeign(k: TypedKey)
    ensures k.EqualsAsWritten(ForeignRef) == Failure(ClassCastException)
    ensures !k.Equals(ForeignRef)
  {
  }
}
