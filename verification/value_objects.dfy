/** The value-object equality engine (`ValueObject<T>`) and the four value
    objects built on it: BookDifficulty, Money, DateRange and Image.

    C# finds a value object's fields by reflection, walking from the runtime
    type up through its base types until `object`. Here each type's declared
    instance fields are listed explicitly (`DeclaredFields`) and the same walk
    is performed over those lists (`GetFields`). Because the walk passes
    through `ValueObject<T>` itself, its private `_cachedHash` field is one of
    the fields, last in the list. */
module ValueObjects {
  import opened Primitives

  /** The content of a value object. The constructor is the object's runtime
      type; its parameters are the backing fields of the type's properties, in
      declaration order. */
  datatype Content =
    | BookDifficulty(lix: Option<int32>, let: Option<int32>, atos: Option<int32>)
    | Money(value: Decimal, currency: Option<string>)
    | DateRange(from: Option<DateTime>, to: Option<DateTime>)
    | Image(original: Option<string>, thumbnail: Option<string>)

  datatype Kind = BookDifficultyKind | MoneyKind | DateRangeKind | ImageKind

  function KindOf(c: Content): Kind
  {
    match c
    case BookDifficulty(_, _, _) => BookDifficultyKind
    case Money(_, _) => MoneyKind
    case DateRange(_, _) => DateRangeKind
    case Image(_, _) => ImageKind
  }

  /** The types on the inheritance chain of a value object: the concrete
      class, its base `ValueObject<T>` (closed over that class) and `object`. */
  datatype ClrType = ObjectType | ValueObjectOf(of: Kind) | Concrete(kind: Kind)

  function BaseType(t: ClrType): ClrType
    requires t != ObjectType
  {
    match t
    case Concrete(k) => ValueObjectOf(k)
    case ValueObjectOf(_) => ObjectType
  }

  function Depth(t: ClrType): nat
  {
    match t
    case ObjectType => 0
    case ValueObjectOf(_) => 1
    case Concrete(_) => 2
  }

  datatype FieldName =
    | LixField | LetField | AtosField
    | ValueField | CurrencyField
    | FromField | ToField
    | OriginalField | ThumbnailField
    | CachedHashField

  datatype FieldInfo = FieldInfo(declaringType: ClrType, name: FieldName)

  /** The base class's private cache field. */
  function CacheField(k: Kind): FieldInfo
  {
    FieldInfo(ValueObjectOf(k), CachedHashField)
  }

  /** `t.GetFields(Instance | NonPublic | Public)`: the instance fields declared
      by `t`, in declaration order (inherited fields would be included only when
      non-private, and `ValueObject<T>` has none). */
  function DeclaredFields(t: ClrType): seq<FieldInfo>
  {
    match t
    case ObjectType => []
    case ValueObjectOf(k) => [CacheField(k)]
    case Concrete(BookDifficultyKind) =>
      [FieldInfo(t, LixField), FieldInfo(t, LetField), FieldInfo(t, AtosField)]
    case Concrete(MoneyKind) => [FieldInfo(t, ValueField), FieldInfo(t, CurrencyField)]
    case Concrete(DateRangeKind) => [FieldInfo(t, FromField), FieldInfo(t, ToField)]
    case Concrete(ImageKind) => [FieldInfo(t, OriginalField), FieldInfo(t, ThumbnailField)]
  }

  /** The fields found by walking from `t` up to, and excluding, `object`. */
  function FieldList(t: ClrType): seq<FieldInfo>
    decreases Depth(t)
  {
    if t == ObjectType then [] else DeclaredFields(t) + FieldList(BaseType(t))
  }

  /** The field walk, as the source performs it: a list grown type by type. */
  method GetFields(t: ClrType) returns (fields: seq<FieldInfo>)
    ensures fields == FieldList(t)
    ensures t.Concrete? ==> fields == DeclaredFields(t) + [CacheField(t.kind)]
  {
    fields := [];
    var current := t;
    while current != ObjectType
      invariant fields + FieldList(current) == FieldList(t)
      decreases Depth(current)
    {
      fields := fields + DeclaredFields(current);
      current := BaseType(current);
    }
  }

  /** The fields of every value object end with the cached hash, preceded by
      the concrete type's own fields. */
  lemma FieldListOfValueObject(k: Kind)
    ensures |FieldList(Concrete(k))| >= 1
    ensures FieldList(Concrete(k)) == DeclaredFields(Concrete(k)) + [CacheField(k)]
    ensures FieldList(Concrete(k))[|FieldList(Concrete(k))| - 1].name == CachedHashField
    ensures forall i :: 0 <= i < |FieldList(Concrete(k))| - 1 ==> FieldList(Concrete(k))[i].name != CachedHashField
  {
  }

  function BoxInt(v: Option<int32>): Option<Boxed>
  {
    match v
    case None => None
    case Some(i) => Some(BoxedInt(i))
  }

  function BoxString(v: Option<string>): Option<Boxed>
  {
    match v
    case None => None
    case Some(s) => Some(BoxedString(s))
  }

  function BoxDateTime(v: Option<DateTime>): Option<Boxed>
  {
    match v
    case None => None
    case Some(t) => Some(BoxedDateTime(t))
  }

  /** `field.GetValue(obj)` for an object with content `c` and cache `cache`.
      A `decimal` is a value type and is never null; the other fields are
      nullable value types or strings. */
  function GetValue(f: FieldInfo, c: Content, cache: Option<int32>): Option<Boxed>
    requires f in FieldList(Concrete(KindOf(c)))
  {
    match f.name
    case CachedHashField => BoxInt(cache)
    case LixField => BoxInt(c.lix)
    case LetField => BoxInt(c.let)
    case AtosField => BoxInt(c.atos)
    case ValueField => Some(BoxedDecimal(c.value))
    case CurrencyField => BoxString(c.currency)
    case FromField => BoxDateTime(c.from)
    case ToField => BoxDateTime(c.to)
    case OriginalField => BoxString(c.original)
    case ThumbnailField => BoxString(c.thumbnail)
  }

  /** The values of all fields of an object, in walk order. */
  function FieldValues(c: Content, cache: Option<int32>): (vs: seq<Option<Boxed>>)
    ensures |vs| == |FieldList(Concrete(KindOf(c)))|
  {
    var fs := FieldList(Concrete(KindOf(c)));
    seq(|fs|, i requires 0 <= i < |fs| => GetValue(fs[i], c, cache))
  }

  /** Reading every field determines an object completely: content and cache. */
  lemma FieldValuesDetermineObject(c1: Content, h1: Option<int32>, c2: Content, h2: Option<int32>)
    requires KindOf(c1) == KindOf(c2)
    requires FieldValues(c1, h1) == FieldValues(c2, h2)
    ensures c1 == c2 && h1 == h2
  {
    var vs1, vs2 := FieldValues(c1, h1), FieldValues(c2, h2);
    var n := |vs1| - 1;
    FieldListOfValueObject(KindOf(c1));
    assert vs1[n] == BoxInt(h1) && vs2[n] == BoxInt(h2);
    assert vs1[0] == vs2[0] && vs1[1] == vs2[1];
    if c1.BookDifficulty? {
      assert vs1[2] == vs2[2];
    }
  }

  // ---------------------------------------------------------------------------
  // The hash fold

  const HashSeed: int32 := 17
  const HashMultiplier: int := 59

  /** One step of the fold: a null field leaves the accumulator unchanged; a
      non-null one makes it `h * 59 + value.GetHashCode()`, wrapped to 32 bits. */
  function HashStep(h: int32, v: Option<Boxed>): int32
  {
    match v
    case None => h
    case Some(b) => Wrap32(h as int * HashMultiplier + HashCodeOf(b) as int)
  }

  /** The fold from the seed over a list of field values, left to right. */
  function HashOf(vs: seq<Option<Boxed>>): int32
  {
    if vs == [] then HashSeed else HashStep(HashOf(vs[..|vs| - 1]), vs[|vs| - 1])
  }

  /** The non-null values of a list, in order. */
  function NonNull(vs: seq<Option<Boxed>>): (r: seq<Option<Boxed>>)
    ensures |r| <= |vs|
    ensures forall i :: 0 <= i < |r| ==> r[i].Some?
  {
    if vs == [] then []
    else if vs[|vs| - 1].None? then NonNull(vs[..|vs| - 1])
    else NonNull(vs[..|vs| - 1]) + [vs[|vs| - 1]]
  }

  /** Null fields contribute nothing: the hash of a list is the hash of its
      non-null values alone. */
  lemma {:induction false} HashOfIgnoresNulls(vs: seq<Option<Boxed>>)
    ensures HashOf(vs) == HashOf(NonNull(vs))
  {
    if vs != [] {
      var init, last := vs[..|vs| - 1], vs[|vs| - 1];
      HashOfIgnoresNulls(init);
      if last.Some? {
        var r := NonNull(init) + [last];
        assert r[..|r| - 1] == NonNull(init);
      }
    }
  }

  /** A list of null fields hashes to the seed. */
  lemma AllNullHashIsSeed(vs: seq<Option<Boxed>>)
    requires forall i :: 0 <= i < |vs| ==> vs[i].None?
    ensures HashOf(vs) == HashSeed
  {
  }

  /** The hash the engine computes for content `c`: the fold over every field,
      the cache field being null while the hash is computed. */
  function ContentHash(c: Content): int32
  {
    HashOf(FieldValues(c, None))
  }

  /** The cache field adds nothing to the hash: only the concrete type's own
      fields count. */
  lemma ContentHashOwnFields(c: Content)
    ensures ContentHash(c) == HashOf(FieldValues(c, None)[..|FieldValues(c, None)| - 1])
  {
  }

  /** The hash of the difficulty (30, 20, 40): ((17 * 59 + 30) * 59 + 20) * 59 + 40. */
  lemma DifficultyHashExample()
    ensures ContentHash(BookDifficulty(Some(30), Some(20), Some(40))) == 3597093
  {
    var vs := FieldValues(BookDifficulty(Some(30), Some(20), Some(40)), None);
    FieldListOfValueObject(BookDifficultyKind);
    assert vs == [Some(BoxedInt(30)), Some(BoxedInt(20)), Some(BoxedInt(40)), None];
    assert vs[..1][..0] == [] && vs[..2][..1] == vs[..1] && vs[..3][..2] == vs[..2] && vs[..4][..3] == vs[..3];
    assert HashOf(vs[..1]) == 1033;
    assert HashOf(vs[..2]) == 60967;
    assert HashOf(vs[..3]) == 3597093;
    assert vs[..4] == vs;
  }

  // ---------------------------------------------------------------------------
  // The value object

  /** An instance of a class derived from `ValueObject<T>`. */
  class ValueObject {
    const content: Content
    /** `_cachedHash`: null until `GetHashCode` first runs. */
    var cachedHash: Option<int32>

    /** A cached hash is the hash of the content (the content never changes). */
    ghost predicate Valid()
      reads this
    {
      cachedHash.Some? ==> cachedHash.value == ContentHash(content)
    }

    constructor (c: Content)
      ensures content == c && cachedHash == None
      ensures Valid()
    {
      content := c;
      cachedHash := None;
    }

    function GetType(): ClrType
    {
      Concrete(KindOf(content))
    }

    /** `GetHashCode()`: the cached value when there is one, otherwise the fold
        over the fields, which is then cached. Every call returns the same value. */
    method GetHashCode() returns (h: int32)
      requires Valid()
      modifies this`cachedHash
      ensures Valid()
      ensures h == ContentHash(content)
      ensures cachedHash == Some(h)
      ensures old(cachedHash).Some? ==> h == old(cachedHash).value
    {
      if cachedHash.Some? {
        return cachedHash.value;
      }
      var hashCode := HashSeed;
      var fields := GetFields(GetType());
      ghost var vs := FieldValues(content, cachedHash);
      var i := 0;
      while i < |fields|
        invariant 0 <= i <= |fields|
        invariant hashCode == HashOf(vs[..i])
      {
        var value := GetValue(fields[i], content, cachedHash);
        if value.Some? {
          hashCode := Wrap32(hashCode as int * HashMultiplier + HashCodeOf(value.value) as int);
        }
        assert vs[..i + 1][..i] == vs[..i];
        i := i + 1;
      }
      assert vs[..i] == vs;
      cachedHash := Some(hashCode);
      h := cachedHash.value;
    }

    /** `Equals(T other)`: false for null and for another runtime type;
        otherwise every field, the cache included, must be equal, two nulls
        counting as equal. So the result is: same content and same cache. */
    method EqualsTyped(other: ValueObject?) returns (r: bool)
      ensures r <==> other != null && other.content == content && other.cachedHash == cachedHash
    {
      if other == null {
        return false;
      }
      var t := GetType();
      var otherType := other.GetType();
      if t != otherType {
        return false;
      }
      var fields := GetFields(t);
      var i := 0;
      while i < |fields|
        invariant 0 <= i <= |fields|
        invariant forall j :: 0 <= j < i ==>
          GetValue(fields[j], other.content, other.cachedHash) == GetValue(fields[j], content, cachedHash)
      {
        var value1 := GetValue(fields[i], other.content, other.cachedHash);
        var value2 := GetValue(fields[i], content, cachedHash);
        if value1.None? {
          if value2.Some? {
            return false;
          }
        } else if !BoxedEquals(value1.value, value2) {
          return false;
        }
        i := i + 1;
      }
      assert FieldValues(other.content, other.cachedHash) == FieldValues(content, cachedHash);
      FieldValuesDetermineObject(other.content, other.cachedHash, content, cachedHash);
      return true;
    }

    /** `Equals(object obj)`: false for null; `obj as T` turns an object that is
        not of this runtime type into null, which `Equals(T)` rejects. */
    method Equals(obj: object?) returns (r: bool)
      ensures r <==> obj is ValueObject && (obj as ValueObject).content == content
                     && (obj as ValueObject).cachedHash == cachedHash
    {
      if obj == null {
        return false;
      }
      var other: ValueObject? := null;
      if obj is ValueObject && KindOf((obj as ValueObject).content) == KindOf(content) {
        other := obj as ValueObject;
      }
      r := EqualsTyped(other);
    }

    /** The repaired comparison: the same walk with the base class's cache
        field left out, so computing a hash cannot change the outcome. */
    method EqualsIgnoringCache(other: ValueObject?) returns (r: bool)
      ensures r <==> other != null && other.content == content
    {
      if other == null {
        return false;
      }
      var t := GetType();
      if t != other.GetType() {
        return false;
      }
      var fields := GetFields(t);
      var i := 0;
      while i < |fields| - 1
        invariant 0 <= i <= |fields| - 1
        invariant forall j :: 0 <= j < i ==>
          GetValue(fields[j], other.content, other.cachedHash) == GetValue(fields[j], content, cachedHash)
      {
        var value1 := GetValue(fields[i], other.content, other.cachedHash);
        var value2 := GetValue(fields[i], content, cachedHash);
        if value1.None? {
          if value2.Some? {
            return false;
          }
        } else if !BoxedEquals(value1.value, value2) {
          return false;
        }
        i := i + 1;
      }
      FieldListOfValueObject(KindOf(content));
      assert FieldValues(other.content, None) == FieldValues(content, None) by {
        forall j | 0 <= j < |fields|
          ensures GetValue(fields[j], other.content, None) == GetValue(fields[j], content, None)
        {
          if j < |fields| - 1 {
            assert GetValue(fields[j], other.content, other.cachedHash) == GetValue(fields[j], other.content, None);
            assert GetValue(fields[j], content, cachedHash) == GetValue(fields[j], content, None);
          }
        }
      }
      FieldValuesDetermineObject(other.content, None, content, None);
      return true;
    }
  }

  /** `x == y`: `x.Equals(y)` through the `object` overload. The left operand
      must not be null (the source dereferences it). */
  method OpEquality(x: ValueObject, y: ValueObject?) returns (r: bool)
    ensures r <==> y != null && y.content == x.content && y.cachedHash == x.cachedHash
  {
    r := x.Equals(y);
  }

  /** `x != y`: the negation of `x == y`. */
  method OpInequality(x: ValueObject, y: ValueObject?) returns (r: bool)
    ensures r <==> !(y != null && y.content == x.content && y.cachedHash == x.cachedHash)
  {
    var eq := OpEquality(x, y);
    r := !eq;
  }

  /** What `Equals` decides for two valid objects of the same content: it depends
      only on whether each has cached its hash. Exactly one cached: unequal;
      both or neither: equal. */
  lemma CacheDecidesEquality(a: ValueObject, b: ValueObject)
    requires a.Valid() && b.Valid()
    requires a.content == b.content
    ensures (a.cachedHash == b.cachedHash) <==> (a.cachedHash.Some? == b.cachedHash.Some?)
  {
  }

  /** Objects that `Equals` relates report equal hash codes, whether the
      hashes are computed now or were cached before. */
  method EqualObjectsEqualHashes(a: ValueObject, b: ValueObject) returns (eq: bool, ha: int32, hb: int32)
    requires a.Valid() && b.Valid()
    modifies a, b
    ensures eq ==> ha == hb
  {
    eq := a.Equals(b);
    ha := a.GetHashCode();
    hb := b.GetHashCode();
  }

  /** Two value objects of different runtime types are never equal, even when
      every one of their field values agrees. */
  lemma TypeDiscrimination()
    ensures FieldValues(DateRange(None, None), None) == FieldValues(Image(None, None), None)
    ensures DateRange(None, None) != Image(None, None)
  {
  }

  /** Hashing twice gives the same value, the fold of the content; the second
      call is answered from the cache. */
  method HashTwice(c: Content) returns (first: int32, second: int32)
    ensures first == second == ContentHash(c)
  {
    var v := new ValueObject(c);
    first := v.GetHashCode();
    second := v.GetHashCode();
  }

  /** Two objects with the same content compare equal until one of them is
      hashed, and unequal afterwards. */
  method HashingChangesEquality() returns (before: bool, after: bool)
    ensures before && !after
  {
    var a := new ValueObject(BookDifficulty(Some(30), Some(20), Some(40)));
    var b := new ValueObject(BookDifficulty(Some(30), Some(20), Some(40)));
    before := a.Equals(b);
    var _ := a.GetHashCode();
    after := a.Equals(b);
  }

  /** With the repaired comparison, hashing one of two equal objects leaves them equal. */
  method HashingKeepsRepairedEquality() returns (before: bool, after: bool)
    ensures before && after
  {
    var a := new ValueObject(BookDifficulty(Some(30), Some(20), Some(40)));
    var b := new ValueObject(BookDifficulty(Some(30), Some(20), Some(40)));
    before := a.EqualsIgnoringCache(b);
    var _ := a.GetHashCode();
    after := a.EqualsIgnoringCache(b);
  }

  // ---------------------------------------------------------------------------
  // The concrete value objects

  /** `new BookDifficulty(lix, let, atos)`. */
  function Difficulty(lix: Option<int32>, let: Option<int32>, atos: Option<int32>): (d: Content)
    ensures d.BookDifficulty? && d.lix == lix && d.let == let && d.atos == atos
  {
    BookDifficulty(lix, let, atos)
  }

  /** `BookDifficulty.Empty`: a difficulty whose fields all read null. */
  function EmptyDifficulty(): (d: Content)
    ensures d.BookDifficulty?
    ensures forall i :: 0 <= i < |FieldValues(d, None)| ==> FieldValues(d, None)[i].None?
  {
    FieldListOfValueObject(BookDifficultyKind);
    BookDifficulty(None, None, None)
  }

  /** The private `Money(value, currency)` constructor, which upper-cases the currency. */
  function MoneyOf(value: Decimal, currency: string): (m: Content)
    ensures m.Money? && m.value == value
    ensures m.currency.Some? && IsUpper(m.currency.value) && |m.currency.value| == |currency|
    ensures forall i :: 0 <= i < |currency| ==> m.currency.value[i] == UpperChar(currency[i])
  {
    Money(value, Some(ToUpper(currency)))
  }

  /** `Money.Dkk(value)`. */
  function Dkk(value: Decimal): (m: Content)
    ensures m == Money(value, Some("DKK"))
  {
    ToUpperOfUpper("DKK");
    MoneyOf(value, "DKK")
  }

  /** `Money.Usd(value)`. */
  function Usd(value: Decimal): (m: Content)
    ensures m == Money(value, Some("USD"))
  {
    ToUpperOfUpper("USD");
    MoneyOf(value, "USD")
  }

  /** Money built through the factories always carries "DKK" or "USD", and
      the two factories never build equal money. */
  lemma FactoryCurrencies(v: Decimal, w: Decimal)
    ensures Dkk(v).currency.value in {"DKK", "USD"} && Usd(v).currency.value in {"DKK", "USD"}
    ensures Dkk(v) != Usd(w)
    ensures Dkk(v) == Dkk(w) <==> v == w
  {
  }

  /** The private `DateRange(from, to)` constructor with both bounds optional. */
  function Range(from: Option<DateTime>, to: Option<DateTime>): (r: Content)
    ensures r.DateRange? && r.from == from && r.to == to
  {
    DateRange(from, to)
  }

  /** The public `DateRange(from, to)` constructor: both bounds set. */
  function Between(from: DateTime, to: DateTime): (r: Content)
    ensures r.DateRange? && r.from == Some(from) && r.to == Some(to)
  {
    Range(Some(from), Some(to))
  }

  /** `DateRange.Lower(from)`: only the lower bound. */
  function Lower(from: DateTime): (r: Content)
    ensures r.DateRange? && r.from == Some(from) && r.to == None
  {
    Range(Some(from), None)
  }

  /** `DateRange.Upper(to)`: only the upper bound. */
  function Upper(to: DateTime): (r: Content)
    ensures r.DateRange? && r.from == None && r.to == Some(to)
  {
    Range(None, Some(to))
  }

  /** `DateRange.Empty`: a range whose fields all read null. */
  function EmptyRange(): (r: Content)
    ensures r.DateRange?
    ensures forall i :: 0 <= i < |FieldValues(r, None)| ==> FieldValues(r, None)[i].None?
  {
    FieldListOfValueObject(DateRangeKind);
    Range(None, None)
  }

  /** `new Image(original, thumbnail)`. */
  function ImageOf(original: Option<string>, thumbnail: Option<string>): (i: Content)
    ensures i.Image? && i.original == original && i.thumbnail == thumbnail
  {
    Image(original, thumbnail)
  }

  /** `Image.None`: an image whose fields all read null. */
  function NoImage(): (i: Content)
    ensures i.Image?
    ensures forall k :: 0 <= k < |FieldValues(i, None)| ==> FieldValues(i, None)[k].None?
  {
    FieldListOfValueObject(ImageKind);
    Image(None, None)
  }

  /** `range.IsDefined()`: a non-null range with at least one bound, that is,
      any non-null range other than the empty one. */
  function IsDefined(range: ValueObject?): (r: bool)
    requires range != null ==> range.content.DateRange?
    ensures r <==> range != null && range.content != EmptyRange()
  {
    range != null && (range.content.from != None || range.content.to != None)
  }

  /** Which constructions are defined: lower, upper and two-sided ranges are;
      the empty range and null are not. */
  lemma IsDefinedOfConstructions(r: ValueObject?, x: DateTime, y: DateTime)
    requires r != null ==> r.content.DateRange?
    ensures r != null && r.content == Lower(x) ==> IsDefined(r)
    ensures r != null && r.content == Upper(y) ==> IsDefined(r)
    ensures r != null && r.content == Between(x, y) ==> IsDefined(r)
    ensures r != null && r.content == EmptyRange() ==> !IsDefined(r)
    ensures r == null ==> !IsDefined(r)
  {
  }

  /** The shared empty instances all hash to the seed: their fields are all null. */
  lemma EmptyInstancesHashToSeed()
    ensures ContentHash(EmptyDifficulty()) == HashSeed
    ensures ContentHash(EmptyRange()) == HashSeed
    ensures ContentHash(NoImage()) == HashSeed
  {
    FieldListOfValueObject(BookDifficultyKind);
    FieldListOfValueObject(DateRangeKind);
    FieldListOfValueObject(ImageKind);
    AllNullHashIsSeed(FieldValues(EmptyDifficulty(), None));
    AllNullHashIsSeed(FieldValues(EmptyRange(), None));
    AllNullHashIsSeed(FieldValues(NoImage(), None));
  }
}
