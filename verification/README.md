# SerializationSample value objects and Book relations, in Dafny

This project models two parts of the SerializationSample repository.

The first is the value-object equality engine, `ValueObject<T>`, with the value objects built on it:

- `BookDifficulty`
- `Money`, created only through the `Dkk` and `Usd` factories
- `DateRange`, with `Lower`, `Upper` and `Empty`
- `Image`
- the `IsDefined` range extension

The engine walks a type's instance fields, starting with the most-derived type and moving through each base type until it reaches `object`. `Equals` compares the fields one by one and is null-safe. `GetHashCode` folds the field hashes, starting from 17 with multiplier 59, and caches the result in a private field.

The second part is the `Book` aggregate. It owns a collection of `BookCategoryBook` join records. `AddCategories` adds one record per category, and `Categories` projects the category ids out of those records.

Modules:

- `Primitives` (`primitives.dfy`) covers:
  - C# `int` and `long`, with unchecked 32-bit wrap-around (`Wrap32`);
  - `Guid`, `decimal`, `DateTime` and `string` as opaque values;
  - a field value as reflection returns it, which is boxed (`Boxed`, with `None` for null), together with its `Equals` and hash code;
  - upper-casing.
- `ValueObjects` (`value_objects.dfy`) holds four pieces:
  - Reflection is replaced by an explicit type chain: concrete type, then `ValueObject<T>`, then `object`. Each type's declared fields are listed, and `GetFields` walks that chain.
  - The class `ValueObject` has an immutable `content` and a mutable `cachedHash`. The constructor of the `content` datatype stands for the runtime type.
  - `Equals` (both overloads) and `GetHashCode`, plus the `==` and `!=` operators.
  - The factories of the four value objects.
- `Books` (`books.dfy`) holds:
  - the classes `Book`, `BookCategory` and `BookCategoryBook`;
  - `StaticInstances`, which holds the three shared static empty instances (`DateRange.Empty`, `Image.None`, `BookDifficulty.Empty`).

Reflection also walks `ValueObject<T>`. So the private `_cachedHash` field is the last field in every value object's list, and `Equals` compares it. The model reproduces this. `ValueObject.EqualsTyped` states the exact consequence: two objects are equal when they have the same content and the same cache. "Same cache" means both uncached, or both cached with the same value, which a valid cache always is for equal content. See "## Findings".

Three behaviours of the source are easy to miss:

- Equality depends on the hash cache, as shown above.
- `x == y` with `x` null dereferences null. It is modelled as a non-null left operand.
- `AddCategories` does not deduplicate. Adding the same category twice makes its id appear twice.

## Model

| member | source | states |
|---|---|---|
| Primitives.Wrap32 | SerializationSample/OtherData.cs:179 | unchecked `int` arithmetic: the result agrees with the exact value modulo 2^32, and is that value when it fits in 32 bits |
| Primitives.ToUpper | SerializationSample/OtherData.cs:83 | the upper-cased currency has the same length, contains no lower-case letter, and upper-cases each character in place |
| Primitives.ToUpperOfUpper | SerializationSample/OtherData.cs:83 | upper-casing leaves a string with no lower-case letter unchanged, so the normalisation is idempotent |
| Primitives.CurrencyCaseInsensitive | SerializationSample/OtherData.cs:80-90 | "usd" and "USD" normalise to the same currency "USD" (likewise "dkk" and "DKK") |
| ValueObjects.GetFields | SerializationSample/OtherData.cs:217-228 | the walk collects the fields of the runtime type and then of each base type up to `object`; for a value object that is its own fields followed by `_cachedHash` |
| ValueObjects.FieldListOfValueObject | SerializationSample/OtherData.cs:155 | every value object's field list ends with the base class's `_cachedHash`, and no earlier entry is that field |
| ValueObjects.FieldValuesDetermineObject | SerializationSample/OtherData.cs:198-211 | two objects of one type whose fields all read alike have the same content and the same cache |
| ValueObjects.HashOfIgnoresNulls | SerializationSample/OtherData.cs:174-180 | null fields leave the accumulator unchanged: the fold over a field list equals the fold over its non-null values alone |
| ValueObjects.AllNullHashIsSeed | SerializationSample/OtherData.cs:170-180 | when every field is null, the hash is the seed 17 |
| ValueObjects.ContentHashOwnFields | SerializationSample/OtherData.cs:168-182 | the cache field is null while the hash is computed, so only the concrete type's own fields contribute |
| ValueObjects.DifficultyHashExample | SerializationSample/OtherData.cs:170-179 | the difficulty (30, 20, 40) hashes to ((17*59+30)*59+20)*59+40 = 3597093 |
| ValueObjects.ValueObject.constructor | SerializationSample/OtherData.cs:155 | a new value object holds the given content and has no cached hash (`_cachedHash` starts null) |
| ValueObjects.ValueObject.GetHashCode | SerializationSample/OtherData.cs:166-185 | returns the fold of the content from seed 17 with multiplier 59; afterwards the cache holds that value; a value already cached is returned unchanged |
| ValueObjects.HashTwice | SerializationSample/OtherData.cs:166-185 | two calls on one object return the same value, the fold of its content |
| ValueObjects.ValueObject.EqualsTyped | SerializationSample/OtherData.cs:187-214 | false for null and for another runtime type; otherwise true exactly when every field, including `_cachedHash`, is equal; so true iff same content and same cache |
| ValueObjects.ValueObject.Equals | SerializationSample/OtherData.cs:157-164 | false for null and for an object that is not of this runtime type (`as T` yields null); otherwise the typed comparison |
| ValueObjects.OpEquality | SerializationSample/OtherData.cs:230 | `x == y` is `x.Equals(y)`: true iff `y` is non-null with the same content and cache |
| ValueObjects.OpInequality | SerializationSample/OtherData.cs:231 | `x != y` is the negation of `x == y` |
| ValueObjects.CacheDecidesEquality | SerializationSample/OtherData.cs:198-211 | for equal content, the caches agree (so `Equals` holds) exactly when both or neither object has cached its hash |
| ValueObjects.EqualObjectsEqualHashes | SerializationSample/OtherData.cs:157-185 | for any two valid objects, cached or not: when `a.Equals(b)` holds, the hash codes `GetHashCode` then returns for `a` and for `b` are equal |
| ValueObjects.TypeDiscrimination | SerializationSample/OtherData.cs:192-196 | an empty `DateRange` and an empty `Image` read identically field by field yet are different values, so `Equals` rejects them by type |
| ValueObjects.HashingChangesEquality | SerializationSample/OtherData.cs:155 | two `BookDifficulty(30, 20, 40)` objects are equal, and are no longer equal once one of them has been hashed |
| ValueObjects.ValueObject.EqualsIgnoringCache | SerializationSample/OtherData.cs:187-214 | the repaired comparison skips the cache field: true iff `other` is non-null with the same content |
| ValueObjects.HashingKeepsRepairedEquality | SerializationSample/OtherData.cs:187-214 | under the repaired comparison, hashing one of two equal objects leaves them equal |
| ValueObjects.EmptyDifficulty | SerializationSample/OtherData.cs:70 | `BookDifficulty.Empty` is a difficulty every field of which reads null |
| ValueObjects.EmptyRange | SerializationSample/OtherData.cs:126 | `DateRange.Empty` is a range every field of which reads null |
| ValueObjects.NoImage | SerializationSample/OtherData.cs:145 | `Image.None` is an image every field of which reads null |
| ValueObjects.Difficulty | SerializationSample/OtherData.cs:59-64 | `new BookDifficulty(lix, let, atos)` stores the three scores unchanged |
| ValueObjects.MoneyOf | SerializationSample/OtherData.cs:80-84 | the private constructor keeps the amount and stores the currency upper-cased character by character: same length, each character the upper-case of the argument's, no lower-case letter left |
| ValueObjects.Dkk | SerializationSample/OtherData.cs:89 | `Money.Dkk(v)` has amount `v` and currency exactly "DKK" |
| ValueObjects.Usd | SerializationSample/OtherData.cs:90 | `Money.Usd(v)` has amount `v` and currency exactly "USD" |
| ValueObjects.FactoryCurrencies | SerializationSample/OtherData.cs:86-90 | money from the factories always has currency "DKK" or "USD"; the two factories never build equal money; `Dkk` is injective in the amount |
| ValueObjects.Range | SerializationSample/OtherData.cs:111-115 | the private range constructor stores both optional bounds unchanged |
| ValueObjects.Between | SerializationSample/OtherData.cs:117-119 | the public two-bound constructor sets both `From` and `To` |
| ValueObjects.Lower | SerializationSample/OtherData.cs:124 | `DateRange.Lower(from)` sets only `From` |
| ValueObjects.Upper | SerializationSample/OtherData.cs:125 | `DateRange.Upper(to)` sets only `To` |
| ValueObjects.ImageOf | SerializationSample/OtherData.cs:136-140 | `new Image(original, thumbnail)` stores both paths unchanged |
| ValueObjects.IsDefined | SerializationSample/OtherData.cs:101 | a range is defined iff it is non-null and is not the empty range (some bound is set) |
| ValueObjects.IsDefinedOfConstructions | SerializationSample/OtherData.cs:101 | `IsDefined` holds for the lower, upper and two-bound ranges, and fails for `DateRange.Empty` and for null |
| ValueObjects.EmptyInstancesHashToSeed | SerializationSample/OtherData.cs:70 | the shared empty instances `BookDifficulty.Empty`, `DateRange.Empty` and `Image.None` have only null fields and all hash to 17 |
| Books.StaticInstances.constructor | SerializationSample/OtherData.cs:126 | the static empty range, empty image and empty difficulty are new objects holding the empty contents, each with no cached hash |
| Books.BookCategory.constructor | SerializationSample/OtherData.cs:21-25 | a category keeps the given fresh id and name, and starts with no join records, so `Books` is empty |
| Books.BookCategory.Books | SerializationSample/OtherData.cs:30 | `Books` lists the book id of each of the category's own join records |
| Books.BookCategoryBook.constructor | SerializationSample/OtherData.cs:36-40 | a join record takes the category's id and the book's id; its own `Id` stays `Guid.Empty` |
| Books.CategoryIds | SerializationSample/Book.cs:49 | the projection has one category id per join record, in record order |
| Books.CategoryIdsAppend | SerializationSample/Book.cs:49 | the projection of appended record lists is the concatenation of the projections |
| Books.LinkedCategoryIds | SerializationSample/Book.cs:27-33 | records that link the book to a list of categories project to those categories' ids, in argument order |
| Books.AppendRecord | SerializationSample/Book.cs:31 | adding a new record object that points at the book keeps the collection duplicate-free and owned by the book |
| Books.Book.Default | SerializationSample/Book.cs:12-23 | `new Book()`: `Id` is `Guid.Empty`, strings and `Price` are null, `Length` is 0, `Valid`/`Image`/`Difficulty` are the shared empty instances, no categories |
| Books.Book.constructor | SerializationSample/Book.cs:35-47 | the full constructor stores every argument unchanged, takes the fresh id, and starts with no categories; the value-object arguments have their declared C# types |
| Books.Book.Categories | SerializationSample/Book.cs:49 | one category id per join record, and an id appears exactly when some record carries it |
| Books.Book.AddCategories | SerializationSample/Book.cs:27-33 | exactly one new record per argument, each with `BookId` equal to the book's `Id` and `BookCategoryId` equal to that category's id; old records kept; `Categories` grows by the argument ids (as a multiset as well); nothing else changes, the categories included |
| Books.ThreeCategories | SerializationSample/Program.cs:48-50 | a fresh book given three categories reports exactly those three category ids, and the first category's `Books` stays empty |
| Books.SameCategoryTwice | SerializationSample/Book.cs:27-33 | adding one category twice records its id twice: no deduplication |

## Findings

| source | as written | input that shows it | evidently intended | confidence | as-written member | corrected member |
|---|---|---|---|---|---|---|
| SerializationSample/OtherData.cs:155 | the field walk reaches `ValueObject<T>` and returns its private `_cachedHash`, so `Equals` compares the hash cache | two `new BookDifficulty(30, 20, 40)`: `Equals` is true; after `GetHashCode()` on one of them it is false | equality by content alone, unaffected by computing a hash | high (not executed) | ValueObjects.HashingChangesEquality | ValueObjects.ValueObject.EqualsIgnoringCache |

The as-written `Equals` remains the model of the source, and the operators use it. The repaired comparison stands beside it. `HashingKeepsRepairedEquality` proves that it is unaffected by hashing. Nothing else in the model compares value objects.

## Left out

- The serialization strategies (`ISerializer`, `BinarySerializer`, `ProtobufSerializer`) are not part of this model. They delegate to `BinaryFormatter` and protobuf-net, whose behaviour cannot be stated from this code. The round-trip law is therefore not modelled.
- The benchmark harness in `Program.cs` is not modelled. This covers the stopwatch timing, console output, `Math.Pow` sizing and random data generation. Fresh `Guid.NewGuid()` values are passed in as parameters instead.
- Reflection is replaced by explicit per-type field lists. The runtime does not promise that `Type.GetFields` returns fields in declaration order. The model fixes that order, and so the hash folds the fields in declaration order.
- The internals of `Guid`, `DateTime`, `decimal` and `string` are opaque. Equality on them is equality of the model value.
- `Int32.GetHashCode` is modelled exactly: it returns the value itself. The hash codes of strings, decimals and date-times are fixed stand-in functions. The real string hash is randomised per process. No property proved depends on which function is used.
- `ToUpper` upper-cases only the letters a to z. Culture-sensitive casing is not modelled. The source only applies it to "DKK" and "USD".
- `IsDefined` is generic over `IRange<T>`. It is modelled for `DateRange`, the only implementation.
- Faults are not modelled:
  - a null left operand of `==` (modelled as a non-null parameter);
  - a null `categories` array, or a null element in it: the types exclude these;
  - the partial update such an exception would leave behind.
- `Identifieable.Id` is a public mutable field. No code in the core assigns it after construction, so the model never reassigns it either.
- Concurrent calls to `GetHashCode` that race on the cache are not modelled.
- `Book.Categories` keeps the records in insertion order. A `HashSet` promises no enumeration order. The order-independent statements are the multiset ones on `Book.AddCategories` and `Books.ThreeCategories`.
