/** The Book aggregate and its many-to-many relation to categories, kept as
    join records (`BookCategoryBook`) that the book owns. */
module Books {
  import opened Primitives
  import opened ValueObjects

  /** The shared instances behind the static properties `DateRange.Empty`,
      `Image.None` and `BookDifficulty.Empty`: created once, shared by every
      book built without the full constructor. */
  class StaticInstances {
    const emptyRange: ValueObject
    const noImage: ValueObject
    const emptyDifficulty: ValueObject

    ghost predicate Valid()
      reads emptyRange, noImage, emptyDifficulty
    {
      emptyRange.content == EmptyRange() && emptyRange.Valid() &&
      noImage.content == NoImage() && noImage.Valid() &&
      emptyDifficulty.content == EmptyDifficulty() && emptyDifficulty.Valid()
    }

    constructor ()
      ensures Valid()
      ensures fresh(emptyRange) && fresh(noImage) && fresh(emptyDifficulty)
      ensures emptyRange.cachedHash == None && noImage.cachedHash == None && emptyDifficulty.cachedHash == None
    {
      emptyRange := new ValueObject(EmptyRange());
      noImage := new ValueObject(NoImage());
      emptyDifficulty := new ValueObject(EmptyDifficulty());
    }
  }

  class BookCategory {
    const id: Guid
    const name: Option<string>
    /** `_books`: no operation of the model adds to it. */
    var books: seq<BookCategoryBook>

    /** `new BookCategory(name)`, with the fresh `Guid.NewGuid()` passed in as `id`. */
    constructor (id: Guid, name: Option<string>)
      ensures this.id == id && this.name == name
      ensures books == [] && Books() == []
    {
      this.id := id;
      this.name := name;
      books := [];
    }

    /** `Books`: the book ids of the category's own join records. */
    function Books(): (ids: seq<Guid>)
      reads this
      ensures |ids| == |books|
      ensures forall i :: 0 <= i < |books| ==> ids[i] == books[i].bookId
    {
      BookIds(books)
    }
  }

  /** A join record. It does not override equality, so two records are the
      same only when they are the same object. Its own `Id` is never assigned. */
  class BookCategoryBook {
    const id: Guid
    const bookCategoryId: Guid
    const bookId: Guid

    constructor (category: BookCategory, book: Book)
      ensures id == EmptyGuid
      ensures bookCategoryId == category.id && bookId == book.id
    {
      id := EmptyGuid;
      bookCategoryId := category.id;
      bookId := book.id;
    }
  }

  function BookIds(records: seq<BookCategoryBook>): (ids: seq<Guid>)
    ensures |ids| == |records|
    ensures forall i :: 0 <= i < |records| ==> ids[i] == records[i].bookId
  {
    if records == [] then [] else BookIds(records[..|records| - 1]) + [records[|records| - 1].bookId]
  }

  function CategoryIds(records: seq<BookCategoryBook>): (ids: seq<Guid>)
    ensures |ids| == |records|
    ensures forall i :: 0 <= i < |records| ==> ids[i] == records[i].bookCategoryId
  {
    if records == [] then [] else CategoryIds(records[..|records| - 1]) + [records[|records| - 1].bookCategoryId]
  }

  /** The ids of a list of categories, in argument order. */
  function IdsOf(categories: seq<BookCategory>): (ids: seq<Guid>)
    ensures |ids| == |categories|
    ensures forall i :: 0 <= i < |categories| ==> ids[i] == categories[i].id
  {
    if categories == [] then [] else IdsOf(categories[..|categories| - 1]) + [categories[|categories| - 1].id]
  }

  /** Category ids distribute over appending records. */
  lemma CategoryIdsAppend(r1: seq<BookCategoryBook>, r2: seq<BookCategoryBook>)
    ensures CategoryIds(r1 + r2) == CategoryIds(r1) + CategoryIds(r2)
  {
  }

  /** A set of references: no record twice. */
  ghost predicate Distinct(records: seq<BookCategoryBook>)
  {
    forall i, j :: 0 <= i < j < |records| ==> records[i] != records[j]
  }

  ghost predicate PointAt(records: seq<BookCategoryBook>, bookId: Guid)
  {
    forall r :: r in records ==> r.bookId == bookId
  }

  /** `records[k]` joins the book `bookId` to `categories[k]`, for every k. */
  ghost predicate Links(records: seq<BookCategoryBook>, categories: seq<BookCategory>, bookId: Guid)
  {
    |records| == |categories| &&
    forall k :: 0 <= k < |records| ==>
      records[k].bookId == bookId && records[k].bookCategoryId == categories[k].id
  }

  /** Adding a new record that points at the book keeps the collection a set
      of records of this book. */
  lemma AppendRecord(records: seq<BookCategoryBook>, r: BookCategoryBook, bookId: Guid)
    requires Distinct(records) && PointAt(records, bookId)
    requires r !in records && r.bookId == bookId
    ensures Distinct(records + [r]) && PointAt(records + [r], bookId)
  {
  }

  /** The category ids of records linking a list of categories are those categories' ids. */
  lemma LinkedCategoryIds(records: seq<BookCategoryBook>, categories: seq<BookCategory>, bookId: Guid)
    requires Links(records, categories, bookId)
    ensures CategoryIds(records) == IdsOf(categories)
  {
  }

  /** The C# property types: `Valid` is a DateRange, `Image` an Image, `Price`
      a Money and `Difficulty` a BookDifficulty, each possibly null. */
  predicate WellTyped(valid: ValueObject?, image: ValueObject?, price: ValueObject?, difficulty: ValueObject?)
  {
    (valid != null ==> valid.content.DateRange?) &&
    (image != null ==> image.content.Image?) &&
    (price != null ==> price.content.Money?) &&
    (difficulty != null ==> difficulty.content.BookDifficulty?)
  }

  class Book {
    var id: Guid
    var name: Option<string>
    var author: Option<string>
    var language: Option<string>
    var valid: ValueObject?
    var image: ValueObject?
    var price: ValueObject?
    var isbn: Option<string>
    var difficulty: ValueObject?
    var length: int64
    /** `_categories`, a `HashSet` of join records. Records compare by
        reference, so the set holds each record object once; the sequence keeps
        them in insertion order, which is one enumeration order the set may use. */
    var records: seq<BookCategoryBook>

    /** The value-object properties hold objects of their declared types, and
        every record is a distinct object that points back at this book. */
    ghost predicate Valid()
      reads this
    {
      WellTyped(valid, image, price, difficulty) &&
      Distinct(records) && PointAt(records, id)
    }

    /** `new Book()`: the initialisers alone. `Id` stays `Guid.Empty`, the
        reference and string properties null, `Length` zero, and the range,
        image and difficulty are the shared empty instances. */
    constructor Default(statics: StaticInstances)
      requires statics.Valid()
      ensures Valid()
      ensures id == EmptyGuid
      ensures name == None && author == None && language == None && isbn == None
      ensures valid == statics.emptyRange && image == statics.noImage
      ensures price == null && difficulty == statics.emptyDifficulty
      ensures length == 0 && records == [] && Categories() == []
    {
      id := EmptyGuid;
      name, author, language, isbn := None, None, None, None;
      valid := statics.emptyRange;
      image := statics.noImage;
      price := null;
      difficulty := statics.emptyDifficulty;
      length := 0;
      records := [];
    }

    /** The full constructor: every argument stored unchanged, `Id` the fresh
        `Guid.NewGuid()` passed in as `newId`, no categories. */
    constructor (newId: Guid, name: Option<string>, author: Option<string>, language: Option<string>,
                 valid: ValueObject?, image: ValueObject?, price: ValueObject?, isbn: Option<string>,
                 difficulty: ValueObject?, length: int64)
      requires WellTyped(valid, image, price, difficulty)
      ensures Valid()
      ensures id == newId
      ensures this.name == name && this.author == author && this.language == language
      ensures this.valid == valid && this.image == image && this.price == price
      ensures this.isbn == isbn && this.difficulty == difficulty && this.length == length
      ensures records == [] && Categories() == []
    {
      id := newId;
      this.name := name;
      this.author := author;
      this.language := language;
      this.valid := valid;
      this.image := image;
      this.price := price;
      this.isbn := isbn;
      this.difficulty := difficulty;
      this.length := length;
      records := [];
    }

    /** `Categories`: the category id of every join record, one entry per record. */
    function Categories(): (ids: seq<Guid>)
      reads this
      ensures |ids| == |records|
      ensures forall g :: g in ids <==> exists r :: r in records && r.bookCategoryId == g
    {
      CategoryIds(records)
    }

    /** `AddCategories(categories)`: one new join record per argument, each
        pointing at this book and at that category; nothing is deduplicated and
        nothing but the record collection changes. */
    method AddCategories(categories: seq<BookCategory>)
      requires Valid()
      modifies this`records
      ensures Valid()
      ensures |records| == |old(records)| + |categories|
      ensures records[..|old(records)|] == old(records)
      ensures Links(records[|old(records)|..], categories, id)
      ensures forall r :: r in records[|old(records)|..] ==> fresh(r)
      ensures Categories() == old(Categories()) + IdsOf(categories)
      ensures multiset(Categories()) == multiset(old(Categories())) + multiset(IdsOf(categories))
    {
      ghost var added: seq<BookCategoryBook> := [];
      var i := 0;
      while i < |categories|
        invariant 0 <= i <= |categories|
        invariant records == old(records) + added
        invariant Links(added, categories[..i], id)
        invariant forall r :: r in added ==> fresh(r)
        invariant Valid()
      {
        var record := new BookCategoryBook(categories[i], this);
        AppendRecord(records, record, id);
        records := records + [record];
        added := added + [record];
        assert categories[..i + 1] == categories[..i] + [categories[i]];
        i := i + 1;
      }
      assert categories[..i] == categories;
      assert records[|old(records)|..] == added;
      CategoryIdsAppend(old(records), added);
      LinkedCategoryIds(added, categories, id);
    }
  }

  /** A fresh book given three categories reports exactly their three ids, and
      the categories' own book lists stay empty. */
  method ThreeCategories(g: Guid, g1: Guid, g2: Guid, g3: Guid)
    returns (ids: seq<Guid>, books1: seq<Guid>)
    ensures |ids| == 3
    ensures multiset(ids) == multiset{g1, g2, g3}
    ensures books1 == []
  {
    var statics := new StaticInstances();
    var book := new Book(g, None, None, None, statics.emptyRange, statics.noImage, null, None,
                         statics.emptyDifficulty, 0);
    var c1 := new BookCategory(g1, None);
    var c2 := new BookCategory(g2, None);
    var c3 := new BookCategory(g3, None);
    var cs := [c1, c2, c3];
    book.AddCategories(cs);
    assert IdsOf(cs) == [g1, g2, g3];
    ids := book.Categories();
    assert ids == [g1, g2, g3];
    books1 := c1.Books();
  }

  /** Adding the same category twice records it twice. */
  method SameCategoryTwice(g: Guid, gc: Guid) returns (ids: seq<Guid>)
    ensures ids == [gc, gc]
    ensures multiset(ids)[gc] == 2
  {
    var statics := new StaticInstances();
    var book := new Book.Default(statics);
    var c := new BookCategory(gc, None);
    book.AddCategories([c]);
    assert book.Categories() == [gc];
    book.AddCategories([c]);
    ids := book.Categories();
  }
}
