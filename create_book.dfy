/** `usecase/book/create_book.go`: the id default and the local-path normalisation applied
    to a new book before it is stored. */
module CreateBookUseCase {
  import opened Wrappers
  import opened BookDomain

  /** `isValidURL`: longer than four characters and starting with "http". */
  predicate IsValidURL(url: string) {
    |url| > 4 && url[..4] == "http"
  }

  /** A non-empty link that is not a URL gets one "/" in front; URLs and "" are kept. */
  function NormalizeLocalPath(u: string): (r: string)
    ensures u == "" || IsValidURL(u) ==> r == u
    ensures u != "" && !IsValidURL(u) ==> r == "/" + u
  {
    if u != "" && !IsValidURL(u) then "/" + u else u
  }

  /** The rule's boundary: "http" alone is not a URL, while "https://..." and "httpx" are. */
  lemma IsValidURLExamples(rest: string)
    ensures !IsValidURL("http")
    ensures IsValidURL("https://" + rest)
    ensures IsValidURL("httpx")
    ensures !IsValidURL("/uploads/" + rest)
  {
    assert ("https://" + rest)[..4] == "http";
    assert ("/uploads/" + rest)[0] == '/';
  }

  /** After normalisation a link is empty, a URL, or web-relative. */
  lemma NormalizedIsServable(u: string)
    ensures var r := NormalizeLocalPath(u); r == "" || IsValidURL(r) || r[0] == '/'
  {
  }

  /** A path that already starts with "/" still gets another one: the rule is not idempotent. */
  lemma SlashPrefixedAgain(p: string)
    ensures NormalizeLocalPath("/" + p) == "//" + p
    ensures NormalizeLocalPath(NormalizeLocalPath("uploads/" + p)) == "//uploads/" + p
  {
    assert ("/" + p)[0] == '/';
    assert ("uploads/" + p)[0] == 'u';
    assert ("/" + ("uploads/" + p))[0] == '/';
    assert "/" + ("/" + ("uploads/" + p)) == "//uploads/" + p;
  }

  /** The book `Execute` passes to the repository: an empty id replaced with the generated
      one, cover and book links normalised independently, everything else as given. */
  function PrepareForCreate(b: Book, generatedId: string): (r: Book)
    ensures r.id == (if b.id == "" then generatedId else b.id)
    ensures r.coverUrl == NormalizeLocalPath(b.coverUrl)
    ensures r.bookUrl == NormalizeLocalPath(b.bookUrl)
    ensures r.(id := b.id, coverUrl := b.coverUrl, bookUrl := b.bookUrl) == b
  {
    var withId := if b.id == "" then b.(id := generatedId) else b;
    withId.(coverUrl := NormalizeLocalPath(b.coverUrl), bookUrl := NormalizeLocalPath(b.bookUrl))
  }

  /** A book with an id and with links that are URLs or empty is stored exactly as given:
      the generated id is then never used. */
  lemma PrepareLeavesCompleteBook(b: Book, generatedId: string)
    requires b.id != ""
    requires b.coverUrl == "" || IsValidURL(b.coverUrl)
    requires b.bookUrl == "" || IsValidURL(b.bookUrl)
    ensures PrepareForCreate(b, generatedId) == b
  {
  }

  /** The `*book.Book` the caller hands in: `Execute` writes its fields in place. */
  class BookRef {
    var value: Book

    constructor (b: Book)
      ensures value == b
    {
      value := b;
    }
  }

  /** `CreateBook.Execute`. The generated id is the value the UUID generator would yield;
      the repository is a function from the stored book to its answer. */
  method Execute(b: BookRef, generatedId: string, createBook: Book -> Result<Book, string>)
    returns (r: Result<Book, string>)
    modifies b
    ensures b.value == PrepareForCreate(old(b.value), generatedId)
    ensures r == createBook(b.value)
  {
    if b.value.id == "" {
      b.value := b.value.(id := generatedId);
    }
    if b.value.coverUrl != "" && !IsValidURL(b.value.coverUrl) {
      b.value := b.value.(coverUrl := "/" + b.value.coverUrl);
    }
    if b.value.bookUrl != "" && !IsValidURL(b.value.bookUrl) {
      b.value := b.value.(bookUrl := "/" + b.value.bookUrl);
    }
    var created := createBook(b.value);
    if created.Failure? {
      return Failure(created.error);
    }
    return Success(created.value);
  }
}
