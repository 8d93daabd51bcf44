/** `usecase/book/get_trending_books.go`: turning a Google Books volume list into `Book`
    records. The HTTP request and the JSON decoder come in as their outcome. */
module TrendingBooksUseCase {
  import opened Wrappers
  import opened GoStrings
  import opened Strconv
  import opened BookDomain

  /** One entry of `items` in the decoded response. */
  datatype Item = Item(
    id: string,
    title: string,
    authors: seq<string>,
    description: string,
    averageRating: real,
    thumbnail: string,
    previewLink: string,
    listPrice: real)

  /** What the request yields: a transport error, or a status with the decoder's result on
      its body (read only when the status is 200). */
  datatype Fetch = TransportError(err: string) | Response(statusCode: int, decoded: Result<seq<Item>, string>)

  const StatusOK := 200
  const UnknownAuthor := "Unknown Author"
  const AuthorSeparator := ", "
  const TrendingCategory := "Trending"
  const PlainScheme := "http://"
  const SecureScheme := "https://"
  /** The display price for a volume without a list price. */
  const PlaceholderPrice := 9.99

  const FetchErrorPrefix := "failed to fetch from Google Books: "
  const StatusErrorPrefix := "google Books API returned status: "
  const DecodeErrorPrefix := "failed to decode response: "

  /** The author line: the authors joined with ", ", or "Unknown Author" for none. */
  function AuthorLine(authors: seq<string>): string {
    if |authors| > 0 then Join(authors, AuthorSeparator) else UnknownAuthor
  }

  /** Every author appears in the line, a single author is the whole line, and an empty
      list gives the placeholder. */
  lemma AuthorLineNamesEveryAuthor(authors: seq<string>)
    ensures |authors| == 0 ==> AuthorLine(authors) == UnknownAuthor
    ensures |authors| == 1 ==> AuthorLine(authors) == authors[0]
    ensures forall i :: 0 <= i < |authors| ==> Contains(AuthorLine(authors), authors[i])
  {
    forall i | 0 <= i < |authors|
      ensures Contains(AuthorLine(authors), authors[i])
    {
      JoinContains(authors, AuthorSeparator, i);
    }
  }

  /** The thumbnail with its "http://" scheme, if any, upgraded to "https://". */
  function SecureThumbnail(url: string): string {
    if HasPrefix(url, PlainScheme) then ReplaceFirst(url, PlainScheme, SecureScheme) else url
  }

  /** An "http://" link becomes "https://" plus the rest; any other link is unchanged; the
      result never starts with "http://", so the rewrite is idempotent. */
  lemma SecureThumbnailRewrite(url: string)
    ensures HasPrefix(url, PlainScheme) ==> SecureThumbnail(url) == SecureScheme + url[|PlainScheme|..]
    ensures !HasPrefix(url, PlainScheme) ==> SecureThumbnail(url) == url
    ensures !HasPrefix(SecureThumbnail(url), PlainScheme)
    ensures SecureThumbnail(SecureThumbnail(url)) == SecureThumbnail(url)
  {
    var r := SecureThumbnail(url);
    if HasPrefix(url, PlainScheme) {
      assert r[4] == 's';
    }
  }

  /** A zero list price is shown as the placeholder. */
  function DisplayPrice(listPrice: real): (p: real)
    ensures p != 0.0
    ensures listPrice != 0.0 ==> p == listPrice
  {
    if listPrice == 0.0 then PlaceholderPrice else listPrice
  }

  /** The book one item becomes: the item's id, title, rating and preview link, the author
      line, the display price and the secured thumbnail, category "Trending", not featured,
      external; the fields the literal leaves out stay empty. */
  function TrendingBook(item: Item): (b: Book)
    ensures b.id == item.id && b.title == item.title && b.bookUrl == item.previewLink
    ensures b.category == TrendingCategory && !b.isFeatured && b.isExternal
    ensures b.author == AuthorLine(item.authors) && b.price == DisplayPrice(item.listPrice)
    ensures b.rating == item.averageRating && b.coverUrl == SecureThumbnail(item.thumbnail)
    ensures b.sharedBy == "" && b.tag == ""
  {
    Book(item.id, item.title, AuthorLine(item.authors), DisplayPrice(item.listPrice), item.averageRating,
         TrendingCategory, false, "", "", SecureThumbnail(item.thumbnail), item.previewLink, true)
  }

  /** `GetTrendingBooks.Execute` after the request: the three error branches in their
      order, then one book per item, in item order. */
  method Execute(fetched: Fetch) returns (r: Result<seq<Book>, string>)
    ensures fetched.TransportError? ==> r == Failure(FetchErrorPrefix + fetched.err)
    ensures fetched.Response? && fetched.statusCode != StatusOK
        ==> r == Failure(StatusErrorPrefix + Itoa(fetched.statusCode))
    ensures fetched.Response? && fetched.statusCode == StatusOK && fetched.decoded.Failure?
        ==> r == Failure(DecodeErrorPrefix + fetched.decoded.error)
    ensures r.Success? <==> fetched.Response? && fetched.statusCode == StatusOK && fetched.decoded.Success?
    ensures r.Success? ==> |r.value| == |fetched.decoded.value|
    ensures r.Success? ==> forall i :: 0 <= i < |r.value| ==> r.value[i] == TrendingBook(fetched.decoded.value[i])
  {
    if fetched.TransportError? {
      return Failure(FetchErrorPrefix + fetched.err);
    }
    if fetched.statusCode != StatusOK {
      return Failure(StatusErrorPrefix + Itoa(fetched.statusCode));
    }
    if fetched.decoded.Failure? {
      return Failure(DecodeErrorPrefix + fetched.decoded.error);
    }
    var items := fetched.decoded.value;
    var books: seq<Book> := [];
    for k := 0 to |items|
      invariant |books| == k
      invariant forall i :: 0 <= i < k ==> books[i] == TrendingBook(items[i])
    {
      var item := items[k];
      var author := UnknownAuthor;
      if |item.authors| > 0 {
        author := Join(item.authors, AuthorSeparator);
      }
      var price := item.listPrice;
      if price == 0.0 {
        price := PlaceholderPrice;
      }
      var coverUrl := item.thumbnail;
      if HasPrefix(coverUrl, PlainScheme) {
        coverUrl := ReplaceFirst(coverUrl, PlainScheme, SecureScheme);
      }
      var b := EmptyBook.(id := item.id, title := item.title, author := author, category := TrendingCategory,
                          price := price, rating := item.averageRating, coverUrl := coverUrl,
                          bookUrl := item.previewLink, isFeatured := false, isExternal := true);
      books := books + [b];
    }
    return Success(books);
  }
}
