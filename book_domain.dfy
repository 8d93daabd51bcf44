/** `domain/book/model.go`: the book record. */
module BookDomain {
  /** `Book`. The `float32` price and rating are reals: the model only copies them and
      compares a price with zero. */
  datatype Book = Book(
    id: string,
    title: string,
    author: string,
    price: real,
    rating: real,
    category: string,
    isFeatured: bool,
    sharedBy: string,
    tag: string,
    coverUrl: string,
    bookUrl: string,
    isExternal: bool)

  /** The zero `Book{}` a composite literal starts from. */
  const EmptyBook := Book("", "", "", 0.0, 0.0, "", false, "", "", "", "", false)
}
