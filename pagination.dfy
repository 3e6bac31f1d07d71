/** The envelope of the pagination package as the songs service uses it.
    The package itself (parameter parsing, page counts, Link headers) is not
    part of this model: an envelope is a record of the page number, the page
    size and the total it was built from, plus the items the caller puts in
    it. */
module Pagination {

  /** The page number and page size resolved from a request. */
  datatype PageParams = PageParams(page: int, perPage: int)

  /** pagination.Pages after pagination.New(page, perPage, total) and the
      caller's assignment of Items. */
  datatype Pages<T> = Pages(page: int, perPage: int, total: int, items: T)
}
