/** Shapes of the values the page receives from its external collaborators.
    The fetches themselves (HTTP, XML parsing, the vote store) are not modelled:
    their outcomes arrive here as plain input values. */
module Gateway {

  /** What the product and category fetch helpers resolve to: a success flag
      and, when it is set, the already-parsed body. */
  datatype FetchResult<T> = FetchResult(success: bool, body: T)
}
