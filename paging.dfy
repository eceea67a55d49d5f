/** What the paged endpoints have in common.  A paged read is a series of GETs:
    the first to the endpoint, each later one to the previous page's
    `links.next`.  The model receives the outcome of each of those GETs in order
    (`pages[k]` for the k-th request) and states that the series ends: the last
    page it is given has no next link. */
module Paging {
  import opened Json
  import opened Http

  /** A paged read's result and the number of pages it requested. */
  datatype Paged<+T> = Paged(result: Result<T>, fetched: nat)

  /** `data.get("links", {}).get("next")` of a page, or None when the page is
      not that shape (the read then stops with an exception before asking). */
  function NextLink(page: Outcome): Json
  {
    match page
    case Returned(Obj(data)) =>
      (match LookupOr(data, "links", EmptyObject)
       case Obj(links) => Lookup(links, "next")
       case _ => Null)
    case _ => Null
  }

  /** The pages given are enough: the last of them links nowhere. */
  predicate PagesEnd(pages: seq<Outcome>)
  {
    |pages| > 0 && !Truthy(NextLink(pages[|pages| - 1]))
  }

  /** Every series of pages given, one per profile, is enough. */
  ghost predicate AllPagesEnd(pagesOf: nat -> seq<Outcome>)
  {
    forall j: nat :: PagesEnd(pagesOf(j))
  }
}
