/** The list loops of the API client: pages are requested until one is not full. */
module Pagination {
  const PAGE_SIZE := 100

  /** The page that a server with a fixed list answers with; pages count from 1 and the last may be short. */
  function Page<T>(items: seq<T>, page: nat): seq<T>
    requires 1 <= page
  {
    var from, upto := (page - 1) * PAGE_SIZE, page * PAGE_SIZE;
    if |items| <= from then [] else if |items| <= upto then items[from..] else items[from..upto]
  }

  /** The loop ends after one request for each full page and one more, and returns the whole list in
      order, also when the length is a multiple of the page size. */
  method ListAll<T>(items: seq<T>) returns (all: seq<T>, requests: nat)
    ensures all == items
    ensures requests == |items| / PAGE_SIZE + 1
  {
    all, requests := [], 0;
    var page := 1;
    while true
      invariant page == requests + 1
      invariant requests * PAGE_SIZE <= |items|
      invariant all == items[..requests * PAGE_SIZE]
      decreases |items| - requests * PAGE_SIZE
    {
      var more := Page(items, page);
      requests := requests + 1;
      all := all + more;
      if |more| < PAGE_SIZE {
        return;
      }
      page := page + 1;
    }
  }
}
