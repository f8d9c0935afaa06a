/**
 * The state machine the three catalogue list pages share: the accumulated
 * items of a server-paginated list, the page counters and the
 * `loading`/`loadingMore`/`hasMore`/`error` flags. Every asynchronous load is
 * split into the synchronous part before the request (`Begin`) and the two
 * ways the request can complete (`Succeed`, `Fail`).
 */
module PagedLists {
  import opened Wrappers
  import opened Models

  class PagedList<T> {
    var items: seq<T>
    var currentPage: int
    var totalPages: int
    var loading: bool
    var loadingMore: bool
    var hasMore: bool
    var error: Option<string>

    constructor ()
      ensures IsInitial()
    {
      items := [];
      currentPage := 1;
      totalPages := 1;
      loading := false;
      loadingMore := false;
      hasMore := true;
      error := None;
    }

    /** The state a list page starts in: page 1 of 1, nothing loaded, more to come. */
    predicate IsInitial()
      reads this
    {
      && items == [] && currentPage == 1 && totalPages == 1
      && !loading && !loadingMore && hasMore && error == None
    }

    /** The guard of the scroll handlers: no load in progress and more pages to come. */
    predicate CanLoadMore()
      reads this
    {
      !loadingMore && !loading && hasMore
    }

    /**
     * The state right after a load began: a reset goes back to page 1 with an
     * empty list and sets `loading`; a continuation only sets `loadingMore`;
     * either clears the error. Nothing else changes.
     */
    twostate predicate Began(reset: bool)
      reads this
    {
      && (reset ==> currentPage == 1 && items == [] && loading && loadingMore == old(loadingMore))
      && (!reset ==> currentPage == old(currentPage) && items == old(items) && loadingMore && loading == old(loading))
      && error == None
      && totalPages == old(totalPages) && hasMore == old(hasMore)
    }

    /**
     * The state right after a load succeeded: a reset load replaces the list
     * by the page's results, a continuation appends them; the reported page
     * count is stored, `hasMore` says whether the current page is before the
     * last one, and both flags are clear. The page and the error are kept.
     */
    twostate predicate Succeeded(reset: bool, response: ApiResponse<T>)
      reads this
    {
      && items == (if reset then [] else old(items)) + response.results
      && totalPages == response.info.pages
      && (hasMore <==> currentPage < totalPages)
      && !loading && !loadingMore
      && currentPage == old(currentPage) && error == old(error)
    }

    /**
     * The state right after a load failed: the message is shown, both flags are
     * clear and no more pages are offered; the list and the page are kept.
     */
    twostate predicate Failed(message: string)
      reads this
    {
      && error == Some(message)
      && !loading && !loadingMore && !hasMore
      && items == old(items) && currentPage == old(currentPage) && totalPages == old(totalPages)
    }

    /**
     * The state right after a scroll handler fired: the page rose by exactly
     * one and a continuation load began.
     */
    twostate predicate Continued()
      reads this
    {
      && currentPage == old(currentPage) + 1
      && items == old(items) && loadingMore && loading == old(loading)
      && error == None
      && totalPages == old(totalPages) && hasMore == old(hasMore)
    }

    method Begin(reset: bool)
      modifies this
      ensures Began(reset)
    {
      if reset {
        currentPage := 1;
        items := [];
        loading := true;
      } else {
        loadingMore := true;
      }
      error := None;
    }

    method Succeed(reset: bool, response: ApiResponse<T>)
      modifies this
      ensures Succeeded(reset, response)
    {
      var current := if reset then [] else items;
      items := current + response.results;
      totalPages := response.info.pages;
      hasMore := currentPage < totalPages;
      loading := false;
      loadingMore := false;
    }

    method Fail(message: string)
      modifies this
      ensures Failed(message)
    {
      error := Some(message);
      loading := false;
      loadingMore := false;
      hasMore := false;
    }

    /** `currentPage++`: the step a scroll handler takes before a continuation load. */
    method Advance()
      modifies this
      ensures currentPage == old(currentPage) + 1
      ensures items == old(items) && totalPages == old(totalPages) && error == old(error)
      ensures loading == old(loading) && loadingMore == old(loadingMore) && hasMore == old(hasMore)
    {
      currentPage := currentPage + 1;
    }
  }
}
