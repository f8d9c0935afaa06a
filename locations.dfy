/**
 * The location list page: a search term and a location filter set drive
 * server-paginated requests, and scrolling to the end asks for the next page.
 */
module Locations {
  import opened Wrappers
  import opened Text
  import opened Js
  import opened Models
  import opened LocationFilters
  import opened RickMortyApi
  import opened PagedLists

  /** The message shown when a page cannot be loaded (its accented letter is garbled in the source). */
  const LoadError := "Falha ao carregar os locais. Tente novamente mais tarde. Rick est\U{221A}\U{B0} ocupado lidando com outra coisa."

  /** The key names of a location list request. */
  const LocationQueryKeys: set<string> := {"page", "name", "type", "dimension"}

  /** The object the page passes to `getLocations` for the given page, search term and filters. */
  function LocationsQuery(page: int, term: string, f: LocationFilterValues): Object {
    [ ("page", Num(page)),
      ("name", OrUndefined(term)),
      ("type", OptionOrUndefined(f.typeName)),
      ("dimension", OptionOrUndefined(f.dimension)) ]
  }

  /**
   * A location list request always carries the page; it carries the search
   * term, the type and the dimension exactly when each is a non-empty string,
   * as that string; and it carries no other parameter.
   */
  lemma {:induction false} LocationsQueryParams(page: int, term: string, f: LocationFilterValues)
    ensures var p := ListParams(LocationsQuery(page, term, f));
      && "page" in p && p["page"] == IntToString(page)
      && SentIfNonEmpty(p, "name", Some(term))
      && SentIfNonEmpty(p, "type", f.typeName)
      && SentIfNonEmpty(p, "dimension", f.dimension)
      && p.Keys <= LocationQueryKeys
  {
    var q := LocationsQuery(page, term, f);
    assert UniqueKeys(q);
    PageEntry(q, 0, page);
    OptionalEntry(q, 1, "name", Some(term));
    OptionalEntry(q, 2, "type", f.typeName);
    OptionalEntry(q, 3, "dimension", f.dimension);
    ParamKeysWithin(q, LocationQueryKeys);
  }

  class LocationsComponent {
    const api: RickMortyApiService
    const list: PagedList<Location>
    var activeFilters: LocationFilterValues
    var searchTerm: string

    constructor (api: RickMortyApiService)
      ensures this.api == api && fresh(list) && list.IsInitial()
      ensures activeFilters == NoLocationFilters && searchTerm == ""
    {
      this.api := api;
      list := new PagedList();
      activeFilters := NoLocationFilters;
      searchTerm := "";
    }

    /** The request for the list's current page under the stored term and filters. */
    function CurrentRequest(): (r: HttpRequest)
      reads this, list, api
      ensures "page" in r.params && r.params["page"] == IntToString(list.currentPage)
      ensures SentIfNonEmpty(r.params, "name", Some(searchTerm))
      ensures r.params.Keys <= LocationQueryKeys
    {
      LocationsQueryParams(list.currentPage, searchTerm, activeFilters);
      HttpRequest(api.apiUrl + "/location", ListParams(LocationsQuery(list.currentPage, searchTerm, activeFilters)))
    }

    /** `loadLocations(reset)` up to the request it sends. */
    method LoadStart(reset: bool) returns (request: HttpRequest)
      modifies list
      ensures list.Began(reset)
      ensures request == CurrentRequest()
    {
      list.Begin(reset);
      request := api.GetLocations(LocationsQuery(list.currentPage, searchTerm, activeFilters));
    }

    /** The response of a load started with `reset` arrived. */
    method LoadSuccess(reset: bool, response: ApiResponse<Location>)
      modifies list
      ensures list.Succeeded(reset, response)
    {
      list.Succeed(reset, response);
    }

    /** The request of a load failed. */
    method LoadFailure()
      modifies list
      ensures list.Failed(LoadError)
    {
      list.Fail(LoadError);
    }

    /** The page loads its first page without a reset. */
    method OnInit() returns (request: HttpRequest)
      modifies list
      ensures list.Began(false)
      ensures request == CurrentRequest()
    {
      request := LoadStart(false);
    }

    /** A new search term reloads from page 1. */
    method OnSearch(term: string) returns (request: HttpRequest)
      modifies this, list
      ensures searchTerm == term && activeFilters == old(activeFilters)
      ensures list.Began(true)
      ensures request == CurrentRequest()
    {
      searchTerm := term;
      request := LoadStart(true);
    }

    /** New filters reload from page 1. */
    method OnFiltersChange(filters: LocationFilterValues) returns (request: HttpRequest)
      modifies this, list
      ensures activeFilters == filters && searchTerm == old(searchTerm)
      ensures list.Began(true)
      ensures request == CurrentRequest()
    {
      activeFilters := filters;
      request := LoadStart(true);
    }

    /** Scrolling to the end loads the next page, unless a load is running or there is none. */
    method OnScrollEnd() returns (request: Option<HttpRequest>)
      modifies list
      ensures !old(list.CanLoadMore()) ==> request == None && unchanged(list)
      ensures old(list.CanLoadMore()) ==> list.Continued() && request == Some(CurrentRequest())
    {
      if list.CanLoadMore() {
        list.Advance();
        var r := LoadStart(false);
        request := Some(r);
      } else {
        request := None;
      }
    }
  }
}
