/**
 * The episode list page: a search term and an episode-code filter drive
 * server-paginated requests, and scrolling to the end asks for the next page.
 */
module Episodes {
  import opened Wrappers
  import opened Text
  import opened Js
  import opened Models
  import opened EpisodeFilters
  import opened RickMortyApi
  import opened PagedLists

  /** The message shown when a page cannot be loaded. */
  const LoadError := "Falha ao carregar os episódios. Rick quebrou o controle remoto! Tente novamente mais tarde."

  /** The key names of an episode list request. */
  const EpisodeQueryKeys: set<string> := {"page", "name", "episode"}

  /** The object the page passes to `getEpisodes` for the given page, search term and filter. */
  function EpisodesQuery(page: int, term: string, f: EpisodeFilterValues): Object {
    [ ("page", Num(page)),
      ("name", OrUndefined(term)),
      ("episode", OptionOrUndefined(f.episode)) ]
  }

  /**
   * An episode list request always carries the page; it carries the search
   * term and the episode code exactly when each is a non-empty string, as that
   * string; and it carries no other parameter.
   */
  lemma {:induction false} EpisodesQueryParams(page: int, term: string, f: EpisodeFilterValues)
    ensures var p := ListParams(EpisodesQuery(page, term, f));
      && "page" in p && p["page"] == IntToString(page)
      && SentIfNonEmpty(p, "name", Some(term))
      && SentIfNonEmpty(p, "episode", f.episode)
      && p.Keys <= EpisodeQueryKeys
  {
    var q := EpisodesQuery(page, term, f);
    assert UniqueKeys(q);
    PageEntry(q, 0, page);
    OptionalEntry(q, 1, "name", Some(term));
    OptionalEntry(q, 2, "episode", f.episode);
    ParamKeysWithin(q, EpisodeQueryKeys);
  }

  class EpisodesComponent {
    const api: RickMortyApiService
    const list: PagedList<Episode>
    var activeFilters: EpisodeFilterValues
    var searchTerm: string

    constructor (api: RickMortyApiService)
      ensures this.api == api && fresh(list) && list.IsInitial()
      ensures activeFilters == NoEpisodeFilters && searchTerm == ""
    {
      this.api := api;
      list := new PagedList();
      activeFilters := NoEpisodeFilters;
      searchTerm := "";
    }

    /** The request for the list's current page under the stored term and filter. */
    function CurrentRequest(): (r: HttpRequest)
      reads this, list, api
      ensures "page" in r.params && r.params["page"] == IntToString(list.currentPage)
      ensures SentIfNonEmpty(r.params, "name", Some(searchTerm))
      ensures r.params.Keys <= EpisodeQueryKeys
    {
      EpisodesQueryParams(list.currentPage, searchTerm, activeFilters);
      HttpRequest(api.apiUrl + "/episode", ListParams(EpisodesQuery(list.currentPage, searchTerm, activeFilters)))
    }

    /** `loadEpisodes(reset)` up to the request it sends. */
    method LoadStart(reset: bool) returns (request: HttpRequest)
      modifies list
      ensures list.Began(reset)
      ensures request == CurrentRequest()
    {
      list.Begin(reset);
      request := api.GetEpisodes(EpisodesQuery(list.currentPage, searchTerm, activeFilters));
    }

    /** The response of a load started with `reset` arrived. */
    method LoadSuccess(reset: bool, response: ApiResponse<Episode>)
      modifies list
      ensures list.Succeeded(reset, response)
    {
      list.Succeed(reset, response);
    }

    /** The request of a load failed. */
    method LoadFailure()
      modifies list
      ensures list.Failed(LoadError)
    {
      list.Fail(LoadError);
    }

    /** The page loads its first page without a reset. */
    method OnInit() returns (request: HttpRequest)
      modifies list
      ensures list.Began(false)
      ensures request == CurrentRequest()
    {
      request := LoadStart(false);
    }

    /** A new search term reloads from page 1. */
    method OnSearch(term: string) returns (request: HttpRequest)
      modifies this, list
      ensures searchTerm == term && activeFilters == old(activeFilters)
      ensures list.Began(true)
      ensures request == CurrentRequest()
    {
      searchTerm := term;
      request := LoadStart(true);
    }

    /** A new episode-code filter reloads from page 1. */
    method OnFiltersChange(filters: EpisodeFilterValues) returns (request: HttpRequest)
      modifies this, list
      ensures activeFilters == filters && searchTerm == old(searchTerm)
      ensures list.Began(true)
      ensures request == CurrentRequest()
    {
      activeFilters := filters;
      request := LoadStart(true);
    }

    /** Scrolling to the end loads the next page, unless a load is running or there is none. */
    method OnScrollEnd() returns (request: Option<HttpRequest>)
      modifies list
      ensures !old(list.CanLoadMore()) ==> request == None && unchanged(list)
      ensures old(list.CanLoadMore()) ==> list.Continued() && request == Some(CurrentRequest())
    {
      if list.CanLoadMore() {
        list.Advance();
        var r := LoadStart(false);
        request := Some(r);
      } else {
        request := None;
      }
    }
  }
}
