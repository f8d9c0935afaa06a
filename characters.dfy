/**
 * The character list page: a search term and a character filter set drive
 * server-paginated requests, and scrolling to the end asks for the next page.
 */
module Characters {
  import opened Wrappers
  import opened Text
  import opened Js
  import opened Models
  import opened Filters
  import opened RickMortyApi
  import opened PagedLists

  /** The message shown when a page cannot be loaded. */
  const LoadError := "Erro ao carregar personagens. Por favor, tente novamente."

  /** The key names of a character list request. */
  const CharacterQueryKeys: set<string> := {"page", "name", "gender", "status", "species", "type"}

  /** The object the page passes to `getCharacters` for the given page, search term and filters. */
  function CharactersQuery(page: int, term: string, f: FilterValues): Object {
    [ ("page", Num(page)),
      ("name", OrUndefined(term)),
      ("gender", OptionOrUndefined(f.gender)),
      ("status", OptionOrUndefined(f.status)),
      ("species", OptionOrUndefined(f.species)),
      ("type", OptionOrUndefined(f.typeName)) ]
  }

  /**
   * A character list request always carries the page; it carries the search
   * term and each filter exactly when that value is a non-empty string, as
   * that string; and it carries no other parameter.
   */
  lemma {:induction false} CharactersQueryParams(page: int, term: string, f: FilterValues)
    ensures var p := ListParams(CharactersQuery(page, term, f));
      && "page" in p && p["page"] == IntToString(page)
      && SentIfNonEmpty(p, "name", Some(term))
      && SentIfNonEmpty(p, "gender", f.gender)
      && SentIfNonEmpty(p, "status", f.status)
      && SentIfNonEmpty(p, "species", f.species)
      && SentIfNonEmpty(p, "type", f.typeName)
      && p.Keys <= CharacterQueryKeys
  {
    var q := CharactersQuery(page, term, f);
    assert UniqueKeys(q);
    PageEntry(q, 0, page);
    OptionalEntry(q, 1, "name", Some(term));
    OptionalEntry(q, 2, "gender", f.gender);
    OptionalEntry(q, 3, "status", f.status);
    OptionalEntry(q, 4, "species", f.species);
    OptionalEntry(q, 5, "type", f.typeName);
    ParamKeysWithin(q, CharacterQueryKeys);
  }

  /**
   * With the filters the filter panel emits for its form, species and type are
   * sent trimmed and only when not blank, status and gender as entered.
   */
  lemma {:induction false} FilteredCharactersQuery(page: int, term: string, form: FilterValues)
    ensures var p := ListParams(CharactersQuery(page, term, Normalized(form)));
      && SentIfNonEmpty(p, "status", form.status)
      && SentIfNonEmpty(p, "gender", form.gender)
      && ("species" in p <==> form.species.Some? && Trim(form.species.value) != "")
      && ("species" in p ==> p["species"] == Trim(form.species.value))
      && ("type" in p <==> form.typeName.Some? && Trim(form.typeName.value) != "")
      && ("type" in p ==> p["type"] == Trim(form.typeName.value))
  {
    CharactersQueryParams(page, term, Normalized(form));
    TrimmedSpec(form.species);
    TrimmedSpec(form.typeName);
  }

  class CharactersComponent {
    const api: RickMortyApiService
    const list: PagedList<Character>
    var activeFilters: FilterValues
    var searchTerm: string

    constructor (api: RickMortyApiService)
      ensures this.api == api && fresh(list) && list.IsInitial()
      ensures activeFilters == NoFilters && searchTerm == ""
    {
      this.api := api;
      list := new PagedList();
      activeFilters := NoFilters;
      searchTerm := "";
    }

    /** The request for the list's current page under the stored term and filters. */
    function CurrentRequest(): (r: HttpRequest)
      reads this, list, api
      ensures "page" in r.params && r.params["page"] == IntToString(list.currentPage)
      ensures SentIfNonEmpty(r.params, "name", Some(searchTerm))
      ensures r.params.Keys <= CharacterQueryKeys
    {
      CharactersQueryParams(list.currentPage, searchTerm, activeFilters);
      HttpRequest(api.apiUrl + "/character", ListParams(CharactersQuery(list.currentPage, searchTerm, activeFilters)))
    }

    /** `loadCharacters(reset)` up to the request it sends. */
    method LoadStart(reset: bool) returns (request: HttpRequest)
      modifies list
      ensures list.Began(reset)
      ensures request == CurrentRequest()
    {
      list.Begin(reset);
      request := api.GetCharacters(CharactersQuery(list.currentPage, searchTerm, activeFilters));
    }

    /** The response of a load started with `reset` arrived. */
    method LoadSuccess(reset: bool, response: ApiResponse<Character>)
      modifies list
      ensures list.Succeeded(reset, response)
    {
      list.Succeed(reset, response);
    }

    /** The request of a load failed. */
    method LoadFailure()
      modifies list
      ensures list.Failed(LoadError)
    {
      list.Fail(LoadError);
    }

    /** The page reads the shared search term and loads the first page. */
    method OnInit() returns (request: HttpRequest)
      modifies this, list
      ensures searchTerm == api.GetSearchTerm() && activeFilters == old(activeFilters)
      ensures list.Began(false)
      ensures request == CurrentRequest()
    {
      searchTerm := api.GetSearchTerm();
      request := LoadStart(false);
    }

    /** A new value of the shared search term reached the page: it reloads from page 1. */
    method OnSearchTerm(term: string) returns (request: HttpRequest)
      modifies this, list
      ensures searchTerm == term && activeFilters == old(activeFilters)
      ensures list.Began(true)
      ensures request == CurrentRequest()
    {
      searchTerm := term;
      request := LoadStart(true);
    }

    /** Scrolling to the end loads the next page, unless a load is running or there is none. */
    method OnScrollEnd() returns (request: Option<HttpRequest>)
      modifies list
      ensures !old(list.CanLoadMore()) ==> request == None && unchanged(list)
      ensures old(list.CanLoadMore()) ==> list.Continued() && request == Some(CurrentRequest())
    {
      if list.CanLoadMore() {
        list.Advance();
        var r := LoadStart(false);
        request := Some(r);
      } else {
        request := None;
      }
    }

    /** New filters always reload from page 1. */
    method OnFiltersChange(filters: FilterValues) returns (request: HttpRequest)
      modifies this, list
      ensures activeFilters == filters && searchTerm == old(searchTerm)
      ensures list.Began(true)
      ensures request == CurrentRequest()
    {
      activeFilters := filters;
      request := LoadStart(true);
    }
  }

  /** `n` characters with consecutive ids starting at `first`. */
  function SampleCharacters(first: int, n: nat): seq<Character> {
    seq(n, i => Character(first + i, "", []))
  }

  /**
   * A query with three pages of 20, 20 and 5 characters: after the first page
   * and two scrolls all 45 are listed, the page is 3, no more pages are
   * offered and a further scroll sends nothing.
   */
  method ScrollThroughThreePages(apiUrl: string) returns (count: int, page: int, more: bool, last: Option<HttpRequest>)
    ensures count == 45 && page == 3 && !more && last == None
  {
    var api := new RickMortyApiService(apiUrl);
    var c := new CharactersComponent(api);
    var info := PageInfo(45, 3);
    var r := c.OnInit();
    c.LoadSuccess(false, ApiResponse(info, SampleCharacters(1, 20)));
    var s := c.OnScrollEnd();
    c.LoadSuccess(false, ApiResponse(info, SampleCharacters(21, 20)));
    s := c.OnScrollEnd();
    c.LoadSuccess(false, ApiResponse(info, SampleCharacters(41, 5)));
    last := c.OnScrollEnd();
    count := |c.list.items|;
    page := c.list.currentPage;
    more := c.list.hasMore;
  }
}
