/**
 * The episode detail page: it loads one episode by the ID in the route, then
 * its cast, six characters at a time, and reads its season and episode numbers.
 */
module EpisodeDetails {
  import opened Wrappers
  import opened Text
  import opened Js
  import opened Models
  import opened RickMortyApi
  import opened SliceLoading
  import opened EpisodeCard

  const InvalidIdError := "ID de episódio inválido."
  const LoadError := "Falha ao carregar os detalhes do episódio. Rick perdeu o controle remoto! Tente novamente mais tarde."

  class EpisodeDetailsComponent {
    const api: RickMortyApiService
    const characters: SliceLoader<Character>
    var episode: Option<Episode>
    var loading: bool
    var error: Option<string>

    constructor (api: RickMortyApiService)
      ensures this.api == api && fresh(characters) && characters.IsInitial()
      ensures episode == None && loading && error == None
    {
      this.api := api;
      characters := new SliceLoader();
      episode := None;
      loading := true;
      error := None;
    }

    /** The requests of a step: one `getCharacterById` per ID of the slice, in order. */
    function CharacterRequests(slice: Option<seq<NumericId>>): Option<seq<HttpRequest>> {
      match slice
      case None => None
      case Some(s) => Some(seq(|s|, i requires 0 <= i < |s| => api.GetCharacterById(s[i])))
    }

    /** `totalCharacters`. */
    function TotalCharacters(): nat
      reads characters
    {
      |characters.ids|
    }

    /** A route ID that is present and non-empty is converted with unary `+` and loaded; otherwise the page shows an error. */
    method OnInit(routeId: Option<string>) returns (request: Option<HttpRequest>)
      modifies this
      ensures routeId.Some? && routeId.value != "" ==>
        request == Some(api.GetEpisodeById(UnaryPlus(routeId.value))) && loading && error == None
      ensures !(routeId.Some? && routeId.value != "") ==>
        request == None && !loading && error == Some(InvalidIdError)
      ensures episode == old(episode)
    {
      if routeId.Some? && routeId.value != "" {
        var r := LoadEpisodeStart(UnaryPlus(routeId.value));
        request := Some(r);
      } else {
        error := Some(InvalidIdError);
        loading := false;
        request := None;
      }
    }

    /** `loadEpisode(id)` up to the request it sends. */
    method LoadEpisodeStart(id: NumericId) returns (request: HttpRequest)
      modifies this
      ensures request == api.GetEpisodeById(id)
      ensures loading && error == None && episode == old(episode)
    {
      loading := true;
      error := None;
      request := api.GetEpisodeById(id);
    }

    /**
     * The episode arrived: it is shown; when it has characters their IDs are
     * extracted and the first step begins; a episode without characters
     * offers no more characters and requests nothing.
     */
    method LoadEpisodeSuccess(c: Episode) returns (requests: Option<seq<HttpRequest>>)
      modifies this, characters
      ensures episode == Some(c) && !loading && error == old(error)
      ensures |c.characters| > 0 ==>
        && characters.Started(ExtractIds(c.characters))
        && TotalCharacters() == |c.characters|
        && requests == CharacterRequests(characters.NextSlice())
      ensures |c.characters| == 0 ==>
        && requests == None && !characters.hasMore
        && characters.ids == old(characters.ids) && characters.index == old(characters.index) && characters.items == old(characters.items)
        && characters.loadingFirst == old(characters.loadingFirst) && characters.loadingMore == old(characters.loadingMore)
    {
      episode := Some(c);
      loading := false;
      if |c.characters| > 0 {
        characters.SetIds(ExtractIds(c.characters));
        requests := LoadNextCharacters();
      } else {
        characters.MarkExhausted();
        requests := None;
      }
    }

    method LoadEpisodeFailure()
      modifies this
      ensures error == Some(LoadError) && !loading && episode == old(episode)
    {
      error := Some(LoadError);
      loading := false;
    }

    /** `loadNextCharacters` up to the requests it sends. */
    method LoadNextCharacters() returns (requests: Option<seq<HttpRequest>>)
      modifies characters
      ensures characters.Started(old(characters.ids))
      ensures requests == CharacterRequests(characters.NextSlice())
    {
      var slice := characters.Start();
      requests := CharacterRequests(slice);
    }

    /** Every request of the slice succeeded: the characters arrive in ID order. */
    method CharactersSuccess(results: seq<Character>)
      modifies characters
      ensures characters.Joined(results)
      ensures old(characters.CountMatchesIndex()) && |results| == |Slice(old(characters.ids), old(characters.index))| ==>
        characters.CountMatchesIndex()
    {
      characters.Succeed(results);
    }

    /** Some request of the slice failed. */
    method CharactersFailure()
      modifies characters
      ensures characters.Dropped()
    {
      characters.Fail();
    }

    /** Scrolling to the end of the cast list starts the next step, unless one is in flight or none is left. */
    method OnCharactersScrollEnd() returns (requests: Option<seq<HttpRequest>>)
      modifies characters
      ensures old(characters.CanLoadMore()) ==>
        characters.Started(old(characters.ids)) && requests == CharacterRequests(characters.NextSlice())
      ensures !old(characters.CanLoadMore()) ==> requests == None && unchanged(characters)
    {
      if characters.CanLoadMore() {
        requests := LoadNextCharacters();
      } else {
        requests := None;
      }
    }
  }

  /**
   * The detail page requests the very resource a cast member link names: for a
   * link `<api>/character/<digits>` written without leading zeros, the request
   * for the extracted ID goes to that link.
   */
  lemma {:induction false} CharacterLinkRoundTrip(api: RickMortyApiService, digits: string)
    requires Canonical(digits)
    ensures api.GetCharacterById(ExtractId(api.apiUrl + "/character/" + digits)) == HttpRequest(api.apiUrl + "/character/" + digits, map[])
  {
    assert api.apiUrl + "/character/" + digits == (api.apiUrl + "/character") + "/" + digits;
    ExtractIdOfLink(api.apiUrl + "/character", digits);
    CanonicalRoundTrip(digits);
  }
}
