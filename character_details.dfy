/**
 * The character detail page: it loads one character by the ID in the route,
 * then the episodes the character appears in, six at a time.
 */
module CharacterDetails {
  import opened Wrappers
  import opened Text
  import opened Js
  import opened Models
  import opened RickMortyApi
  import opened SliceLoading

  const InvalidIdError := "ID de personagem inválido."
  const LoadError := "Falha ao carregar os detalhes do personagem. Rick e Morty está ocupado! Tente novamente mais tarde."

  class CharacterDetailsComponent {
    const api: RickMortyApiService
    const episodes: SliceLoader<Episode>
    var character: Option<Character>
    var loading: bool
    var error: Option<string>

    constructor (api: RickMortyApiService)
      ensures this.api == api && fresh(episodes) && episodes.IsInitial()
      ensures character == None && loading && error == None
    {
      this.api := api;
      episodes := new SliceLoader();
      character := None;
      loading := true;
      error := None;
    }

    /** The requests of a step: one `getEpisodeById` per ID of the slice, in order. */
    function EpisodeRequests(slice: Option<seq<NumericId>>): Option<seq<HttpRequest>> {
      match slice
      case None => None
      case Some(s) => Some(seq(|s|, i requires 0 <= i < |s| => api.GetEpisodeById(s[i])))
    }

    /** `totalEpisodes`. */
    function TotalEpisodes(): nat
      reads episodes
    {
      |episodes.ids|
    }

    /** A route ID that is present and non-empty is converted with unary `+` and loaded; otherwise the page shows an error. */
    method OnInit(routeId: Option<string>) returns (request: Option<HttpRequest>)
      modifies this
      ensures routeId.Some? && routeId.value != "" ==>
        request == Some(api.GetCharacterById(UnaryPlus(routeId.value))) && loading && error == None
      ensures !(routeId.Some? && routeId.value != "") ==>
        request == None && !loading && error == Some(InvalidIdError)
      ensures character == old(character)
    {
      if routeId.Some? && routeId.value != "" {
        var r := LoadCharacterStart(UnaryPlus(routeId.value));
        request := Some(r);
      } else {
        error := Some(InvalidIdError);
        loading := false;
        request := None;
      }
    }

    /** `loadCharacter(id)` up to the request it sends. */
    method LoadCharacterStart(id: NumericId) returns (request: HttpRequest)
      modifies this
      ensures request == api.GetCharacterById(id)
      ensures loading && error == None && character == old(character)
    {
      loading := true;
      error := None;
      request := api.GetCharacterById(id);
    }

    /**
     * The character arrived: it is shown; when it has episodes their IDs are
     * extracted and the first step begins; a character without episodes
     * leaves the episode list as it was (the flag `hasMore` included).
     */
    method LoadCharacterSuccess(c: Character) returns (requests: Option<seq<HttpRequest>>)
      modifies this, episodes
      ensures character == Some(c) && !loading && error == old(error)
      ensures |c.episode| > 0 ==>
        && episodes.Started(ExtractIds(c.episode))
        && TotalEpisodes() == |c.episode|
        && requests == EpisodeRequests(episodes.NextSlice())
      ensures |c.episode| == 0 ==> requests == None && unchanged(episodes)
    {
      character := Some(c);
      loading := false;
      if |c.episode| > 0 {
        episodes.SetIds(ExtractIds(c.episode));
        requests := LoadNextEpisodes();
      } else {
        requests := None;
      }
    }

    method LoadCharacterFailure()
      modifies this
      ensures error == Some(LoadError) && !loading && character == old(character)
    {
      error := Some(LoadError);
      loading := false;
    }

    /** `loadNextEpisodes` up to the requests it sends. */
    method LoadNextEpisodes() returns (requests: Option<seq<HttpRequest>>)
      modifies episodes
      ensures episodes.Started(old(episodes.ids))
      ensures requests == EpisodeRequests(episodes.NextSlice())
    {
      var slice := episodes.Start();
      requests := EpisodeRequests(slice);
    }

    /** Every request of the slice succeeded: the episodes arrive in ID order. */
    method EpisodesSuccess(results: seq<Episode>)
      modifies episodes
      ensures episodes.Joined(results)
      ensures old(episodes.CountMatchesIndex()) && |results| == |Slice(old(episodes.ids), old(episodes.index))| ==>
        episodes.CountMatchesIndex()
    {
      episodes.Succeed(results);
    }

    /** Some request of the slice failed. */
    method EpisodesFailure()
      modifies episodes
      ensures episodes.Dropped()
    {
      episodes.Fail();
    }

    /** Scrolling to the end of the episode list starts the next step, unless one is in flight or none is left. */
    method OnEpisodesScrollEnd() returns (requests: Option<seq<HttpRequest>>)
      modifies episodes
      ensures old(episodes.CanLoadMore()) ==>
        episodes.Started(old(episodes.ids)) && requests == EpisodeRequests(episodes.NextSlice())
      ensures !old(episodes.CanLoadMore()) ==> requests == None && unchanged(episodes)
    {
      if episodes.CanLoadMore() {
        requests := LoadNextEpisodes();
      } else {
        requests := None;
      }
    }
  }

  /**
   * The detail page requests the very resource an episode link names: for a
   * link `<api>/episode/<digits>` written without leading zeros, the request
   * for the extracted ID goes to that link.
   */
  lemma {:induction false} EpisodeLinkRoundTrip(api: RickMortyApiService, digits: string)
    requires Canonical(digits)
    ensures api.GetEpisodeById(ExtractId(api.apiUrl + "/episode/" + digits)) == HttpRequest(api.apiUrl + "/episode/" + digits, map[])
  {
    assert api.apiUrl + "/episode/" + digits == (api.apiUrl + "/episode") + "/" + digits;
    ExtractIdOfLink(api.apiUrl + "/episode", digits);
    CanonicalRoundTrip(digits);
  }
}
