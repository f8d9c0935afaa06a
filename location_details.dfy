/**
 * The location detail page: it loads one location by the ID in the route,
 * then its residents, six at a time, and classifies its type.
 */
module LocationDetails {
  import opened Wrappers
  import opened Text
  import opened Js
  import opened Models
  import opened RickMortyApi
  import opened SliceLoading
  import opened LocationCard

  const InvalidIdError := "ID de localização inválido."
  const LoadError := "Falha ao carregar os detalhes da localização. Rick está em outra dimensão! Tente novamente mais tarde."

  class LocationDetailsComponent {
    const api: RickMortyApiService
    const residents: SliceLoader<Character>
    var location: Option<Location>
    var loading: bool
    var error: Option<string>

    constructor (api: RickMortyApiService)
      ensures this.api == api && fresh(residents) && residents.IsInitial()
      ensures location == None && loading && error == None
    {
      this.api := api;
      residents := new SliceLoader();
      location := None;
      loading := true;
      error := None;
    }

    /** The requests of a step: one `getCharacterById` per ID of the slice, in order. */
    function ResidentRequests(slice: Option<seq<NumericId>>): Option<seq<HttpRequest>> {
      match slice
      case None => None
      case Some(s) => Some(seq(|s|, i requires 0 <= i < |s| => api.GetCharacterById(s[i])))
    }

    /** `totalResidents`. */
    function TotalResidents(): nat
      reads residents
    {
      |residents.ids|
    }

    /** A route ID that is present and non-empty is converted with unary `+` and loaded; otherwise the page shows an error. */
    method OnInit(routeId: Option<string>) returns (request: Option<HttpRequest>)
      modifies this
      ensures routeId.Some? && routeId.value != "" ==>
        request == Some(api.GetLocationById(UnaryPlus(routeId.value))) && loading && error == None
      ensures !(routeId.Some? && routeId.value != "") ==>
        request == None && !loading && error == Some(InvalidIdError)
      ensures location == old(location)
    {
      if routeId.Some? && routeId.value != "" {
        var r := LoadLocationStart(UnaryPlus(routeId.value));
        request := Some(r);
      } else {
        error := Some(InvalidIdError);
        loading := false;
        request := None;
      }
    }

    /** `loadLocation(id)` up to the request it sends. */
    method LoadLocationStart(id: NumericId) returns (request: HttpRequest)
      modifies this
      ensures request == api.GetLocationById(id)
      ensures loading && error == None && location == old(location)
    {
      loading := true;
      error := None;
      request := api.GetLocationById(id);
    }

    /**
     * The location arrived: it is shown; when it has residents their IDs are
     * extracted and the first step begins; a location without residents
     * offers no more residents and requests nothing.
     */
    method LoadLocationSuccess(c: Location) returns (requests: Option<seq<HttpRequest>>)
      modifies this, residents
      ensures location == Some(c) && !loading && error == old(error)
      ensures |c.residents| > 0 ==>
        && residents.Started(ExtractIds(c.residents))
        && TotalResidents() == |c.residents|
        && requests == ResidentRequests(residents.NextSlice())
      ensures |c.residents| == 0 ==>
        && requests == None && !residents.hasMore
        && residents.ids == old(residents.ids) && residents.index == old(residents.index) && residents.items == old(residents.items)
        && residents.loadingFirst == old(residents.loadingFirst) && residents.loadingMore == old(residents.loadingMore)
    {
      location := Some(c);
      loading := false;
      if |c.residents| > 0 {
        residents.SetIds(ExtractIds(c.residents));
        requests := LoadNextResidents();
      } else {
        residents.MarkExhausted();
        requests := None;
      }
    }

    method LoadLocationFailure()
      modifies this
      ensures error == Some(LoadError) && !loading && location == old(location)
    {
      error := Some(LoadError);
      loading := false;
    }

    /** `loadNextResidents` up to the requests it sends. */
    method LoadNextResidents() returns (requests: Option<seq<HttpRequest>>)
      modifies residents
      ensures residents.Started(old(residents.ids))
      ensures requests == ResidentRequests(residents.NextSlice())
    {
      var slice := residents.Start();
      requests := ResidentRequests(slice);
    }

    /** Every request of the slice succeeded: the residents arrive in ID order. */
    method ResidentsSuccess(results: seq<Character>)
      modifies residents
      ensures residents.Joined(results)
      ensures old(residents.CountMatchesIndex()) && |results| == |Slice(old(residents.ids), old(residents.index))| ==>
        residents.CountMatchesIndex()
    {
      residents.Succeed(results);
    }

    /** Some request of the slice failed. */
    method ResidentsFailure()
      modifies residents
      ensures residents.Dropped()
    {
      residents.Fail();
    }

    /** Scrolling to the end of the resident list starts the next step, unless one is in flight or none is left. */
    method OnResidentsScrollEnd() returns (requests: Option<seq<HttpRequest>>)
      modifies residents
      ensures old(residents.CanLoadMore()) ==>
        residents.Started(old(residents.ids)) && requests == ResidentRequests(residents.NextSlice())
      ensures !old(residents.CanLoadMore()) ==> requests == None && unchanged(residents)
    {
      if residents.CanLoadMore() {
        requests := LoadNextResidents();
      } else {
        requests := None;
      }
    }
  }

  /**
   * The detail page requests the very resource a resident link names: for a
   * link `<api>/character/<digits>` written without leading zeros, the request
   * for the extracted ID goes to that link.
   */
  lemma {:induction false} ResidentLinkRoundTrip(api: RickMortyApiService, digits: string)
    requires Canonical(digits)
    ensures api.GetCharacterById(ExtractId(api.apiUrl + "/character/" + digits)) == HttpRequest(api.apiUrl + "/character/" + digits, map[])
  {
    assert api.apiUrl + "/character/" + digits == (api.apiUrl + "/character") + "/" + digits;
    ExtractIdOfLink(api.apiUrl + "/character", digits);
    CanonicalRoundTrip(digits);
  }
}
