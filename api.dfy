/**
 * The catalogue API client: query-parameter building, the `page: 1`
 * default of the list endpoints, the URLs of the single-record endpoints,
 * and the shared search-term holder.
 */
module RickMortyApi {
  import opened Wrappers
  import opened Text
  import opened Js

  /** A GET request the client would send: the URL and its query parameters. */
  datatype HttpRequest = HttpRequest(url: string, params: map<string, string>)

  /** A filter value survives parameter building unless it is `undefined`, `null` or `''`. */
  predicate Kept(v: Value) {
    !(v.Undefined? || v.Null? || v == Str(""))
  }

  /** The `toString()` form a kept value is sent as. */
  function Show(v: Value): string
    requires Kept(v)
  {
    match v
    case Str(s) => s
    case Num(n) => IntToString(n)
  }

  /** The parameters obtained by setting every kept entry, left to right. */
  function KeptParams(entries: Object): map<string, string> {
    if entries == [] then map[]
    else
      var p := KeptParams(entries[..|entries| - 1]);
      var (k, v) := entries[|entries| - 1];
      if Kept(v) then p[k := Show(v)] else p
  }

  /**
   * For an object with distinct keys, a key is among the parameters exactly
   * when the object holds it with a kept value, and then it carries that value's
   * string form.
   */
  lemma {:induction false} KeptParamsSpec(entries: Object, k: string)
    requires UniqueKeys(entries)
    ensures k in KeptParams(entries) <==> Lookup(entries, k).Some? && Kept(Lookup(entries, k).value)
    ensures k in KeptParams(entries) ==> KeptParams(entries)[k] == Show(Lookup(entries, k).value)
  {
    if entries != [] {
      var front := entries[..|entries| - 1];
      assert UniqueKeys(front);
      KeptParamsSpec(front, k);
      if entries[|entries| - 1].0 == k {
        assert Lookup(front, k).None?;
      }
    }
  }

  /** The list endpoints' argument `{ page: 1, ...filters }`. */
  function WithDefaultPage(filters: Object): Object {
    Spread([("page", Num(1))], filters)
  }

  /** Reading a key of `{ page: 1, ...filters }`: the caller's value wins, page falls back to 1. */
  lemma {:induction false} WithDefaultPageLookup(filters: Object, k: string)
    ensures Lookup(WithDefaultPage(filters), k)
         == if Lookup(filters, k).Some? then Lookup(filters, k)
            else if k == "page" then Some(Num(1)) else None
  {
    LookupSpread([("page", Num(1))], filters, k);
  }

  /** The parameters of a list request built from `{ page: 1, ...filters }`. */
  function ListParams(filters: Object): map<string, string> {
    KeptParams(WithDefaultPage(filters))
  }

  /**
   * A list request uses page 1 when the caller gives no `page` key, the
   * caller's page otherwise, and no page at all for an explicit `page: undefined`;
   * every other key is sent exactly when the caller gives it a kept value.
   */
  lemma {:induction false} ListParamsSpec(filters: Object, k: string)
    requires UniqueKeys(filters)
    ensures k == "page" && Lookup(filters, k).None? ==> k in ListParams(filters) && ListParams(filters)[k] == "1"
    ensures Lookup(filters, k).Some? ==>
      (k in ListParams(filters) <==> Kept(Lookup(filters, k).value))
    ensures Lookup(filters, k).Some? && Kept(Lookup(filters, k).value) ==>
      ListParams(filters)[k] == Show(Lookup(filters, k).value)
    ensures k != "page" && Lookup(filters, k).None? ==> k !in ListParams(filters)
  {
    SpreadKeepsUniqueKeys([("page", Num(1))], filters);
    WithDefaultPageLookup(filters, k);
    KeptParamsSpec(WithDefaultPage(filters), k);
  }

  /** In a list request for an object with distinct keys, an entry's key is sent exactly when its value is kept, as that value's string form. */
  lemma {:induction false} EntryParam(q: Object, i: int)
    requires UniqueKeys(q) && 0 <= i < |q|
    ensures q[i].0 in ListParams(q) <==> Kept(q[i].1)
    ensures q[i].0 in ListParams(q) ==> ListParams(q)[q[i].0] == Show(q[i].1)
  {
    LookupEntry(q, i);
    ListParamsSpec(q, q[i].0);
  }

  /**
   * What `x || undefined` followed by parameter building does to an optional
   * string: the key is sent exactly when the value is a non-empty string, as that string.
   */
  predicate SentIfNonEmpty(params: map<string, string>, key: string, value: Option<string>) {
    && (key in params <==> value.Some? && value.value != "")
    && (key in params ==> params[key] == value.value)
  }

  /** An entry `page: n` of an object with distinct keys sends the page as `n`'s string form. */
  lemma {:induction false} PageEntry(q: Object, i: int, page: int)
    requires UniqueKeys(q) && 0 <= i < |q| && q[i] == ("page", Num(page))
    ensures "page" in ListParams(q) && ListParams(q)["page"] == IntToString(page)
  {
    EntryParam(q, i);
  }

  /** An entry `key: value || undefined` of an object with distinct keys is sent exactly when `value` is a non-empty string. */
  lemma {:induction false} OptionalEntry(q: Object, i: int, key: string, value: Option<string>)
    requires UniqueKeys(q) && 0 <= i < |q| && q[i] == (key, OptionOrUndefined(value))
    ensures SentIfNonEmpty(ListParams(q), key, value)
  {
    EntryParam(q, i);
  }

  /** A list request sends only `page` and keys of the object. */
  lemma {:induction false} ParamKeysWithin(q: Object, keys: set<string>)
    requires UniqueKeys(q) && "page" in keys
    requires forall i :: 0 <= i < |q| ==> q[i].0 in keys
    ensures ListParams(q).Keys <= keys
  {
    forall k | k in ListParams(q)
      ensures k in keys
    {
      ListParamsSpec(q, k);
    }
  }

  /** The text of an ID after a '/' is the last segment of the URL. */
  lemma {:induction false} IdSegment(prefix: string, id: NumericId)
    ensures LastSegment(prefix + "/" + NumericText(id)) == NumericText(id)
  {
    assert '/' !in NumericText(id) by {
      if id.Number? {
        assert AllDigits(NatToString(id.value));
      }
    }
    LastSegmentAfterSlash(prefix, NumericText(id));
  }

  class RickMortyApiService {
    /** The configured base URL of the catalogue API. */
    const apiUrl: string
    /** The current value of the shared search-term subject. */
    var searchTerm: string

    constructor (apiUrl: string)
      ensures this.apiUrl == apiUrl && GetSearchTerm() == ""
    {
      this.apiUrl := apiUrl;
      searchTerm := "";
    }

    method SetSearchTerm(term: string)
      modifies this
      ensures GetSearchTerm() == term
    {
      searchTerm := term;
    }

    function GetSearchTerm(): string
      reads this
    {
      searchTerm
    }

    /** Sets one parameter per entry whose value is kept, in key order. */
    method BuildParams(filters: Object) returns (params: map<string, string>)
      ensures params == KeptParams(filters)
    {
      params := map[];
      var i := 0;
      while i < |filters|
        invariant 0 <= i <= |filters|
        invariant params == KeptParams(filters[..i])
      {
        var (key, value) := filters[i];
        assert filters[..i + 1][..i] == filters[..i];
        if Kept(value) {
          params := params[key := Show(value)];
        }
        i := i + 1;
      }
      assert filters[..|filters|] == filters;
    }

    method GetCharacters(filters: Object) returns (request: HttpRequest)
      ensures request == HttpRequest(apiUrl + "/character", ListParams(filters))
    {
      var params := BuildParams(WithDefaultPage(filters));
      request := HttpRequest(apiUrl + "/character", params);
    }

    /** `getCharacterById`: a request without parameters whose URL ends in the ID's text. */
    function GetCharacterById(id: NumericId): (r: HttpRequest)
      ensures r.params == map[] && LastSegment(r.url) == NumericText(id)
      ensures apiUrl + "/character/" <= r.url
    {
      IdSegment(apiUrl + "/character", id);
      assert apiUrl + "/character/" + NumericText(id) == apiUrl + "/character" + "/" + NumericText(id);
      HttpRequest(apiUrl + "/character/" + NumericText(id), map[])
    }

    method GetLocations(filters: Object) returns (request: HttpRequest)
      ensures request == HttpRequest(apiUrl + "/location", ListParams(filters))
    {
      var params := BuildParams(WithDefaultPage(filters));
      request := HttpRequest(apiUrl + "/location", params);
    }

    /** `getLocationById`: a request without parameters whose URL ends in the ID's text. */
    function GetLocationById(id: NumericId): (r: HttpRequest)
      ensures r.params == map[] && LastSegment(r.url) == NumericText(id)
      ensures apiUrl + "/location/" <= r.url
    {
      IdSegment(apiUrl + "/location", id);
      assert apiUrl + "/location/" + NumericText(id) == apiUrl + "/location" + "/" + NumericText(id);
      HttpRequest(apiUrl + "/location/" + NumericText(id), map[])
    }

    method GetEpisodes(filters: Object) returns (request: HttpRequest)
      ensures request == HttpRequest(apiUrl + "/episode", ListParams(filters))
    {
      var params := BuildParams(WithDefaultPage(filters));
      request := HttpRequest(apiUrl + "/episode", params);
    }

    /** `getEpisodeById`: a request without parameters whose URL ends in the ID's text. */
    function GetEpisodeById(id: NumericId): (r: HttpRequest)
      ensures r.params == map[] && LastSegment(r.url) == NumericText(id)
      ensures apiUrl + "/episode/" <= r.url
    {
      IdSegment(apiUrl + "/episode", id);
      assert apiUrl + "/episode/" + NumericText(id) == apiUrl + "/episode" + "/" + NumericText(id);
      HttpRequest(apiUrl + "/episode/" + NumericText(id), map[])
    }
  }
}
