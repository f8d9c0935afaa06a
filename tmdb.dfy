/**
 * The episode-rating client: a per-season cache in front of the season
 * endpoint, the lookup of one episode in a season, the parser of `SxxEyy`
 * codes, and the colour and label of a rating.
 */
module Tmdb {
  import opened Wrappers
  import opened Text
  import opened Models
  import opened EpisodeCard

  /** The series ID of the show on the rating service. */
  const SeriesId: nat := 60625

  /** The immediate outcome of a lookup: a value at hand, or a request that will deliver it. */
  datatype Pending<T> = Ready(value: T) | Requested(url: string)

  class TmdbService {
    const baseUrl: string
    var seasonCache: map<int, TmdbSeason>
    var loading: bool

    constructor (baseUrl: string)
      ensures this.baseUrl == baseUrl && seasonCache == map[] && !loading
    {
      this.baseUrl := baseUrl;
      seasonCache := map[];
      loading := false;
    }

    /** The season endpoint `<base>/tv/60625/season/<n>`. */
    function SeasonUrl(seasonNumber: int): string {
      baseUrl + "/tv/" + IntToString(SeriesId) + "/season/" + IntToString(seasonNumber)
    }

    /**
     * A cached season is returned at once and nothing changes; otherwise the
     * loading flag is set and the season is requested, the cache still unchanged.
     */
    method GetSeasonDetails(seasonNumber: int) returns (r: Pending<Option<TmdbSeason>>)
      modifies this
      ensures seasonCache == old(seasonCache)
      ensures seasonNumber in seasonCache ==> r == Ready(Some(seasonCache[seasonNumber])) && loading == old(loading)
      ensures seasonNumber !in seasonCache ==> r == Requested(SeasonUrl(seasonNumber)) && loading
    {
      if seasonNumber in seasonCache {
        return Ready(Some(seasonCache[seasonNumber]));
      }
      loading := true;
      r := Requested(SeasonUrl(seasonNumber));
    }

    /** The season request succeeded: its result is cached under the requested number and delivered. */
    method SeasonFetched(seasonNumber: int, data: TmdbSeason) returns (r: Option<TmdbSeason>)
      modifies this
      ensures seasonCache == old(seasonCache)[seasonNumber := data] && !loading && r == Some(data)
    {
      seasonCache := seasonCache[seasonNumber := data];
      loading := false;
      r := Some(data);
    }

    /** The season request failed: `null` is delivered and the cache is left as it was. */
    method SeasonFetchFailed() returns (r: Option<TmdbSeason>)
      modifies this
      ensures seasonCache == old(seasonCache) && !loading && r == None
    {
      loading := false;
      r := None;
    }

    /** `getEpisodeDetails`: the season lookup, with the episode picked out of a season at hand. */
    method GetEpisodeDetails(seasonNumber: int, episodeNumber: int) returns (r: Pending<Option<TmdbEpisode>>)
      modifies this
      ensures seasonCache == old(seasonCache)
      ensures seasonNumber in seasonCache ==>
        r == Ready(EpisodeFromSeason(Some(seasonCache[seasonNumber]), episodeNumber)) && loading == old(loading)
      ensures seasonNumber !in seasonCache ==> r == Requested(SeasonUrl(seasonNumber)) && loading
    {
      var season := GetSeasonDetails(seasonNumber);
      match season
      case Ready(s) => r := Ready(EpisodeFromSeason(s, episodeNumber));
      case Requested(url) => r := Requested(url);
    }

    method ClearCache()
      modifies this
      ensures seasonCache == map[] && loading == old(loading)
    {
      seasonCache := map[];
    }
  }

  /** `episodes.find(ep => ep.episode_number === n)`: the first episode with that number. */
  function FindEpisode(episodes: seq<TmdbEpisode>, episodeNumber: int): (r: Option<TmdbEpisode>)
    ensures r.Some? <==> exists i :: 0 <= i < |episodes| && episodes[i].episodeNumber == episodeNumber
    ensures r.Some? ==> exists i :: (
      && 0 <= i < |episodes| && episodes[i] == r.value
      && episodes[i].episodeNumber == episodeNumber
      && forall j :: 0 <= j < i ==> episodes[j].episodeNumber != episodeNumber)
  {
    if episodes == [] then None
    else if episodes[0].episodeNumber == episodeNumber then Some(episodes[0])
    else
      var r := FindEpisode(episodes[1..], episodeNumber);
      assert forall i :: 1 <= i < |episodes| ==> episodes[i] == episodes[1..][i - 1];
      r
  }

  /** The mapping step of `getEpisodeDetails`: no season gives `null`, as does a season without that episode. */
  function EpisodeFromSeason(season: Option<TmdbSeason>, episodeNumber: int): (r: Option<TmdbEpisode>)
    ensures season.None? ==> r.None?
    ensures r.Some? ==> r.value in season.value.episodes && r.value.episodeNumber == episodeNumber
    ensures season.Some? && r.None? ==> forall e :: e in season.value.episodes ==> e.episodeNumber != episodeNumber
    ensures season.Some? ==> r == FindEpisode(season.value.episodes, episodeNumber)
  {
    match season
    case None => None
    case Some(s) => FindEpisode(s.episodes, episodeNumber)
  }

  /**
   * A cached season answers later lookups without a request, and after
   * `clearCache` the same lookup requests the season again.
   */
  method CacheScenario(baseUrl: string, data: TmdbSeason) returns (first: Pending<Option<TmdbSeason>>, second: Pending<Option<TmdbSeason>>, third: Pending<Option<TmdbSeason>>)
    ensures first == Requested(baseUrl + "/tv/60625/season/2")
    ensures second == Ready(Some(data))
    ensures third == first
  {
    var t := new TmdbService(baseUrl);
    first := t.GetSeasonDetails(2);
    var delivered := t.SeasonFetched(2, data);
    second := t.GetSeasonDetails(2);
    t.ClearCache();
    third := t.GetSeasonDetails(2);
    assert IntToString(60625) == "60625" by {
      assert NatToString(6062) == "6062" by {
        assert NatToString(606) == "606";
      }
    }
  }

  /** The numbers of an episode code. */
  datatype EpisodeCode = EpisodeCode(season: nat, episode: nat)

  predicate IsSeasonLetter(c: char) {
    c == 'S' || c == 's'
  }

  predicate IsEpisodeLetter(c: char) {
    c == 'E' || c == 'e'
  }

  /**
   * `/S(\d+)E(\d+)/i` matches at position `i`: a season letter, a non-empty
   * digit run, an episode letter and a non-empty digit run. Both digit runs
   * are taken whole, as the greedy pattern does (a shorter first run would be
   * followed by a digit, not a letter).
   */
  predicate CodeAt(code: string, i: nat) {
    && i < |code| && IsSeasonLetter(code[i])
    && var n1 := DigitRun(code, i + 1);
       && n1 > 0 && i + 1 + n1 < |code| && IsEpisodeLetter(code[i + 1 + n1])
       && DigitRun(code, i + 2 + n1) > 0
  }

  /** The numbers read from a match at position `i`. */
  function CodeNumbers(code: string, i: nat): EpisodeCode
    requires CodeAt(code, i)
  {
    var n1 := DigitRun(code, i + 1);
    var j := i + 1 + n1;
    var n2 := DigitRun(code, j + 1);
    EpisodeCode(DecimalValue(code[i + 1..j]), DecimalValue(code[j + 1..j + 1 + n2]))
  }

  /** The leftmost match at or after `from`. */
  function FindCode(code: string, from: nat): (r: Option<nat>)
    requires from <= |code|
    ensures r.Some? ==> from <= r.value && CodeAt(code, r.value)
    ensures r.Some? ==> forall j :: from <= j < r.value ==> !CodeAt(code, j)
    ensures r.None? ==> forall j :: from <= j < |code| ==> !CodeAt(code, j)
    decreases |code| - from
  {
    if from == |code| then None
    else if CodeAt(code, from) then Some(from)
    else FindCode(code, from + 1)
  }

  /**
   * `parseEpisodeCode`: the numbers of the leftmost match in any letter case,
   * or `null` when the code holds no match at all.
   */
  function ParseEpisodeCode(code: string): (r: Option<EpisodeCode>)
    ensures r.None? <==> forall i :: 0 <= i < |code| ==> !CodeAt(code, i)
    ensures r.Some? ==> exists i :: (
      && 0 <= i < |code| && CodeAt(code, i) && r.value == CodeNumbers(code, i)
      && forall j :: 0 <= j < i ==> !CodeAt(code, j))
  {
    match FindCode(code, 0)
    case None => None
    case Some(i) => Some(CodeNumbers(code, i))
  }

  /** A code made of a season letter, digits, an episode letter and digits parses to the values of the digits. */
  lemma {:induction false} ParseStandardCode(s: char, d1: string, e: char, d2: string)
    requires IsSeasonLetter(s) && IsEpisodeLetter(e)
    requires |d1| > 0 && AllDigits(d1) && |d2| > 0 && AllDigits(d2)
    ensures ParseEpisodeCode([s] + d1 + [e] + d2) == Some(EpisodeCode(DecimalValue(d1), DecimalValue(d2)))
  {
    var code := [s] + d1 + [e] + d2;
    var j := 1 + |d1|;
    assert code[0] == s && code[j] == e;
    assert code[1..j] == d1;
    assert code[j + 1..] == d2;
    DigitRunExact(code, 1, |d1|);
    DigitRunExact(code, j + 1, |d2|);
    assert CodeAt(code, 0);
    assert FindCode(code, 0) == Some(0);
    assert code[j + 1..j + 1 + |d2|] == d2;
    assert CodeNumbers(code, 0) == EpisodeCode(DecimalValue(d1), DecimalValue(d2));
  }

  /** For upper-case codes the card's helpers and the parser read the same numbers. */
  lemma {:induction false} CardAgreesWithParser(d1: string, d2: string)
    requires |d1| > 0 && AllDigits(d1) && |d2| > 0 && AllDigits(d2)
    ensures var code := "S" + d1 + "E" + d2;
      ParseEpisodeCode(code) == Some(EpisodeCode(GetSeasonNumber(code), GetEpisodeNumber(code)))
  {
    ParseStandardCode('S', d1, 'E', d2);
    StandardCode(d1, d2);
    assert ['S'] + d1 + ['E'] + d2 == "S" + d1 + "E" + d2;
  }

  /** For a lower-case code they differ: the parser reads episode 2 where the card falls back to 1. */
  lemma LowerCaseCodeDisagrees()
    ensures ParseEpisodeCode("s01e02") == Some(EpisodeCode(1, 2))
    ensures GetEpisodeNumber("s01e02") == 1
  {
    LowerCaseCodeParsed();
    LowerCaseCode();
  }

  /** The parser reads season 1 and episode 2 from 's01e02'. */
  lemma LowerCaseCodeParsed()
    ensures ParseEpisodeCode("s01e02") == Some(EpisodeCode(1, 2))
  {
    ParseStandardCode('s', "01", 'e', "02");
    assert DecimalValue("01") == 1 && DecimalValue("02") == 2;
    assert ['s'] + "01" + ['e'] + "02" == "s01e02";
  }

  /** The rating labels from the lowest band to the highest. */
  const RatingLabels: seq<string> := ["Poor", "Average", "Good", "Great", "Excellent", "Masterpiece"]

  /** The lower bound of every band above the lowest. */
  const RatingThresholds: seq<real> := [5.0, 6.0, 7.0, 8.0, 9.0]

  /** `getRatingLabel`: the label of the band the rating falls into. */
  function GetRatingLabel(rating: real): (r: string)
    ensures r in RatingLabels
    ensures forall k :: 0 <= k < |RatingLabels| ==>
      (r == RatingLabels[k] <==> (k == 0 || RatingThresholds[k - 1] <= rating) && (k == |RatingThresholds| || rating < RatingThresholds[k]))
  {
    if rating >= 9.0 then "Masterpiece"
    else if rating >= 8.0 then "Excellent"
    else if rating >= 7.0 then "Great"
    else if rating >= 6.0 then "Good"
    else if rating >= 5.0 then "Average"
    else "Poor"
  }

  /** The position of a label in the order of the bands. */
  function LabelRank(name: string): nat {
    if name == "Masterpiece" then 5
    else if name == "Excellent" then 4
    else if name == "Great" then 3
    else if name == "Good" then 2
    else if name == "Average" then 1
    else 0
  }

  /** A higher rating never gets a lower label. */
  lemma {:induction false} RatingLabelMonotonic(a: real, b: real)
    requires a <= b
    ensures LabelRank(GetRatingLabel(a)) <= LabelRank(GetRatingLabel(b))
  {
  }

  /** `getRatingColor`: green from 8, yellow from 6, red below. */
  function GetRatingColor(rating: real): (r: string)
    ensures r == "#97ce4c" <==> rating >= 8.0
    ensures r == "#f0e14a" <==> 6.0 <= rating < 8.0
    ensures r == "#ef4444" <==> rating < 6.0
  {
    if rating >= 8.0 then "#97ce4c"
    else if rating >= 6.0 then "#f0e14a"
    else "#ef4444"
  }

  /** The colour follows the label: green for the top two bands, yellow for the two below, red otherwise. */
  lemma {:induction false} ColorFollowsLabel(rating: real)
    ensures GetRatingColor(rating) == "#97ce4c" <==> LabelRank(GetRatingLabel(rating)) >= 4
    ensures GetRatingColor(rating) == "#f0e14a" <==> 2 <= LabelRank(GetRatingLabel(rating)) < 4
  {
  }
}
