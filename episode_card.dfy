/**
 * The episode-code helpers of the episode card (the episode detail page has
 * identical copies): the season and episode numbers read from a code such as
 * `S02E07` with the case-sensitive patterns `S(\d+)` and `E(\d+)`, and a
 * season colour that cycles through six colours.
 */
module EpisodeCard {
  import opened Wrappers
  import opened Text
  import opened Js

  /** `tag` at position `i` of `code`, followed by a decimal digit. */
  predicate TagAt(code: string, tag: char, i: int) {
    0 <= i && i + 1 < |code| && code[i] == tag && IsDigit(code[i + 1])
  }

  /** The leftmost position at or after `from` where `tag` is followed by a digit. */
  function FindTag(code: string, tag: char, from: nat): (r: Option<nat>)
    requires from <= |code|
    ensures r.Some? ==> from <= r.value && TagAt(code, tag, r.value)
    ensures r.Some? ==> forall j :: from <= j < r.value ==> !TagAt(code, tag, j)
    ensures r.None? ==> forall j :: from <= j < |code| ==> !TagAt(code, tag, j)
    decreases |code| - from
  {
    if from == |code| then None
    else if TagAt(code, tag, from) then Some(from)
    else FindTag(code, tag, from + 1)
  }

  /**
   * `match(/<tag>(\d+)/)` followed by `parseInt` of the group, or 1 without a
   * match: the greedy digit run after the leftmost match.
   */
  function NumberAfterTag(code: string, tag: char): (r: nat)
    ensures FindTag(code, tag, 0).None? ==> r == 1
    ensures (forall j :: 0 <= j < |code| ==> !TagAt(code, tag, j)) ==> r == 1
  {
    match FindTag(code, tag, 0)
    case None => 1
    case Some(i) =>
      var n := DigitRun(code, i + 1);
      DecimalValue(code[i + 1..i + 1 + n])
  }

  /** `getSeasonNumber`: 1 unless some 'S' is followed by a digit. */
  function GetSeasonNumber(code: string): (r: nat)
    ensures (forall j :: 0 <= j < |code| ==> !TagAt(code, 'S', j)) ==> r == 1
  {
    NumberAfterTag(code, 'S')
  }

  /** `getEpisodeNumber`: 1 unless some 'E' is followed by a digit. */
  function GetEpisodeNumber(code: string): (r: nat)
    ensures (forall j :: 0 <= j < |code| ==> !TagAt(code, 'E', j)) ==> r == 1
  {
    NumberAfterTag(code, 'E')
  }

  /**
   * When `code` has `tag` at `p`, followed by the digits `digits` and then
   * either the end or a non-digit, and no earlier `tag` is followed by a digit,
   * the number read is the value of `digits`.
   */
  lemma {:induction false} NumberAfterTagAt(code: string, tag: char, p: nat, digits: string)
    requires |digits| > 0 && AllDigits(digits)
    requires p + 1 + |digits| <= |code| && code[p] == tag && code[p + 1..p + 1 + |digits|] == digits
    requires p + 1 + |digits| < |code| ==> !IsDigit(code[p + 1 + |digits|])
    requires forall j :: 0 <= j < p ==> !TagAt(code, tag, j)
    ensures NumberAfterTag(code, tag) == DecimalValue(digits)
  {
    assert IsDigit(code[p + 1]) by {
      assert code[p + 1] == digits[0];
    }
    assert TagAt(code, tag, p);
  }

  /**
   * For a code `S<d1>E<d2>` written with digit runs, the season number is the
   * value of `d1` and the episode number the value of `d2`.
   */
  lemma {:induction false} StandardCode(d1: string, d2: string)
    requires |d1| > 0 && AllDigits(d1) && |d2| > 0 && AllDigits(d2)
    ensures GetSeasonNumber("S" + d1 + "E" + d2) == DecimalValue(d1)
    ensures GetEpisodeNumber("S" + d1 + "E" + d2) == DecimalValue(d2)
  {
    var code := "S" + d1 + "E" + d2;
    assert code[1..1 + |d1|] == d1;
    assert code[1 + |d1|] == 'E';
    NumberAfterTagAt(code, 'S', 0, d1);
    var p := 1 + |d1|;
    assert code[p + 1..p + 1 + |d2|] == d2;
    forall j | 0 <= j < p
      ensures !TagAt(code, 'E', j)
    {
      if j > 0 {
        assert code[j] == d1[j - 1];
      }
    }
    NumberAfterTagAt(code, 'E', p, d2);
  }

  /** The code `S02E07` is season 2, episode 7. */
  lemma S02E07()
    ensures GetSeasonNumber("S02E07") == 2 && GetEpisodeNumber("S02E07") == 7
  {
    StandardCode("02", "07");
    assert "S" + "02" + "E" + "07" == "S02E07";
  }

  /** The patterns are case-sensitive: a lower-case code falls back to season 1, episode 1. */
  lemma LowerCaseCode()
    ensures GetSeasonNumber("s01e02") == 1 && GetEpisodeNumber("s01e02") == 1
  {
  }

  /** The season colours, in cycle order. */
  const SeasonColors: seq<string> := ["#97ce4c", "#11b0c8", "#f0e14a", "#5a1e76", "#ef4444", "#8b5cf6"]

  /**
   * `colors[(season - 1) % 6]` with JavaScript's remainder: `None` (undefined)
   * when the remainder is negative, which happens for seasons below 1 except
   * those where `season - 1` is a multiple of 6.
   */
  function GetSeasonColor(season: int): (r: Option<string>)
    ensures season >= 1 ==> r == Some(SeasonColors[(season - 1) % 6])
    ensures r.Some? ==> r.value in SeasonColors
    ensures season <= 0 ==> (r.Some? <==> (1 - season) % 6 == 0)
    ensures season <= 0 && r.Some? ==> r.value == SeasonColors[0]
  {
    var k := Remainder(season - 1, |SeasonColors|);
    if 0 <= k then Some(SeasonColors[k]) else None
  }

  /** Seasons `s` and `s + 6` share a colour. */
  lemma {:induction false} SeasonColorPeriod(season: int)
    requires season >= 1
    ensures GetSeasonColor(season + 6) == GetSeasonColor(season)
  {
    assert (season + 6 - 1) % 6 == (season - 1) % 6;
  }

  /** The first six seasons get six different colours. */
  lemma {:induction false} SeasonColorsDistinct(a: int, b: int)
    requires 1 <= a <= 6 && 1 <= b <= 6 && a != b
    ensures GetSeasonColor(a) != GetSeasonColor(b)
  {
  }
}
