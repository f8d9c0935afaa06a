/** The episode filter panel: one field, the episode code, emitted trimmed when not blank. */
module EpisodeFilters {
  import opened Wrappers
  import opened Text
  import opened Filters

  /** An episode filter set; `None` is a property that is not present on the object. */
  datatype EpisodeFilterValues = EpisodeFilterValues(episode: Option<string>)

  /** The empty object `{}`. */
  const NoEpisodeFilters := EpisodeFilterValues(None)

  /** The form after creation or after clearing. */
  const BlankEpisodeForm := EpisodeFilterValues(Some(""))

  /** The object `onFilterChange` emits for the form values `f`. */
  function NormalizedEpisode(f: EpisodeFilterValues): (r: EpisodeFilterValues)
    ensures IsTrimmedField(r.episode)
  {
    TrimmedSpec(f.episode);
    EpisodeFilterValues(Trimmed(f.episode))
  }

  /** `hasActiveFilters` of the form values `f`. */
  predicate EpisodeActive(f: EpisodeFilterValues) {
    f.episode.Some? && Trim(f.episode.value) != ""
  }

  /** The code is emitted trimmed when it holds something besides white space; otherwise `{}` is emitted. */
  lemma {:induction false} NormalizedEpisodeSpec(f: EpisodeFilterValues)
    ensures var r := NormalizedEpisode(f);
      && IsTrimmedField(r.episode)
      && (r == NoEpisodeFilters <==> f.episode.None? || forall i :: 0 <= i < |f.episode.value| ==> IsWhitespace(f.episode.value[i]))
      && (r.episode.Some? ==> r.episode.value == Trim(f.episode.value))
  {
    TrimmedSpec(f.episode);
  }

  /** Normalising an already normalised set changes nothing. */
  lemma {:induction false} NormalizedEpisodeIdempotent(f: EpisodeFilterValues)
    ensures NormalizedEpisode(NormalizedEpisode(f)) == NormalizedEpisode(f)
  {
    TrimmedSpec(f.episode);
  }

  /** The panel reports an active filter exactly when it would emit a non-empty object. */
  lemma {:induction false} EpisodeActiveIffNonEmpty(f: EpisodeFilterValues)
    ensures EpisodeActive(f) <==> NormalizedEpisode(f) != NoEpisodeFilters
  {
  }

  class EpisodeFiltersComponent {
    var filters: EpisodeFilterValues
    var isExpanded: bool

    constructor ()
      ensures filters == BlankEpisodeForm && !isExpanded
    {
      filters := BlankEpisodeForm;
      isExpanded := false;
    }

    method OnFilterChange() returns (emitted: EpisodeFilterValues)
      ensures emitted == NormalizedEpisode(filters)
    {
      emitted := NoEpisodeFilters;
      if filters.episode.Some? && Trim(filters.episode.value) != "" {
        emitted := emitted.(episode := Some(Trim(filters.episode.value)));
      }
    }

    method ClearFilters() returns (emitted: EpisodeFilterValues)
      modifies this
      ensures filters == BlankEpisodeForm && emitted == NoEpisodeFilters && !HasActiveFilters()
      ensures isExpanded == old(isExpanded)
    {
      filters := BlankEpisodeForm;
      emitted := NoEpisodeFilters;
    }

    method ToggleExpanded()
      modifies this
      ensures isExpanded == !old(isExpanded) && filters == old(filters)
    {
      isExpanded := !isExpanded;
    }

    predicate HasActiveFilters(): (b: bool)
      reads this
      ensures b <==> NormalizedEpisode(filters) != NoEpisodeFilters
    {
      EpisodeActive(filters)
    }
  }
}
