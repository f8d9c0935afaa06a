/**
 * The location filter panel: a form holding type and dimension, which emits
 * the trimmed, non-blank ones.
 */
module LocationFilters {
  import opened Wrappers
  import opened Text
  import opened Filters

  /** A location filter set; `None` is a property that is not present on the object. */
  datatype LocationFilterValues = LocationFilterValues(typeName: Option<string>, dimension: Option<string>)

  /** The empty object `{}`. */
  const NoLocationFilters := LocationFilterValues(None, None)

  /** The form after creation or after clearing. */
  const BlankLocationForm := LocationFilterValues(Some(""), Some(""))

  /** The object `onFilterChange` emits for the form values `f`. */
  function NormalizedLocation(f: LocationFilterValues): (r: LocationFilterValues)
    ensures IsTrimmedField(r.typeName) && IsTrimmedField(r.dimension)
  {
    TrimmedSpec(f.typeName);
    TrimmedSpec(f.dimension);
    LocationFilterValues(Trimmed(f.typeName), Trimmed(f.dimension))
  }

  /** `hasActiveFilters` of the form values `f`. */
  predicate LocationActive(f: LocationFilterValues) {
    (f.typeName.Some? && Trim(f.typeName.value) != "") || (f.dimension.Some? && Trim(f.dimension.value) != "")
  }

  /** Type and dimension are emitted trimmed, and only when they hold something besides white space. */
  lemma {:induction false} NormalizedLocationSpec(f: LocationFilterValues)
    ensures var r := NormalizedLocation(f);
      && IsTrimmedField(r.typeName) && IsTrimmedField(r.dimension)
      && (r.typeName.Some? <==> f.typeName.Some? && exists i :: 0 <= i < |f.typeName.value| && !IsWhitespace(f.typeName.value[i]))
      && (r.dimension.Some? <==> f.dimension.Some? && exists i :: 0 <= i < |f.dimension.value| && !IsWhitespace(f.dimension.value[i]))
      && (r.typeName.Some? ==> r.typeName.value == Trim(f.typeName.value))
      && (r.dimension.Some? ==> r.dimension.value == Trim(f.dimension.value))
  {
    TrimmedSpec(f.typeName);
    TrimmedSpec(f.dimension);
  }

  /** Normalising an already normalised set changes nothing. */
  lemma {:induction false} NormalizedLocationIdempotent(f: LocationFilterValues)
    ensures NormalizedLocation(NormalizedLocation(f)) == NormalizedLocation(f)
  {
    TrimmedSpec(f.typeName);
    TrimmedSpec(f.dimension);
  }

  /** The panel reports active filters exactly when it would emit a non-empty object. */
  lemma {:induction false} LocationActiveIffNonEmpty(f: LocationFilterValues)
    ensures LocationActive(f) <==> NormalizedLocation(f) != NoLocationFilters
  {
  }

  class LocationFiltersComponent {
    var filters: LocationFilterValues
    var isExpanded: bool

    constructor ()
      ensures filters == BlankLocationForm && !isExpanded
    {
      filters := BlankLocationForm;
      isExpanded := false;
    }

    method OnFilterChange() returns (emitted: LocationFilterValues)
      ensures emitted == NormalizedLocation(filters)
    {
      emitted := NoLocationFilters;
      if filters.typeName.Some? && Trim(filters.typeName.value) != "" {
        emitted := emitted.(typeName := Some(Trim(filters.typeName.value)));
      }
      if filters.dimension.Some? && Trim(filters.dimension.value) != "" {
        emitted := emitted.(dimension := Some(Trim(filters.dimension.value)));
      }
    }

    method ClearFilters() returns (emitted: LocationFilterValues)
      modifies this
      ensures filters == BlankLocationForm && emitted == NoLocationFilters && !HasActiveFilters()
      ensures isExpanded == old(isExpanded)
    {
      filters := BlankLocationForm;
      emitted := NoLocationFilters;
    }

    method ToggleExpanded()
      modifies this
      ensures isExpanded == !old(isExpanded) && filters == old(filters)
    {
      isExpanded := !isExpanded;
    }

    predicate HasActiveFilters(): (b: bool)
      reads this
      ensures b <==> NormalizedLocation(filters) != NoLocationFilters
    {
      LocationActive(filters)
    }
  }
}
