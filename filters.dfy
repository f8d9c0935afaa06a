/**
 * The character filter panel: a form holding status, gender, species and
 * type, which emits the normalised set of active filters.
 */
module Filters {
  import opened Wrappers
  import opened Text

  /** A filter set; `None` is a property that is not present on the object. */
  datatype FilterValues = FilterValues(
    status: Option<string>,
    gender: Option<string>,
    species: Option<string>,
    typeName: Option<string>)

  /** The empty object `{}`. */
  const NoFilters := FilterValues(None, None, None, None)

  /** The form after creation or after clearing: every field is `''`. */
  const BlankForm := FilterValues(Some(""), Some(""), Some(""), Some(""))

  /** `if (x) out.k = x`: a field is copied unchanged when it is a non-empty string. */
  function Truthy(o: Option<string>): Option<string> {
    if o.Some? && o.value != "" then o else None
  }

  /** `if (x?.trim()) out.k = x.trim()`: a field is copied trimmed when it is not blank. */
  function Trimmed(o: Option<string>): Option<string> {
    if o.Some? && Trim(o.value) != "" then Some(Trim(o.value)) else None
  }

  /** A field that is present after `Trimmed` is non-empty and has no white space at either end. */
  predicate IsTrimmedField(o: Option<string>) {
    o.Some? ==> o.value != "" && Trim(o.value) == o.value
  }

  /**
   * `Trimmed` keeps a field exactly when it holds something besides white space,
   * keeps it as its trim, and leaves a trimmed field as it is.
   */
  lemma {:induction false} TrimmedSpec(o: Option<string>)
    ensures Trimmed(o).Some? <==> o.Some? && exists i :: 0 <= i < |o.value| && !IsWhitespace(o.value[i])
    ensures Trimmed(o).Some? ==> Trimmed(o).value == Trim(o.value)
    ensures IsTrimmedField(Trimmed(o))
    ensures Trimmed(Trimmed(o)) == Trimmed(o)
  {
    if o.Some? {
      TrimEmptyIffBlank(o.value);
      TrimIdempotent(o.value);
    }
  }

  /** The object `onFilterChange` emits for the form values `f`. */
  function Normalized(f: FilterValues): (r: FilterValues)
    ensures r.status.Some? ==> r.status.value != ""
    ensures r.gender.Some? ==> r.gender.value != ""
    ensures IsTrimmedField(r.species) && IsTrimmedField(r.typeName)
  {
    TrimmedSpec(f.species);
    TrimmedSpec(f.typeName);
    FilterValues(Truthy(f.status), Truthy(f.gender), Trimmed(f.species), Trimmed(f.typeName))
  }

  /** `hasActiveFilters` of the form values `f`. */
  predicate Active(f: FilterValues) {
    || (f.status.Some? && f.status.value != "")
    || (f.gender.Some? && f.gender.value != "")
    || (f.species.Some? && Trim(f.species.value) != "")
    || (f.typeName.Some? && Trim(f.typeName.value) != "")
  }

  /**
   * The emitted set carries status and gender unchanged and only when non-empty,
   * and species and type trimmed and only when not blank.
   */
  lemma {:induction false} NormalizedSpec(f: FilterValues)
    ensures var r := Normalized(f);
      && (r.status.Some? <==> f.status.Some? && f.status.value != "")
      && (r.status.Some? ==> r.status == f.status)
      && (r.gender.Some? <==> f.gender.Some? && f.gender.value != "")
      && (r.gender.Some? ==> r.gender == f.gender)
      && IsTrimmedField(r.species) && IsTrimmedField(r.typeName)
      && (r.species.Some? ==> r.species.value == Trim(f.species.value))
      && (r.typeName.Some? ==> r.typeName.value == Trim(f.typeName.value))
  {
    TrimmedSpec(f.species);
    TrimmedSpec(f.typeName);
  }

  /** Normalising an already normalised set changes nothing. */
  lemma {:induction false} NormalizedIdempotent(f: FilterValues)
    ensures Normalized(Normalized(f)) == Normalized(f)
  {
    TrimmedSpec(f.species);
    TrimmedSpec(f.typeName);
  }

  /** The panel reports active filters exactly when it would emit a non-empty object. */
  lemma {:induction false} ActiveIffNonEmpty(f: FilterValues)
    ensures Active(f) <==> Normalized(f) != NoFilters
  {
  }

  class FiltersComponent {
    var filters: FilterValues
    var isExpanded: bool

    constructor ()
      ensures filters == BlankForm && !isExpanded
    {
      filters := BlankForm;
      isExpanded := false;
    }

    /** Builds the emitted object field by field, as the form changes. */
    method OnFilterChange() returns (emitted: FilterValues)
      ensures emitted == Normalized(filters)
    {
      emitted := NoFilters;
      if filters.status.Some? && filters.status.value != "" {
        emitted := emitted.(status := filters.status);
      }
      if filters.gender.Some? && filters.gender.value != "" {
        emitted := emitted.(gender := filters.gender);
      }
      if filters.species.Some? && Trim(filters.species.value) != "" {
        emitted := emitted.(species := Some(Trim(filters.species.value)));
      }
      if filters.typeName.Some? && Trim(filters.typeName.value) != "" {
        emitted := emitted.(typeName := Some(Trim(filters.typeName.value)));
      }
    }

    method ClearFilters() returns (emitted: FilterValues)
      modifies this
      ensures filters == BlankForm && emitted == NoFilters && !HasActiveFilters()
      ensures isExpanded == old(isExpanded)
    {
      filters := BlankForm;
      emitted := NoFilters;
    }

    method ToggleExpanded()
      modifies this
      ensures isExpanded == !old(isExpanded) && filters == old(filters)
    {
      isExpanded := !isExpanded;
    }

    predicate HasActiveFilters(): (b: bool)
      reads this
      ensures b <==> Normalized(filters) != NoFilters
    {
      Active(filters)
    }
  }
}
