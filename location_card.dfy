/**
 * The location-type classifier of the location card and the location detail
 * page: the lower-cased type is tested for a fixed list of keywords in
 * priority order, and the first one it contains picks the icon (and, on the
 * detail page, the style class).
 */
module LocationCard {
  import opened Text

  /** The keywords, in the order they are tried. */
  const Keywords: seq<string> := ["planet", "cluster", "space", "dimension", "microverse"]

  /** The icon of each keyword, followed by the icon of a type containing none of them. */
  const Icons: seq<string> := ["bi-globe", "bi-diagram-3", "bi-stars", "bi-box-arrow-in-right", "bi-box", "bi-geo-alt-fill"]

  /** The style class of each keyword, followed by the class of a type containing none of them. */
  const TypeClasses: seq<string> := ["type-planet", "type-cluster", "type-space", "type-dimension", "type-microverse", "type-default"]

  /**
   * The chain of `includes` tests on the lower-cased type: the position of the
   * first keyword the type contains, ignoring the case of ASCII letters, or
   * the number of keywords when it contains none.
   */
  function TypeCategory(typeName: string): (k: nat)
    ensures k <= |Keywords|
    ensures k < |Keywords| ==> Contains(ToLower(typeName), Keywords[k])
    ensures forall j :: 0 <= j < k ==> !Contains(ToLower(typeName), Keywords[j])
  {
    var lower := ToLower(typeName);
    if Contains(lower, "planet") then 0
    else if Contains(lower, "cluster") then 1
    else if Contains(lower, "space") then 2
    else if Contains(lower, "dimension") then 3
    else if Contains(lower, "microverse") then 4
    else 5
  }

  /**
   * `getTypeIcon`: always one of the six icons; the icon of keyword `j` exactly
   * when the type contains keyword `j` and none before it; the fallback icon
   * exactly when it contains none.
   */
  function GetTypeIcon(typeName: string): (r: string)
    ensures r in Icons
    ensures forall j :: 0 <= j < |Keywords| ==>
      (r == Icons[j] <==> Contains(ToLower(typeName), Keywords[j]) && forall i :: 0 <= i < j ==> !Contains(ToLower(typeName), Keywords[i]))
    ensures r == "bi-geo-alt-fill" <==> forall j :: 0 <= j < |Keywords| ==> !Contains(ToLower(typeName), Keywords[j])
  {
    Icons[TypeCategory(typeName)]
  }

  /** The detail page's `getTypeClass`: the same classification, mapped to style classes. */
  function GetTypeClass(typeName: string): (r: string)
    ensures r in TypeClasses
    ensures forall j :: 0 <= j < |Keywords| ==>
      (r == TypeClasses[j] <==> Contains(ToLower(typeName), Keywords[j]) && forall i :: 0 <= i < j ==> !Contains(ToLower(typeName), Keywords[i]))
    ensures r == "type-default" <==> forall j :: 0 <= j < |Keywords| ==> !Contains(ToLower(typeName), Keywords[j])
  {
    TypeClasses[TypeCategory(typeName)]
  }

  /** Types that differ only in the case of ASCII letters get the same icon and class. */
  lemma {:induction false} TypeCaseInsensitive(a: string, b: string)
    requires |a| == |b| && forall i :: 0 <= i < |a| ==> LowerChar(a[i]) == LowerChar(b[i])
    ensures GetTypeIcon(a) == GetTypeIcon(b) && GetTypeClass(a) == GetTypeClass(b)
  {
    assert ToLower(a) == ToLower(b);
  }

  /** A type whose text contains "planet" in any case is a planet, whatever else it contains. */
  lemma {:induction false} PlanetFirst(prefix: string, suffix: string)
    ensures GetTypeIcon(prefix + "Planet" + suffix) == "bi-globe"
    ensures GetTypeClass(prefix + "PLANET" + suffix) == "type-planet"
  {
    var a := prefix + "Planet" + suffix;
    assert ToLower(a)[|prefix|..|prefix| + 6] == "planet";
    assert OccursAt(ToLower(a), "planet", |prefix|);
    var b := prefix + "PLANET" + suffix;
    assert ToLower(b)[|prefix|..|prefix| + 6] == "planet";
    assert OccursAt(ToLower(b), "planet", |prefix|);
  }

  /** A type shorter than the first two keywords that spells "Space" is space. */
  lemma SpaceExample()
    ensures GetTypeIcon("Space") == "bi-stars"
  {
    assert OccursAt(ToLower("Space"), "space", 0);
  }
}
