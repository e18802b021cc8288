/**
 * `TypeExtensions`: the JSON name of a property or field, memoised per
 * accessor, and the description of a type, member or parameter taken from
 * its attributes or its XML documentation. The attributes reflection would
 * find are given as plain values.
 */
module TypeExtensions {
  import opened JsonModel

  /** What `GetNameWithoutCache` reads about an accessor. */
  datatype NameFacts = NameFacts(
    jsonPropertyName: Option<string>,   // `JsonProperty.PropertyName`, `None` if no attribute or a null name
    dataMemberName: Option<string>,     // `DataMember.Name`, `None` if no attribute or a null name
    declaringTypeHasDataContract: bool,
    memberName: string)

  /** `GetNameWithoutCache`. */
  function NameWithoutCache(f: NameFacts): (r: string)
    ensures f.jsonPropertyName.Some? && f.jsonPropertyName.value != [] ==> r == f.jsonPropertyName.value
    ensures r == f.memberName ||
            (f.jsonPropertyName.Some? && r == f.jsonPropertyName.value && r != []) ||
            (f.dataMemberName.Some? && r == f.dataMemberName.value && r != [] && f.declaringTypeHasDataContract)
  {
    if f.jsonPropertyName.Some? && f.jsonPropertyName.value != [] then f.jsonPropertyName.value
    else if f.dataMemberName.Some? && f.dataMemberName.value != [] && f.declaringTypeHasDataContract then
      f.dataMemberName.value
    else f.memberName
  }

  /**
   * The member's own name is used exactly when neither attribute supplies a
   * usable name, a data-member name needing both a non-empty name and a
   * data contract on the declaring type.
   */
  lemma NamePrecedence(f: NameFacts)
    ensures (f.jsonPropertyName.None? || f.jsonPropertyName.value == []) &&
            (f.dataMemberName.None? || f.dataMemberName.value == [] || !f.declaringTypeHasDataContract) ==>
            NameWithoutCache(f) == f.memberName
    ensures (f.jsonPropertyName.None? || f.jsonPropertyName.value == []) &&
            f.dataMemberName.Some? && f.dataMemberName.value != [] && f.declaringTypeHasDataContract ==>
            NameWithoutCache(f) == f.dataMemberName.value
  {
  }

  /** An accessor, identified as the `_names` dictionary keys it. */
  type AccessorId = nat

  /** The static `_names` dictionary and `GetName`. */
  class NameCache {
    /** What reflection finds about each accessor; it does not change while the program runs. */
    const factsOf: AccessorId -> NameFacts
    var names: map<AccessorId, string>
    /** The accessors whose name was computed, in order. */
    ghost var computed: seq<AccessorId>

    /** Every cached name is the one `GetNameWithoutCache` gives, and each was computed once. */
    ghost predicate Valid()
      reads this
    {
      (forall a :: a in names ==> names[a] == NameWithoutCache(factsOf(a))) &&
      (forall i, j :: 0 <= i < j < |computed| ==> computed[i] != computed[j]) &&
      (forall a :: a in computed <==> a in names)
    }

    constructor (factsOf: AccessorId -> NameFacts)
      ensures this.factsOf == factsOf && names == map[] && Valid()
    {
      this.factsOf := factsOf;
      names := map[];
      computed := [];
    }

    /** `GetName`: the cached name, computing and storing it on first use. */
    method GetName(a: AccessorId) returns (r: string)
      requires Valid()
      modifies this
      ensures Valid()
      ensures r == NameWithoutCache(factsOf(a))
      ensures names == old(names)[a := r]
      ensures computed == if a in old(names) then old(computed) else old(computed) + [a]
    {
      if a !in names {
        names := names[a := NameWithoutCache(factsOf(a))];
        computed := computed + [a];
      }
      r := names[a];
    }
  }

  /** What the description lookup reads from a set of attributes. */
  datatype DescriptionFacts = DescriptionFacts(
    description: Option<string>,            // `DescriptionAttribute.Description`, `None` if absent or null
    display: Option<Option<string>>)        // a `DisplayAttribute` and what its `GetDescription()` returns

  /** `GetDescription(attributes)`: a non-empty Description, else a non-null Display description, else null. */
  function AttributeDescription(f: DescriptionFacts): (r: Option<string>)
    ensures f.description.Some? && f.description.value != [] ==> r == f.description
    ensures r.None? <==>
      (f.description.None? || f.description.value == []) && (f.display.None? || f.display.value.None?)
  {
    if f.description.Some? && f.description.value != [] then f.description
    else if f.display.Some? && f.display.value.Some? then f.display.value
    else None
  }

  /**
   * `GetDescription` of a type, accessor or parameter: the attribute
   * description, else the XML summary when it is not empty, else null.
   */
  function Description(f: DescriptionFacts, summary: string): (r: Option<string>)
    ensures AttributeDescription(f).Some? ==> r == AttributeDescription(f)
    ensures r.None? <==> AttributeDescription(f).None? && summary == []
  {
    var d := AttributeDescription(f);
    if d.Some? then d
    else if summary != [] then Some(summary)
    else None
  }

  /**
   * Only a Display description may be empty: any description returned that
   * is empty came from a `DisplayAttribute`; without an attribute
   * description, a non-empty XML summary is used.
   */
  lemma DescriptionSources(f: DescriptionFacts, summary: string)
    ensures var r := Description(f, summary);
      (r.Some? && r.value == [] ==> f.display == Some(Some([]))) &&
      (AttributeDescription(f).None? ==> r == if summary != [] then Some(summary) else None)
  {
  }
}
