/**
 * The decisions `JsonSchemaGenerator` takes while it fills a schema record:
 * how nullability is written in each dialect, when a reference is direct,
 * how a property is loaded, how the inheritance discriminator and the
 * `allOf` inheritance are written, how enumerations are loaded and how the
 * length and range annotations are mapped. What reflection would discover
 * about a type or a member (its attributes, its `Required` setting, whether
 * it is nullable) is passed in as plain values, and so are the settings read.
 *
 * Each operation is a method on the record, specified by a function from the
 * record's state before to its state after; the lemmas are about those
 * functions.
 */
module SchemaGeneration {
  import opened JsonModel
  import opened SchemaModel
  import opened SchemaRecords
  import GS = GeneratorSettings

  // ---------------------------------------------------------------------
  // Nullability and references (`GenerateWithReferenceAndNullabilityAsync`)
  // ---------------------------------------------------------------------

  /** Does a schema admit `null` in the JSON Schema dialect: by its type, or by a `oneOf` branch of type null. */
  predicate AdmitsNull(s: SchemaState) {
    Null in s.typeFlags || TypeOnly({Null}) in s.oneOf
  }

  /** The nullability step on a directly generated schema that is not a reference. */
  function DirectNullability(s: SchemaState, isNullable: bool, dialect: GS.SchemaType,
                             customNullable: bool): SchemaState
  {
    if !isNullable then s
    else if dialect == GS.JsonSchema then
      if s.typeFlags == {} then s.(oneOf := s.oneOf + [TypeOnly({}), TypeOnly({Null})])
      else s.(typeFlags := s.typeFlags + {Null})
    else if dialect == GS.OpenApi3 || customNullable then s.(isNullableRaw := Some(true))
    else s
  }

  /**
   * In the JSON Schema dialect a nullable schema admits null afterwards, and
   * only its type or its `oneOf` changes; under OpenAPI 3 or with custom
   * nullable properties only the raw nullable flag is set; otherwise, and
   * for a non-nullable schema, nothing changes.
   */
  lemma DirectNullabilityRecorded(s: SchemaState, isNullable: bool, dialect: GS.SchemaType,
                                  customNullable: bool)
    ensures var r := DirectNullability(s, isNullable, dialect, customNullable);
      (isNullable && dialect == GS.JsonSchema ==>
         AdmitsNull(r) && r.isNullableRaw == s.isNullableRaw &&
         r == s.(typeFlags := r.typeFlags, oneOf := r.oneOf) &&
         s.typeFlags <= r.typeFlags && s.oneOf <= r.oneOf) &&
      (isNullable && dialect != GS.JsonSchema && (dialect == GS.OpenApi3 || customNullable) ==>
         r == s.(isNullableRaw := Some(true))) &&
      (!isNullable || (dialect == GS.Swagger2 && !customNullable) ==> r == s)
  {
    var r := DirectNullability(s, isNullable, dialect, customNullable);
    if isNullable && dialect == GS.JsonSchema && s.typeFlags == {} {
      assert r.oneOf[|s.oneOf| + 1] == TypeOnly({Null});
    }
  }

  /**
   * The schema a referencing schema becomes, given its state after the
   * transformation and whether it then serialises to an empty object.
   */
  function Referencing(s: SchemaState, target: SchemaRef, isNullable: bool, dialect: GS.SchemaType,
                       customNullable: bool, allowReferencesWithProperties: bool,
                       serializesEmpty: bool): SchemaState
  {
    var s1 :=
      if !isNullable then s
      else if dialect == GS.JsonSchema then s.(oneOf := s.oneOf + [TypeOnly({Null})])
      else if dialect == GS.OpenApi3 || customNullable then s.(isNullableRaw := Some(true))
      else s;
    if (allowReferencesWithProperties || serializesEmpty) && |s1.oneOf| == 0 then
      s1.(reference := Some(target))
    else if dialect != GS.Swagger2 then s1.(oneOf := s1.oneOf + [ReferenceTo(target)])
    else s1.(allOf := s1.allOf + [ReferenceTo(target)])
  }

  /** Is the reference written as the schema's own `$ref`. */
  predicate UsesDirectReference(s: SchemaState, isNullable: bool, dialect: GS.SchemaType,
                                allowReferencesWithProperties: bool, serializesEmpty: bool)
  {
    (allowReferencesWithProperties || serializesEmpty) && |s.oneOf| == 0 &&
    !(isNullable && dialect == GS.JsonSchema)
  }

  /**
   * The referenced schema is reached in exactly one place: the schema's own
   * `$ref` exactly when references may carry properties or the schema has no
   * members, and `oneOf` is empty; otherwise a `$ref` entry appended to
   * `oneOf`, or to `allOf` under Swagger 2. A nullable reference in the JSON
   * Schema dialect is therefore always `oneOf: [..., null, $ref]`.
   */
  lemma ReferenceWrapping(s: SchemaState, target: SchemaRef, isNullable: bool, dialect: GS.SchemaType,
                          customNullable: bool, allowReferencesWithProperties: bool,
                          serializesEmpty: bool)
    ensures var r := Referencing(s, target, isNullable, dialect, customNullable,
                                 allowReferencesWithProperties, serializesEmpty);
      var nullOneOf := if isNullable && dialect == GS.JsonSchema then s.oneOf + [TypeOnly({Null})] else s.oneOf;
      var direct := UsesDirectReference(s, isNullable, dialect, allowReferencesWithProperties, serializesEmpty);
      (direct ==> r.reference == Some(target) && r.oneOf == nullOneOf && r.allOf == s.allOf) &&
      (!direct && dialect != GS.Swagger2 ==>
         r.reference == s.reference && r.oneOf == nullOneOf + [ReferenceTo(target)] && r.allOf == s.allOf) &&
      (!direct && dialect == GS.Swagger2 ==>
         r.reference == s.reference && r.oneOf == nullOneOf && r.allOf == s.allOf + [ReferenceTo(target)]) &&
      r.typeFlags == s.typeFlags && r.properties == s.properties
  {
  }

  /** `GenerateWithReferenceAndNullabilityAsync` on a generated schema that is not a reference. */
  method ApplyDirectNullability(schema: SchemaRecord, isNullable: bool, dialect: GS.SchemaType,
                                customNullable: bool)
    modifies schema
    ensures schema.State() == DirectNullability(old(schema.State()), isNullable, dialect, customNullable)
  {
    if isNullable {
      if dialect == GS.JsonSchema {
        if schema.typeFlags == {} {
          schema.oneOf := schema.oneOf + [TypeOnly({})];
          schema.oneOf := schema.oneOf + [TypeOnly({Null})];
        } else {
          schema.typeFlags := schema.typeFlags + {Null};
        }
      } else if dialect == GS.OpenApi3 || customNullable {
        schema.isNullableRaw := Some(true);
      }
    }
  }

  /**
   * `GenerateWithReferenceAndNullabilityAsync` on a new referencing schema,
   * after the transformation ran on it; `serializesEmpty` is whether it then
   * serialises to an empty object.
   */
  method WrapReference(referencing: SchemaRecord, target: SchemaRef, isNullable: bool, dialect: GS.SchemaType,
                       customNullable: bool, allowReferencesWithProperties: bool, serializesEmpty: bool)
    modifies referencing
    ensures referencing.State() ==
      Referencing(old(referencing.State()), target, isNullable, dialect, customNullable,
                  allowReferencesWithProperties, serializesEmpty)
  {
    ghost var s0 := referencing.State();
    if isNullable {
      if dialect == GS.JsonSchema {
        referencing.oneOf := referencing.oneOf + [TypeOnly({Null})];
      } else if dialect == GS.OpenApi3 || customNullable {
        referencing.isNullableRaw := Some(true);
      }
    }
    assert referencing.State() ==
      if !isNullable then s0
      else if dialect == GS.JsonSchema then s0.(oneOf := s0.oneOf + [TypeOnly({Null})])
      else if dialect == GS.OpenApi3 || customNullable then s0.(isNullableRaw := Some(true))
      else s0;
    var useDirectReference := allowReferencesWithProperties || serializesEmpty;
    if useDirectReference && |referencing.oneOf| == 0 {
      referencing.reference := Some(target);
    } else if dialect != GS.Swagger2 {
      referencing.oneOf := referencing.oneOf + [ReferenceTo(target)];
    } else {
      referencing.allOf := referencing.allOf + [ReferenceTo(target)];
    }
  }

  // ---------------------------------------------------------------------
  // Properties (`LoadPropertyOrFieldAsync`)
  // ---------------------------------------------------------------------

  /** A `[Required]` attribute, a required `DataMember`, or `Required.Always`/`AllowNull` makes a property required. */
  predicate RequiredByAttributes(hasRequiredAttribute: bool, isDataMemberRequired: bool, required: Required)
  {
    hasRequiredAttribute || isDataMemberRequired || required == Always || required == AllowNull
  }

  /** The nullability of a loaded property. */
  predicate NullableProperty(typeIsNullable: bool, hasRequiredAttribute: bool, isDataMemberRequired: bool,
                             required: Required)
  {
    typeIsNullable && !hasRequiredAttribute && !isDataMemberRequired &&
    (required == Default || required == AllowNull)
  }

  /**
   * A property both nullable and required has `Required.AllowNull`;
   * `Required.Always` makes it required and not nullable, and
   * `Required.DisallowNull` makes it not nullable without making it required.
   */
  lemma RequiredAndNullable(typeIsNullable: bool, hasRequiredAttribute: bool, isDataMemberRequired: bool,
                            required: Required)
    ensures NullableProperty(typeIsNullable, hasRequiredAttribute, isDataMemberRequired, required) ==>
      RequiredByAttributes(hasRequiredAttribute, isDataMemberRequired, required) ==> required == AllowNull
    ensures required == Always ==>
      RequiredByAttributes(hasRequiredAttribute, isDataMemberRequired, required) &&
      !NullableProperty(typeIsNullable, hasRequiredAttribute, isDataMemberRequired, required)
    ensures required == DisallowNull ==>
      !NullableProperty(typeIsNullable, hasRequiredAttribute, isDataMemberRequired, required) &&
      (RequiredByAttributes(hasRequiredAttribute, isDataMemberRequired, required) <==>
       hasRequiredAttribute || isDataMemberRequired)
  {
  }

  /** What loading a property did: nothing for an ignored one, a refusal for a duplicate name. */
  datatype LoadOutcome = Skipped | DefinedMultipleTimes | Loaded(isNullable: bool)

  /** What reflection finds about a member, as the generator reads it. */
  datatype MemberFacts = MemberFacts(
    ignored: bool,                // `jsonProperty.Ignored` or ignored by the settings
    name: string,                 // `GetPropertyName(jsonProperty, memberInfo)`
    hasRequiredAttribute: bool,
    isDataMemberRequired: bool,
    required: Required,
    typeIsNullable: bool)

  /**
   * Loading a property into its parent: `property` is the schema generated
   * for it (with its own reference and nullability already decided).
   */
  function LoadProperty(s: SchemaState, m: MemberFacts, property: PropertySchema, dialect: GS.SchemaType)
    : (LoadOutcome, SchemaState)
  {
    if m.ignored then (Skipped, s)
    else if m.name in s.properties then (DefinedMultipleTimes, s)
    else
      var required1 :=
        if RequiredByAttributes(m.hasRequiredAttribute, m.isDataMemberRequired, m.required)
        then s.requiredProperties + [m.name] else s.requiredProperties;
      var isNullable := NullableProperty(m.typeIsNullable, m.hasRequiredAttribute, m.isDataMemberRequired, m.required);
      var required2 :=
        if !isNullable && dialect == GS.Swagger2 && m.name !in required1 then required1 + [m.name] else required1;
      (Loaded(isNullable), s.(requiredProperties := required2, properties := s.properties[m.name := property]))
  }

  predicate Distinct(xs: seq<string>) {
    forall i, j :: 0 <= i < j < |xs| ==> xs[i] != xs[j]
  }

  /**
   * A duplicate name is refused before any change. A loaded property is
   * added under its name, nothing else in the dictionary changes, and it is
   * listed as required exactly when the attributes require it or, under
   * Swagger 2, when it is not nullable; the list gains at most that name, so
   * a list without duplicates that did not hold the name keeps none.
   */
  lemma LoadPropertyEffects(s: SchemaState, m: MemberFacts, property: PropertySchema, dialect: GS.SchemaType)
    ensures var (outcome, r) := LoadProperty(s, m, property, dialect);
      (outcome.DefinedMultipleTimes? <==> !m.ignored && m.name in s.properties) &&
      (!outcome.Loaded? ==> r == s) &&
      (outcome.Loaded? ==>
         outcome.isNullable == NullableProperty(m.typeIsNullable, m.hasRequiredAttribute,
                                                m.isDataMemberRequired, m.required) &&
         r.properties.Keys == s.properties.Keys + {m.name} && r.properties[m.name] == property &&
         (forall k :: k in s.properties ==> r.properties[k] == s.properties[k]) &&
         s.requiredProperties <= r.requiredProperties &&
         (forall x :: x in r.requiredProperties[|s.requiredProperties|..] ==> x == m.name) &&
         (m.name in r.requiredProperties[|s.requiredProperties|..] <==>
            RequiredByAttributes(m.hasRequiredAttribute, m.isDataMemberRequired, m.required) ||
            (!outcome.isNullable && dialect == GS.Swagger2 && m.name !in s.requiredProperties)) &&
         (Distinct(s.requiredProperties) && m.name !in s.requiredProperties ==> Distinct(r.requiredProperties)) &&
         r == s.(requiredProperties := r.requiredProperties, properties := r.properties))
  {
  }

  /** `LoadPropertyOrFieldAsync`, once the property's schema has been generated. */
  method LoadPropertyOrField(parent: SchemaRecord, m: MemberFacts, property: PropertySchema, dialect: GS.SchemaType)
    returns (outcome: LoadOutcome)
    modifies parent
    ensures (outcome, parent.State()) == LoadProperty(old(parent.State()), m, property, dialect)
  {
    if m.ignored {
      return Skipped;
    }
    if m.name in parent.properties {
      return DefinedMultipleTimes;
    }
    if RequiredByAttributes(m.hasRequiredAttribute, m.isDataMemberRequired, m.required) {
      parent.requiredProperties := parent.requiredProperties + [m.name];
    }
    var isNullable := m.typeIsNullable && !m.hasRequiredAttribute && !m.isDataMemberRequired &&
      (m.required == Default || m.required == AllowNull);
    if !isNullable && dialect == GS.Swagger2 {
      if m.name !in parent.requiredProperties {
        parent.requiredProperties := parent.requiredProperties + [m.name];
      }
    }
    parent.properties := parent.properties[m.name := property];
    return Loaded(isNullable);
  }

  // ---------------------------------------------------------------------
  // Inheritance (`GenerateInheritanceDiscriminator`, `GenerateInheritanceAsync`)
  // ---------------------------------------------------------------------

  datatype DiscriminatorOutcome = NotApplied | Injected | NotAStringProperty

  /**
   * The discriminator step on the type's schema: nothing when the hierarchy
   * is flattened or there is no inheritance converter (`converterName` is the
   * converter's discriminator name), a refusal when a property of that name
   * exists without the String flag.
   */
  function InjectDiscriminator(s: SchemaState, flatten: bool, converterName: Option<string>)
    : (DiscriminatorOutcome, SchemaState)
  {
    if flatten || converterName.None? then (NotApplied, s)
    else
      var name := converterName.value;
      if name in s.properties && String !in s.properties[name].typeFlags then (NotAStringProperty, s)
      else (Injected, s.(discriminator := Some(name),
                         properties := s.properties[name := PropertySchema({String}, true, None)]))
  }

  /**
   * After an injection the discriminator names a required string property,
   * the other properties are kept, and injecting again changes nothing; a
   * refusal happens exactly for an existing non-string property.
   */
  lemma DiscriminatorEffects(s: SchemaState, converterName: string)
    ensures var (outcome, r) := InjectDiscriminator(s, false, Some(converterName));
      (outcome == NotAStringProperty <==>
         converterName in s.properties && String !in s.properties[converterName].typeFlags) &&
      (outcome == Injected ==>
         r.discriminator == Some(converterName) &&
         r.properties[converterName] == PropertySchema({String}, true, None) &&
         r.properties.Keys == s.properties.Keys + {converterName} &&
         (forall k :: k in s.properties && k != converterName ==> r.properties[k] == s.properties[k]) &&
         InjectDiscriminator(r, false, Some(converterName)) == (Injected, r))
  {
    var (outcome, r) := InjectDiscriminator(s, false, Some(converterName));
    if outcome == Injected {
      assert String in r.properties[converterName].typeFlags;
      assert r.properties[converterName := PropertySchema({String}, true, None)] == r.properties;
    }
  }

  /** `GenerateInheritanceDiscriminator`, without the mapping added to a base discriminator. */
  method GenerateInheritanceDiscriminator(typeSchema: SchemaRecord, flatten: bool, converterName: Option<string>)
    returns (outcome: DiscriminatorOutcome)
    modifies typeSchema
    ensures (outcome, typeSchema.State()) == InjectDiscriminator(old(typeSchema.State()), flatten, converterName)
  {
    if flatten || converterName.None? {
      return NotApplied;
    }
    var name := converterName.value;
    if name in typeSchema.properties && String !in typeSchema.properties[name].typeFlags {
      return NotAStringProperty;
    }
    typeSchema.discriminator := Some(name);
    typeSchema.properties := typeSchema.properties[name := PropertySchema({String}, true, None)];
    return Injected;
  }

  /** How a non-flattened base type was written: by `allOf`, or inline into the schema itself. */
  datatype InheritanceOutcome = AllOfWith(own: SchemaRef) | InlineBase

  /**
   * The `allOf` step of non-flattened inheritance: `own` is the schema the
   * type's own properties went into, `base` the base type's schema.
   */
  function Inherit(s: SchemaState, own: SchemaRef, ownHasProperties: bool, requiresReference: bool,
                   base: SchemaRef): (InheritanceOutcome, SchemaState)
  {
    if ownHasProperties || requiresReference then
      var baseEntry := if requiresReference then ReferenceTo(base) else Inline(base);
      (AllOfWith(own), s.(allOf := s.allOf + [baseEntry] + [Inline(own)]))
    else (InlineBase, s)
  }

  /**
   * With own properties or a base that must be referenced, exactly two
   * entries are appended to `allOf`: first the base (a `$ref` when it must be
   * referenced), then the own schema; otherwise `allOf` is left alone.
   */
  lemma InheritanceOrder(s: SchemaState, own: SchemaRef, ownHasProperties: bool, requiresReference: bool,
                         base: SchemaRef)
    ensures var (outcome, r) := Inherit(s, own, ownHasProperties, requiresReference, base);
      (outcome.AllOfWith? <==> ownHasProperties || requiresReference) &&
      (outcome.AllOfWith? ==>
         |r.allOf| == |s.allOf| + 2 && r.allOf[..|s.allOf|] == s.allOf &&
         (r.allOf[|s.allOf|] == ReferenceTo(base) <==> requiresReference) &&
         (r.allOf[|s.allOf|] == Inline(base) <==> !requiresReference) &&
         r.allOf[|s.allOf| + 1] == Inline(own) && outcome.own == own) &&
      r == s.(allOf := r.allOf)
  {
  }

  /** The `allOf` part of `GenerateInheritanceAsync` for a non-flattened base type. */
  method InheritWithAllOf(schema: SchemaRecord, own: SchemaRef, ownHasProperties: bool, requiresReference: bool,
                          base: SchemaRef)
    returns (outcome: InheritanceOutcome)
    modifies schema
    ensures (outcome, schema.State()) ==
      Inherit(old(schema.State()), own, ownHasProperties, requiresReference, base)
  {
    if ownHasProperties || requiresReference {
      if requiresReference {
        schema.allOf := schema.allOf + [ReferenceTo(base)];
      } else {
        schema.allOf := schema.allOf + [Inline(base)];
      }
      schema.allOf := schema.allOf + [Inline(own)];
      return AllOfWith(own);
    }
    return InlineBase;
  }

  // ---------------------------------------------------------------------
  // Enumerations (`LoadEnumerations`)
  // ---------------------------------------------------------------------

  /**
   * An enum member: its name, its numeric value, its `EnumMember` value if
   * any, and the string the serializer writes for it with the settings'
   * converters and a `StringEnumConverter`.
   */
  datatype EnumMember = EnumMember(name: string, number: int, enumMemberValue: Option<string>,
                                   serialized: string)

  /** The value recorded for one member: its number for an integer enum, else its string. */
  function EnumValueOf(m: EnumMember, isInteger: bool): EnumValue
  {
    if isInteger then IntValue(m.number)
    else if m.enumMemberValue.Some? && m.enumMemberValue.value != [] then StringValue(m.enumMemberValue.value)
    else StringValue(m.serialized)
  }

  function EnumValues(members: seq<EnumMember>, isInteger: bool): seq<EnumValue>
  {
    if members == [] then []
    else EnumValues(members[..|members| - 1], isInteger) + [EnumValueOf(members[|members| - 1], isInteger)]
  }

  function EnumNames(members: seq<EnumMember>): seq<string>
  {
    if members == [] then [] else EnumNames(members[..|members| - 1]) + [members[|members| - 1].name]
  }

  /**
   * The two lists are index-aligned with the members: entry i of each comes
   * from member i, numbers for an integer enum and strings otherwise.
   */
  lemma {:induction false} EnumerationAligned(members: seq<EnumMember>, isInteger: bool)
    ensures |EnumValues(members, isInteger)| == |EnumNames(members)| == |members|
    ensures forall i :: 0 <= i < |members| ==>
      EnumNames(members)[i] == members[i].name &&
      EnumValues(members, isInteger)[i] == EnumValueOf(members[i], isInteger)
    ensures forall v :: v in EnumValues(members, isInteger) ==> (v.IntValue? <==> isInteger)
  {
    if members != [] {
      EnumerationAligned(members[..|members| - 1], isInteger);
    }
  }

  /** The state after `LoadEnumerations`: both lists are replaced, not extended. */
  function LoadedEnumeration(s: SchemaState, typeFlags: set<TypeFlag>, isFlags: bool,
                             members: seq<EnumMember>): SchemaState
  {
    s.(typeFlags := typeFlags, isFlagEnumerable := isFlags,
       enumeration := EnumValues(members, typeFlags == {Integer}),
       enumerationNames := EnumNames(members))
  }

  /**
   * `LoadEnumerations`, without the mapping description: `typeFlags` is the
   * type description's type, and an enum counts as an integer enum exactly
   * when that type is Integer alone.
   */
  method LoadEnumerations(schema: SchemaRecord, typeFlags: set<TypeFlag>, isFlags: bool,
                          members: seq<EnumMember>)
    modifies schema
    ensures schema.State() == LoadedEnumeration(old(schema.State()), typeFlags, isFlags, members)
  {
    schema.typeFlags := typeFlags;
    schema.enumeration := [];
    schema.enumerationNames := [];
    schema.isFlagEnumerable := isFlags;
    var i := 0;
    while i < |members|
      invariant 0 <= i <= |members|
      invariant schema.enumeration == EnumValues(members[..i], typeFlags == {Integer})
      invariant schema.enumerationNames == EnumNames(members[..i])
      invariant schema.State() == old(schema.State()).(typeFlags := typeFlags, isFlagEnumerable := isFlags,
        enumeration := schema.enumeration, enumerationNames := schema.enumerationNames)
    {
      var m := members[i];
      assert members[..i + 1][..i] == members[..i];
      if typeFlags == {Integer} {
        schema.enumeration := schema.enumeration + [IntValue(m.number)];
      } else if m.enumMemberValue.Some? && m.enumMemberValue.value != [] {
        schema.enumeration := schema.enumeration + [StringValue(m.enumMemberValue.value)];
      } else {
        schema.enumeration := schema.enumeration + [StringValue(m.serialized)];
      }
      schema.enumerationNames := schema.enumerationNames + [m.name];
      i := i + 1;
    }
    assert members[..|members|] == members;
  }

  // ---------------------------------------------------------------------
  // Data annotations (`ApplyDataAnnotations`, `ApplyRangeAttribute`)
  // ---------------------------------------------------------------------

  /** `decimal.MaxValue`; `decimal.MinValue` is its negation. */
  const DecimalMaxValue: real := 79228162514264337593543950335.0

  /** The length attributes: `MinLength`/`MaxLength` with a non-null length, and `StringLength`. */
  datatype LengthAttributes = LengthAttributes(
    minLength: Option<int>,
    maxLength: Option<int>,
    stringLength: Option<(int, int)>)   // (MinimumLength, MaximumLength)

  /**
   * The length mapping: `MinLength`/`MaxLength` set the string bounds of a
   * String type and the item bounds of an Array type; `StringLength` sets
   * both string bounds of a String type, after them.
   */
  function ApplyLengths(s: SchemaState, typeFlags: set<TypeFlag>, a: LengthAttributes): SchemaState
  {
    var s1 :=
      if a.minLength.None? then s
      else if typeFlags == {String} then s.(minLength := a.minLength)
      else if typeFlags == {Array} then s.(minItems := a.minLength.value)
      else s;
    var s2 :=
      if a.maxLength.None? then s1
      else if typeFlags == {String} then s1.(maxLength := a.maxLength)
      else if typeFlags == {Array} then s1.(maxItems := a.maxLength.value)
      else s1;
    if a.stringLength.Some? && typeFlags == {String} then
      s2.(minLength := Some(a.stringLength.value.0), maxLength := Some(a.stringLength.value.1))
    else s2
  }

  /**
   * Which bound each attribute reaches depends only on the exact type: a
   * String type gets string bounds, with `StringLength` winning over
   * `MinLength`/`MaxLength`; an Array type gets item bounds; any other type
   * is left unchanged.
   */
  lemma LengthTargets(s: SchemaState, typeFlags: set<TypeFlag>, a: LengthAttributes)
    ensures var r := ApplyLengths(s, typeFlags, a);
      (typeFlags == {String} ==>
         r == s.(minLength := r.minLength, maxLength := r.maxLength) &&
         r.minLength == (if a.stringLength.Some? then Some(a.stringLength.value.0)
                         else if a.minLength.Some? then a.minLength else s.minLength) &&
         r.maxLength == (if a.stringLength.Some? then Some(a.stringLength.value.1)
                         else if a.maxLength.Some? then a.maxLength else s.maxLength)) &&
      (typeFlags == {Array} ==>
         r == s.(minItems := r.minItems, maxItems := r.maxItems) &&
         r.minItems == (if a.minLength.Some? then a.minLength.value else s.minItems) &&
         r.maxItems == (if a.maxLength.Some? then a.maxLength.value else s.maxItems)) &&
      (typeFlags != {String} && typeFlags != {Array} ==> r == s)
  {
  }

  /**
   * The range mapping on the decimal path: a bound is taken unless it is the
   * decimal extreme on its side, and the range and `MultipleOf` only for a
   * type that is exactly Number or exactly Integer.
   */
  function ApplyRange(s: SchemaState, typeFlags: set<TypeFlag>, rangeMinimum: Option<real>,
                      rangeMaximum: Option<real>, multipleOf: Option<real>): SchemaState
  {
    if typeFlags != {Number} && typeFlags != {Integer} then s
    else
      var s1 := if rangeMinimum.Some? && rangeMinimum.value > -DecimalMaxValue
                then s.(minimum := rangeMinimum) else s;
      var s2 := if rangeMaximum.Some? && rangeMaximum.value < DecimalMaxValue
                then s1.(maximum := rangeMaximum) else s1;
      if multipleOf.Some? then s2.(multipleOf := multipleOf) else s2
  }

  /**
   * A recorded bound always lies strictly inside the decimal range, so the
   * extremes themselves mean "unbounded"; nothing but the three numeric
   * annotations changes.
   */
  lemma RangeBounds(s: SchemaState, typeFlags: set<TypeFlag>, rangeMinimum: Option<real>,
                    rangeMaximum: Option<real>, multipleOf: Option<real>)
    ensures var r := ApplyRange(s, typeFlags, rangeMinimum, rangeMaximum, multipleOf);
      r == s.(minimum := r.minimum, maximum := r.maximum, multipleOf := r.multipleOf) &&
      (r.minimum != s.minimum ==> r.minimum == rangeMinimum && -DecimalMaxValue < rangeMinimum.value) &&
      (r.maximum != s.maximum ==> r.maximum == rangeMaximum && rangeMaximum.value < DecimalMaxValue) &&
      (rangeMinimum == Some(-DecimalMaxValue) ==> r.minimum == s.minimum) &&
      (rangeMaximum == Some(DecimalMaxValue) ==> r.maximum == s.maximum) &&
      ((typeFlags == {Number} || typeFlags == {Integer}) && multipleOf.Some? ==> r.multipleOf == multipleOf)
  {
  }

  /** `ApplyRangeAttribute` on the decimal path, with the `MultipleOf` step that follows it. */
  method ApplyRangeAttribute(schema: SchemaRecord, typeFlags: set<TypeFlag>, rangeMinimum: Option<real>,
                             rangeMaximum: Option<real>, multipleOf: Option<real>)
    modifies schema
    ensures schema.State() == ApplyRange(old(schema.State()), typeFlags, rangeMinimum, rangeMaximum, multipleOf)
  {
    if typeFlags == {Number} || typeFlags == {Integer} {
      ghost var s0 := schema.State();
      if rangeMinimum.Some? && rangeMinimum.value > -DecimalMaxValue {
        schema.minimum := rangeMinimum;
      }
      ghost var s1 := schema.State();
      assert s1 == if rangeMinimum.Some? && rangeMinimum.value > -DecimalMaxValue
                   then s0.(minimum := rangeMinimum) else s0;
      if rangeMaximum.Some? && rangeMaximum.value < DecimalMaxValue {
        schema.maximum := rangeMaximum;
      }
      assert schema.State() == if rangeMaximum.Some? && rangeMaximum.value < DecimalMaxValue
                               then s1.(maximum := rangeMaximum) else s1;
      if multipleOf.Some? {
        schema.multipleOf := multipleOf;
      }
    }
  }

  /** The `MinLength`, `MaxLength` and `StringLength` part of `ApplyDataAnnotations`. */
  method ApplyLengthAttributes(schema: SchemaRecord, typeFlags: set<TypeFlag>, lengths: LengthAttributes)
    modifies schema
    ensures schema.State() == ApplyLengths(old(schema.State()), typeFlags, lengths)
  {
    if lengths.minLength.Some? {
      if typeFlags == {String} {
        schema.minLength := lengths.minLength;
      } else if typeFlags == {Array} {
        schema.minItems := lengths.minLength.value;
      }
    }
    if lengths.maxLength.Some? {
      if typeFlags == {String} {
        schema.maxLength := lengths.maxLength;
      } else if typeFlags == {Array} {
        schema.maxItems := lengths.maxLength.value;
      }
    }
    if lengths.stringLength.Some? && typeFlags == {String} {
      schema.minLength := Some(lengths.stringLength.value.0);
      schema.maxLength := Some(lengths.stringLength.value.1);
    }
  }

  /**
   * The length and range part of `ApplyDataAnnotations`; `typeFlags` is the
   * type description's type.
   */
  method ApplyDataAnnotations(schema: SchemaRecord, typeFlags: set<TypeFlag>, lengths: LengthAttributes,
                              rangeMinimum: Option<real>, rangeMaximum: Option<real>, multipleOf: Option<real>)
    modifies schema
    ensures schema.State() ==
      ApplyLengths(ApplyRange(old(schema.State()), typeFlags, rangeMinimum, rangeMaximum, multipleOf),
                   typeFlags, lengths)
  {
    ApplyRangeAttribute(schema, typeFlags, rangeMinimum, rangeMaximum, multipleOf);
    ApplyLengthAttributes(schema, typeFlags, lengths);
  }
}
