/**
 * `NewtonsoftJsonReflectionService`: the Newtonsoft-specific answers to
 * "is this nullable", "is this enum written as a string", "what is this
 * property's JSON name", which contract properties are loaded, and how a
 * property is loaded into its parent schema, replacing an inherited one
 * when the hierarchy is flattened.
 */
module ReflectionService {
  import opened JsonModel
  import opened SchemaModel
  import opened SchemaRecords
  import GS = GeneratorSettings
  import TypeExtensions
  import SchemaGeneration

  /**
   * `IsNullable`: `required` is the `Required` of a `JsonProperty` attribute
   * on the type (`None` without one), `baseNullable` the base service's answer.
   */
  function IsNullable(required: Option<Required>, baseNullable: bool): (r: bool)
    ensures required == Some(DisallowNull) ==> !r
    ensures required != Some(DisallowNull) ==> r == baseNullable
  {
    if required.Some? && required.value == DisallowNull then false else baseNullable
  }

  /**
   * `IsStringEnum`: a `StringEnumConverter` among the actual serializer
   * settings' converters, whether the user registered it or the settings
   * built it, makes every enum a string enum.
   */
  function IsStringEnum(serializerSettings: GS.JsonSettings, baseIsStringEnum: bool): (r: bool)
    ensures GS.HasStringEnumConverter(serializerSettings) ==> r
    ensures !GS.HasStringEnumConverter(serializerSettings) ==> r == baseIsStringEnum
  {
    GS.HasStringEnumConverter(serializerSettings) || baseIsStringEnum
  }

  /**
   * Settings built with string enum handling make every enum a string enum,
   * whatever the type says; with integer handling the type decides.
   */
  lemma StringEnumHandling(cr: Option<GS.Resolver>, naming: GS.PropertyNameHandling, enums: GS.EnumHandling,
                           actualResolver: Option<GS.Resolver>, baseIsStringEnum: bool)
    ensures var j := GS.ChooseSerializerSettings(None, cr, naming, enums, actualResolver).value;
      IsStringEnum(j, baseIsStringEnum) == (enums != GS.Integer || baseIsStringEnum)
  {
    GS.EnumConverters(cr, naming, enums, actualResolver);
  }

  /** Is the actual resolver a `DefaultContractResolver`: the three the settings create are; a custom one may be. */
  predicate IsDefaultContractResolver(actual: Option<GS.Resolver>, customIsDefault: nat -> bool)
  {
    actual.Some? && (actual.value.CustomResolver? ==> customIsDefault(actual.value.id))
  }

  /**
   * `GetPropertyName(jsonProperty, accessorInfo, settings)`: the JSON
   * property's name when it has one, else the accessor's memoised name passed
   * through `GetResolvedPropertyName` of a `DefaultContractResolver`.
   */
  function PropertyName(jsonPropertyName: Option<string>, accessor: TypeExtensions.NameFacts,
                        actual: Option<GS.Resolver>, customIsDefault: nat -> bool,
                        resolvedName: (GS.Resolver, string) -> string): (r: string)
    ensures jsonPropertyName.Some? ==> r == jsonPropertyName.value
    ensures jsonPropertyName.None? && !IsDefaultContractResolver(actual, customIsDefault) ==>
      r == TypeExtensions.NameWithoutCache(accessor)
    ensures jsonPropertyName.None? && IsDefaultContractResolver(actual, customIsDefault) ==>
      r == resolvedName(actual.value, TypeExtensions.NameWithoutCache(accessor))
  {
    if jsonPropertyName.Some? then jsonPropertyName.value
    else
      var name := TypeExtensions.NameWithoutCache(accessor);
      if IsDefaultContractResolver(actual, customIsDefault) then resolvedName(actual.value, name) else name
  }

  /**
   * With the default settings (no custom resolver or serializer settings,
   * default naming) the accessor's name goes through the plain
   * `DefaultContractResolver`; with camel-case naming through the camel-case
   * one.
   */
  lemma NamingFromSettings(accessor: TypeExtensions.NameFacts, naming: GS.PropertyNameHandling,
                           customIsDefault: nat -> bool, resolvedName: (GS.Resolver, string) -> string)
    requires naming != GS.SnakeCase
    ensures var actual := GS.ChooseResolver(None, None, naming).value;
      PropertyName(None, accessor, actual, customIsDefault, resolvedName) ==
        resolvedName(if naming == GS.CamelCase then GS.CamelCasePropertyNames else GS.DefaultNaming,
                     TypeExtensions.NameWithoutCache(accessor))
  {
  }

  /** The nullability of a property loaded by this service: a required `DataMember` is not considered. */
  predicate NullableProperty(typeIsNullable: bool, hasRequiredAttribute: bool, required: Required)
  {
    typeIsNullable && !hasRequiredAttribute && (required == Default || required == AllowNull)
  }

  /**
   * Where this service and the generator's own loader disagree: a nullable
   * type whose `DataMember` is required is nullable here and not there,
   * although both list it as required; otherwise they agree.
   */
  lemma DataMemberDivergence(typeIsNullable: bool, hasRequiredAttribute: bool, isDataMemberRequired: bool,
                             required: Required)
    ensures !isDataMemberRequired ==>
      NullableProperty(typeIsNullable, hasRequiredAttribute, required) ==
      SchemaGeneration.NullableProperty(typeIsNullable, hasRequiredAttribute, isDataMemberRequired, required)
    ensures isDataMemberRequired && typeIsNullable && !hasRequiredAttribute && required == Default ==>
      NullableProperty(typeIsNullable, hasRequiredAttribute, required) &&
      !SchemaGeneration.NullableProperty(typeIsNullable, hasRequiredAttribute, isDataMemberRequired, required) &&
      SchemaGeneration.RequiredByAttributes(hasRequiredAttribute, isDataMemberRequired, required)
  {
  }

  /**
   * This service's `LoadPropertyOrField`: `flatten` is the effective
   * flattening of the parent type, `property` the schema added for the
   * member. An existing name is replaced when flattening and refused
   * otherwise.
   */
  function LoadProperty(s: SchemaState, m: SchemaGeneration.MemberFacts, flatten: bool, property: PropertySchema)
    : (SchemaGeneration.LoadOutcome, SchemaState)
  {
    if m.ignored then (SchemaGeneration.Skipped, s)
    else if m.name in s.properties && !flatten then (SchemaGeneration.DefinedMultipleTimes, s)
    else
      var required :=
        if SchemaGeneration.RequiredByAttributes(m.hasRequiredAttribute, m.isDataMemberRequired, m.required)
        then s.requiredProperties + [m.name] else s.requiredProperties;
      var isNullable := NullableProperty(m.typeIsNullable, m.hasRequiredAttribute, m.required);
      (SchemaGeneration.Loaded(isNullable),
       s.(requiredProperties := required, properties := (s.properties - {m.name})[m.name := property]))
  }

  /**
   * A duplicate is refused, unchanged, exactly when the hierarchy is not
   * flattened; when it is, the new property replaces the old one under the
   * same name and the other properties are kept. The required list only
   * grows: a replaced property's earlier entry stays.
   */
  lemma FlattenReplaces(s: SchemaState, m: SchemaGeneration.MemberFacts, flatten: bool, property: PropertySchema)
    ensures var (outcome, r) := LoadProperty(s, m, flatten, property);
      (outcome.DefinedMultipleTimes? <==> !m.ignored && m.name in s.properties && !flatten) &&
      (!outcome.Loaded? ==> r == s) &&
      (outcome.Loaded? ==>
         r.properties.Keys == s.properties.Keys + {m.name} && r.properties[m.name] == property &&
         (forall k :: k in s.properties && k != m.name ==> r.properties[k] == s.properties[k]) &&
         s.requiredProperties <= r.requiredProperties &&
         (m.name in r.requiredProperties[|s.requiredProperties|..] <==>
            SchemaGeneration.RequiredByAttributes(m.hasRequiredAttribute, m.isDataMemberRequired, m.required)) &&
         r == s.(requiredProperties := r.requiredProperties, properties := r.properties))
  {
    var (outcome, r) := LoadProperty(s, m, flatten, property);
    if outcome.Loaded? {
      assert r.properties.Keys == (s.properties.Keys - {m.name}) + {m.name};
    }
  }

  /** `LoadPropertyOrField`, with the schema `AddProperty` generates for the member given as `property`. */
  method LoadPropertyOrField(parent: SchemaRecord, m: SchemaGeneration.MemberFacts, flatten: bool,
                             property: PropertySchema)
    returns (outcome: SchemaGeneration.LoadOutcome)
    modifies parent
    ensures (outcome, parent.State()) == LoadProperty(old(parent.State()), m, flatten, property)
  {
    if m.ignored {
      return SchemaGeneration.Skipped;
    }
    ghost var before := parent.properties;
    if m.name in parent.properties {
      if flatten {
        parent.properties := parent.properties - {m.name};
      } else {
        return SchemaGeneration.DefinedMultipleTimes;
      }
    }
    if SchemaGeneration.RequiredByAttributes(m.hasRequiredAttribute, m.isDataMemberRequired, m.required) {
      parent.requiredProperties := parent.requiredProperties + [m.name];
    }
    var isNullable := m.typeIsNullable && !m.hasRequiredAttribute &&
      (m.required == Default || m.required == AllowNull);
    parent.properties := parent.properties[m.name := property];
    assert parent.properties == (before - {m.name})[m.name := property];
    return SchemaGeneration.Loaded(isNullable);
  }

  /** A contract property's `ShouldSerialize` predicate: absent, answering, or throwing. */
  datatype ShouldSerialize = NoPredicate | Returns(answer: bool) | Throws

  /** A property of the type's `JsonObjectContract`. */
  datatype ContractProperty = ContractProperty(declaredOnType: bool, shouldSerialize: ShouldSerialize,
                                               underlyingName: string)

  /** A property or field accessor of the type, already restricted to those declared on it. */
  datatype Accessor = Accessor(name: string, isAbstract: bool)

  /** `ShouldSerialize?.Invoke(null) != false`, an exception counting as true. */
  predicate Serializes(p: ContractProperty) {
    p.shouldSerialize != Returns(false)
  }

  /** `FirstOrDefault(p => p.Name == name)`. */
  function FirstNamed(accessors: seq<Accessor>, name: string): (r: Option<Accessor>)
    ensures r.Some? ==> r.value in accessors && r.value.name == name
    ensures r.None? <==> forall a :: a in accessors ==> a.name != name
    ensures r.Some? ==>
              exists k :: 0 <= k < |accessors| && accessors[k] == r.value &&
                          forall j :: 0 <= j < k ==> accessors[j].name != name
  {
    if accessors == [] then None
    else if accessors[0].name == name then Some(accessors[0])
    else FirstNamed(accessors[1..], name)
  }

  /** The accessor a contract property is loaded through, if it is loaded at all. */
  function Admitted(p: ContractProperty, accessors: seq<Accessor>, generateAbstractProperties: bool)
    : Option<Accessor>
  {
    if !p.declaredOnType || !Serializes(p) then None
    else
      var a := FirstNamed(accessors, p.underlyingName);
      if a.Some? && (generateAbstractProperties || !a.value.isAbstract) then a else None
  }

  /** The (property, accessor) pairs loaded, in contract order. */
  function Selected(props: seq<ContractProperty>, accessors: seq<Accessor>, generateAbstractProperties: bool)
    : seq<(ContractProperty, Accessor)>
  {
    if props == [] then []
    else
      var rest := Selected(props[..|props| - 1], accessors, generateAbstractProperties);
      var p := props[|props| - 1];
      match Admitted(p, accessors, generateAbstractProperties)
      case Some(a) => rest + [(p, a)]
      case None => rest
  }

  /**
   * A pair is loaded exactly when its property is declared on the type
   * itself, does not refuse serialisation, finds an accessor of its
   * underlying name (the first one), and that accessor is not abstract
   * unless abstract properties are generated.
   */
  lemma {:induction false} SelectedIff(props: seq<ContractProperty>, accessors: seq<Accessor>,
                                       generateAbstractProperties: bool, p: ContractProperty, a: Accessor)
    ensures (p, a) in Selected(props, accessors, generateAbstractProperties) <==>
      p in props && p.declaredOnType && Serializes(p) &&
      FirstNamed(accessors, p.underlyingName) == Some(a) &&
      (generateAbstractProperties || !a.isAbstract)
  {
    if props != [] {
      SelectedIff(props[..|props| - 1], accessors, generateAbstractProperties, p, a);
      assert props == props[..|props| - 1] + [props[|props| - 1]];
    }
  }

  /**
   * The loop of `GenerateProperties` over an object contract: the pairs on
   * which `LoadPropertyOrField` is called, in order.
   */
  method PropertiesToLoad(props: seq<ContractProperty>, accessors: seq<Accessor>, generateAbstractProperties: bool)
    returns (selected: seq<(ContractProperty, Accessor)>)
    ensures selected == Selected(props, accessors, generateAbstractProperties)
  {
    selected := [];
    var i := 0;
    while i < |props|
      invariant 0 <= i <= |props|
      invariant selected == Selected(props[..i], accessors, generateAbstractProperties)
    {
      var p := props[i];
      assert props[..i + 1][..i] == props[..i];
      if p.declaredOnType {
        var shouldSerialize := p.shouldSerialize != Returns(false);
        if shouldSerialize {
          var accessor := FirstNamed(accessors, p.underlyingName);
          if accessor.Some? && (generateAbstractProperties || !accessor.value.isAbstract) {
            selected := selected + [(p, accessor.value)];
          }
        }
      }
      i := i + 1;
    }
    assert props[..|props|] == props;
  }
}
