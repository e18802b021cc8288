/**
 * `JsonSchemaGeneratorSettings`: the flags the schema generator reads, the
 * per-type overrides of two of them by attributes, the contract cache, and
 * the derivation of the actual contract resolver and serializer settings from
 * the four settings that can each configure them.
 */
module GeneratorSettings {
  import opened JsonModel

  /** `SchemaType`: the dialect generated. */
  datatype SchemaType = JsonSchema | Swagger2 | OpenApi3

  /** `EnumHandling`. */
  datatype EnumHandling = Integer | String | CamelCaseString

  /** `PropertyNameHandling`. */
  datatype PropertyNameHandling = Default | CamelCase | SnakeCase

  /** A contract resolver: one supplied by the user, or one of the three the settings create. */
  datatype Resolver =
    | CustomResolver(id: nat)
    | CamelCasePropertyNames          // `CamelCasePropertyNamesContractResolver`
    | SnakeCaseNaming                 // `DefaultContractResolver` with `SnakeCaseNamingStrategy`
    | DefaultNaming                   // `DefaultContractResolver`

  /** A `JsonConverter` in `Converters`: a `StringEnumConverter` with its camel-case flag, or any other. */
  datatype Converter = StringEnumConverter(camelCaseText: bool) | OtherConverter(id: nat)

  /**
   * User-supplied `JsonSerializerSettings`, identified by `id`, with its
   * (possibly null) resolver and the converters the user registered.
   */
  datatype SerializerSettings = SerializerSettings(id: nat, contractResolver: Option<Resolver>,
                                                   converters: seq<Converter>)

  /** `ActualSerializerSettings`: the user's settings object, or one built from the other settings. */
  datatype JsonSettings =
    | Supplied(settings: SerializerSettings)
    | Built(contractResolver: Option<Resolver>, converters: seq<Converter>)

  /** The resolver an `ActualSerializerSettings` carries. */
  function SettingsResolver(j: JsonSettings): Option<Resolver>
  {
    match j
    case Supplied(s) => s.contractResolver
    case Built(r, _) => r
  }

  /** The `Converters` of an `ActualSerializerSettings`. */
  function SettingsConverters(j: JsonSettings): seq<Converter>
  {
    match j
    case Supplied(s) => s.converters
    case Built(_, cs) => cs
  }

  /** `Converters.OfType<StringEnumConverter>().Any()`. */
  predicate HasStringEnumConverter(j: JsonSettings)
  {
    exists i :: 0 <= i < |SettingsConverters(j)| && SettingsConverters(j)[i].StringEnumConverter?
  }

  /** The three `InvalidOperationException`s of a misconfiguration. */
  datatype ConfigError =
    | NamingWithCustomResolution       // DefaultPropertyNameHandling with ContractResolver or SerializerSettings
    | ResolverWithSerializerSettings   // ContractResolver with SerializerSettings
    | EnumHandlingWithSerializerSettings

  datatype Outcome<T> = Chosen(value: T) | Conflict(error: ConfigError)

  /** The `ActualContractResolver` that `UpdateActualContractResolverAndSerializerSettings` chooses. */
  function ChooseResolver(ss: Option<SerializerSettings>, cr: Option<Resolver>,
                          naming: PropertyNameHandling): Outcome<Option<Resolver>>
  {
    if ss.Some? then
      if naming != Default then Conflict(NamingWithCustomResolution)
      else if cr.Some? then Conflict(ResolverWithSerializerSettings)
      else Chosen(ss.value.contractResolver)
    else if cr.Some? then
      if naming != Default then Conflict(NamingWithCustomResolution)
      else Chosen(cr)
    else if naming == CamelCase then Chosen(Some(CamelCasePropertyNames))
    else if naming == SnakeCase then Chosen(Some(SnakeCaseNaming))
    else Chosen(Some(DefaultNaming))
  }

  /** The `ActualSerializerSettings` that `UpdateActualSerializerSettings` chooses, given the actual resolver. */
  function ChooseSerializerSettings(ss: Option<SerializerSettings>, cr: Option<Resolver>,
                                    naming: PropertyNameHandling, enums: EnumHandling,
                                    actualResolver: Option<Resolver>): Outcome<JsonSettings>
  {
    if ss.Some? then
      if naming != Default then Conflict(NamingWithCustomResolution)
      else if cr.Some? then Conflict(ResolverWithSerializerSettings)
      else if enums != Integer then Conflict(EnumHandlingWithSerializerSettings)
      else Chosen(Supplied(ss.value))
    else
      Chosen(Built(actualResolver, if enums == String then [StringEnumConverter(false)]
                                   else if enums == CamelCaseString then [StringEnumConverter(true)]
                                   else []))
  }

  /**
   * The resolver is refused exactly for the three conflicting combinations,
   * and a naming conflict is the one reported when two apply.
   */
  lemma ResolverConflicts(ss: Option<SerializerSettings>, cr: Option<Resolver>, naming: PropertyNameHandling)
    ensures ChooseResolver(ss, cr, naming).Conflict? <==>
      (ss.Some? && naming != Default) || (ss.Some? && cr.Some?) || (cr.Some? && naming != Default)
    ensures (ss.Some? || cr.Some?) && naming != Default ==>
      ChooseResolver(ss, cr, naming) == Conflict(NamingWithCustomResolution)
  {
  }

  /** A resolver source in priority order: unconfigured, or configured with a (possibly null) resolver. */
  function Sources(ss: Option<SerializerSettings>, cr: Option<Resolver>,
                   naming: PropertyNameHandling): seq<Option<Option<Resolver>>>
  {
    [if ss.Some? then Some(ss.value.contractResolver) else None,
     if cr.Some? then Some(cr) else None,
     if naming == CamelCase then Some(Some(CamelCasePropertyNames)) else None,
     if naming == SnakeCase then Some(Some(SnakeCaseNaming)) else None,
     Some(Some(DefaultNaming))]
  }

  /** The resolver of the first configured source. */
  function FirstConfigured(sources: seq<Option<Option<Resolver>>>): Option<Resolver>
  {
    if sources == [] then None
    else if sources[0].Some? then sources[0].value
    else FirstConfigured(sources[1..])
  }

  /**
   * Precedence: without a conflict, the actual resolver is that of the first
   * configured source among the serializer settings, the contract resolver,
   * camel case, snake case and the default.
   */
  lemma ResolverPrecedence(ss: Option<SerializerSettings>, cr: Option<Resolver>, naming: PropertyNameHandling)
    requires ChooseResolver(ss, cr, naming).Chosen?
    ensures ChooseResolver(ss, cr, naming).value == FirstConfigured(Sources(ss, cr, naming))
  {
    var s := Sources(ss, cr, naming);
    if ss.None? && cr.None? {
      assert FirstConfigured(s) == FirstConfigured(s[2..]);
      if naming != CamelCase {
        assert FirstConfigured(s[2..]) == FirstConfigured(s[3..]);
        if naming != SnakeCase {
          assert FirstConfigured(s[3..]) == FirstConfigured(s[4..]);
        }
      }
    } else if ss.None? {
      assert FirstConfigured(s) == FirstConfigured(s[1..]);
    }
  }

  /**
   * After a full update that succeeds, the actual serializer settings carry
   * the actual contract resolver; once the resolver is chosen, only the enum
   * handling can still be refused.
   */
  lemma SettingsAgree(ss: Option<SerializerSettings>, cr: Option<Resolver>, naming: PropertyNameHandling,
                      enums: EnumHandling)
    requires ChooseResolver(ss, cr, naming).Chosen?
    ensures var r := ChooseResolver(ss, cr, naming).value;
      var j := ChooseSerializerSettings(ss, cr, naming, enums, r);
      (j.Chosen? ==> SettingsResolver(j.value) == r) &&
      (j.Conflict? <==> ss.Some? && enums != Integer) &&
      (j.Conflict? ==> j.error == EnumHandlingWithSerializerSettings)
  {
  }

  /**
   * Without user serializer settings, the built settings hold a string enum
   * converter exactly when enums are not written as integers, and it is the
   * camel-case one exactly for `CamelCaseString`.
   */
  lemma EnumConverters(cr: Option<Resolver>, naming: PropertyNameHandling, enums: EnumHandling,
                       actualResolver: Option<Resolver>)
    ensures var j := ChooseSerializerSettings(None, cr, naming, enums, actualResolver);
      j.Chosen? && j.value.Built? && |j.value.converters| <= 1 &&
      (HasStringEnumConverter(j.value) <==> enums != Integer) &&
      (forall c :: c in j.value.converters ==>
         c.StringEnumConverter? && (c.camelCaseText <==> enums == CamelCaseString))
  {
    var j := ChooseSerializerSettings(None, cr, naming, enums, actualResolver);
    assert SettingsConverters(j.value) == j.value.converters;
    if enums != Integer {
      assert j.value.converters[0].StringEnumConverter?;
    }
  }

  /**
   * `TryGetPropertyValue(name, true) == true` on an optional attribute:
   * `None` is no attribute, `Some(None)` an attribute without the property.
   */
  predicate AttributeSays(attribute: Option<Option<bool>>)
  {
    attribute.Some? && (attribute.value.None? || attribute.value.value)
  }

  /**
   * `GetActualGenerateAbstractSchema` and `GetActualFlattenInheritanceHierarchy` share one rule:
   * a `JsonSchemaAbstract` (resp. `JsonSchemaFlatten`) attribute overrides the global flag
   * `GenerateAbstractSchemas` (resp. `FlattenInheritanceHierarchy`).
   */
  function ActualAttributeSetting(globalSetting: bool, attribute: Option<Option<bool>>): (r: bool)
    ensures attribute.None? ==> r == globalSetting
    ensures attribute.Some? ==> (r <==> attribute.value != Some(false))
  {
    (globalSetting && attribute.None?) || AttributeSays(attribute)
  }

  /** A `JsonContract`, identified by what the resolver returned. */
  datatype Contract = Contract(id: nat)

  predicate NoDuplicates(xs: seq<string>)
  {
    forall i, j :: 0 <= i < j < |xs| ==> xs[i] != xs[j]
  }

  /**
   * The outcome of `ResolveContract`: the (possibly null) contract, or the
   * `NullReferenceException` of calling a null actual resolver.
   */
  datatype Resolution = Resolved(contract: Option<Contract>) | NullResolver

  /**
   * `ResolveContract` on the cache as a value: the outcome and the cache
   * afterwards. An unseen key of a type that is not a generic type definition
   * is resolved by the actual resolver, which throws when that is null.
   */
  function CacheLookup(cache: map<string, Option<Contract>>, key: Option<string>, isGenericTypeDefinition: bool,
                       actual: Option<Resolver>, resolve: (Resolver, string) -> Contract)
    : (Resolution, map<string, Option<Contract>>)
  {
    if key.None? then (Resolved(None), cache)
    else if key.value in cache then (Resolved(cache[key.value]), cache)
    else if isGenericTypeDefinition then (Resolved(None), cache[key.value := None])
    else if actual.None? then (NullResolver, cache)
    else
      var c := Some(resolve(actual.value, key.value));
      (Resolved(c), cache[key.value := c])
  }

  /**
   * A lookup fails exactly when it has to call a null actual resolver, and a
   * failed lookup stores nothing.
   */
  lemma LookupFails(cache: map<string, Option<Contract>>, key: Option<string>, generic: bool,
                    actual: Option<Resolver>, resolve: (Resolver, string) -> Contract)
    ensures var (r, cache1) := CacheLookup(cache, key, generic, actual, resolve);
      (r.NullResolver? <==> key.Some? && key.value !in cache && !generic && actual.None?) &&
      (r.NullResolver? ==> cache1 == cache)
  {
  }

  /**
   * Memoisation: after a successful lookup, looking the same key up again
   * returns the same contract and leaves the cache as it is, whatever resolver
   * is then in use.
   */
  lemma LookupMemoised(cache: map<string, Option<Contract>>, key: Option<string>, generic: bool,
                       actual: Option<Resolver>, resolve: (Resolver, string) -> Contract,
                       generic2: bool, actual2: Option<Resolver>,
                       resolve2: (Resolver, string) -> Contract)
    ensures var (r, cache1) := CacheLookup(cache, key, generic, actual, resolve);
      r.Resolved? ==> CacheLookup(cache1, key, generic2, actual2, resolve2) == (r, cache1)
  {
  }

  /** `JsonSchemaGeneratorSettings`, with the fields the generator reads. */
  class Settings {
    var schemaType: SchemaType
    var generateAbstractSchemas: bool
    var generateAbstractProperties: bool
    var flattenInheritanceHierarchy: bool
    var allowReferencesWithProperties: bool
    var generateCustomNullableProperties: bool
    var generateEnumMappingDescription: bool

    var defaultEnumHandling: EnumHandling
    var defaultPropertyNameHandling: PropertyNameHandling
    var serializerSettings: Option<SerializerSettings>
    var contractResolver: Option<Resolver>

    var actualContractResolver: Option<Resolver>
    var actualSerializerSettings: JsonSettings

    var cachedContracts: map<string, Option<Contract>>
    /** The keys handed to the resolver since the cache was last discarded, in order. */
    ghost var resolvedKeys: seq<string>

    /** Each key is handed to the resolver at most once, and then stays cached. */
    ghost predicate ResolvedOnce()
      reads this
    {
      NoDuplicates(resolvedKeys) && forall k :: k in resolvedKeys ==> k in cachedContracts
    }

    /**
     * The state after `UpdateActualContractResolverAndSerializerSettings`
     * from actual values `r0` and `j0`: the cache is discarded; on a conflict
     * the exception leaves what was not yet assigned unchanged.
     */
    predicate FullyUpdated(r0: Option<Resolver>, j0: JsonSettings, error: Option<ConfigError>)
      reads this
    {
      cachedContracts == map[] &&
      match ChooseResolver(serializerSettings, contractResolver, defaultPropertyNameHandling)
      case Conflict(e) =>
        error == Some(e) && actualContractResolver == r0 && actualSerializerSettings == j0
      case Chosen(r) =>
        actualContractResolver == r &&
        match ChooseSerializerSettings(serializerSettings, contractResolver, defaultPropertyNameHandling,
                                       defaultEnumHandling, r)
        case Conflict(e) => error == Some(e) && actualSerializerSettings == j0
        case Chosen(j) => error == None && actualSerializerSettings == j
    }

    /** The state after `UpdateActualSerializerSettings` from actual settings `j0`. */
    predicate SerializerUpdated(j0: JsonSettings, error: Option<ConfigError>)
      reads this
    {
      match ChooseSerializerSettings(serializerSettings, contractResolver, defaultPropertyNameHandling,
                                     defaultEnumHandling, actualContractResolver)
      case Conflict(e) => error == Some(e) && actualSerializerSettings == j0
      case Chosen(j) => error == None && actualSerializerSettings == j
    }

    /** The constructor's defaults; assigning the three obsolete settings runs the updates. */
    constructor ()
      ensures schemaType == JsonSchema && generateAbstractSchemas
      ensures !generateAbstractProperties && !flattenInheritanceHierarchy && !allowReferencesWithProperties
      ensures !generateCustomNullableProperties && !generateEnumMappingDescription
      ensures defaultEnumHandling == Integer && defaultPropertyNameHandling == Default
      ensures serializerSettings == None && contractResolver == None
      ensures actualContractResolver == Some(DefaultNaming)
      ensures actualSerializerSettings == Built(Some(DefaultNaming), [])
      ensures cachedContracts == map[] && ResolvedOnce()
    {
      schemaType := JsonSchema;
      generateAbstractSchemas := true;
      generateAbstractProperties := false;
      flattenInheritanceHierarchy := false;
      allowReferencesWithProperties := false;
      generateCustomNullableProperties := false;
      generateEnumMappingDescription := false;
      defaultEnumHandling := Integer;
      defaultPropertyNameHandling := Default;
      serializerSettings := None;
      contractResolver := None;
      actualContractResolver := None;
      actualSerializerSettings := Built(None, []);
      cachedContracts := map[];
      resolvedKeys := [];
      new;
      var error := SetDefaultEnumHandling(Integer);
      error := SetDefaultPropertyNameHandling(Default);
      error := SetContractResolver(None);
    }

    method UpdateActualContractResolverAndSerializerSettings() returns (error: Option<ConfigError>)
      modifies this
      ensures FullyUpdated(old(actualContractResolver), old(actualSerializerSettings), error)
      ensures resolvedKeys == [] && ResolvedOnce()
      ensures serializerSettings == old(serializerSettings) && contractResolver == old(contractResolver)
      ensures defaultPropertyNameHandling == old(defaultPropertyNameHandling)
      ensures defaultEnumHandling == old(defaultEnumHandling)
      ensures schemaType == old(schemaType) && generateAbstractSchemas == old(generateAbstractSchemas)
      ensures generateAbstractProperties == old(generateAbstractProperties)
      ensures flattenInheritanceHierarchy == old(flattenInheritanceHierarchy)
      ensures allowReferencesWithProperties == old(allowReferencesWithProperties)
      ensures generateCustomNullableProperties == old(generateCustomNullableProperties)
      ensures generateEnumMappingDescription == old(generateEnumMappingDescription)
    {
      cachedContracts := map[];
      resolvedKeys := [];
      if serializerSettings.Some? {
        if defaultPropertyNameHandling != Default {
          return Some(NamingWithCustomResolution);
        }
        if contractResolver.Some? {
          return Some(ResolverWithSerializerSettings);
        }
        actualContractResolver := serializerSettings.value.contractResolver;
      } else if contractResolver.Some? {
        if defaultPropertyNameHandling != Default {
          return Some(NamingWithCustomResolution);
        }
        actualContractResolver := contractResolver;
      } else if defaultPropertyNameHandling == CamelCase {
        actualContractResolver := Some(CamelCasePropertyNames);
      } else if defaultPropertyNameHandling == SnakeCase {
        actualContractResolver := Some(SnakeCaseNaming);
      } else {
        actualContractResolver := Some(DefaultNaming);
      }
      error := UpdateActualSerializerSettings();
    }

    method UpdateActualSerializerSettings() returns (error: Option<ConfigError>)
      modifies this
      ensures SerializerUpdated(old(actualSerializerSettings), error)
      ensures actualContractResolver == old(actualContractResolver)
      ensures cachedContracts == old(cachedContracts) && resolvedKeys == old(resolvedKeys)
      ensures serializerSettings == old(serializerSettings) && contractResolver == old(contractResolver)
      ensures defaultPropertyNameHandling == old(defaultPropertyNameHandling)
      ensures defaultEnumHandling == old(defaultEnumHandling)
      ensures schemaType == old(schemaType) && generateAbstractSchemas == old(generateAbstractSchemas)
      ensures generateAbstractProperties == old(generateAbstractProperties)
      ensures flattenInheritanceHierarchy == old(flattenInheritanceHierarchy)
      ensures allowReferencesWithProperties == old(allowReferencesWithProperties)
      ensures generateCustomNullableProperties == old(generateCustomNullableProperties)
      ensures generateEnumMappingDescription == old(generateEnumMappingDescription)
    {
      if serializerSettings.Some? {
        if defaultPropertyNameHandling != Default {
          return Some(NamingWithCustomResolution);
        }
        if contractResolver.Some? {
          return Some(ResolverWithSerializerSettings);
        }
        if defaultEnumHandling != Integer {
          return Some(EnumHandlingWithSerializerSettings);
        }
        actualSerializerSettings := Supplied(serializerSettings.value);
      } else {
        var converters := [];
        if defaultEnumHandling == String {
          converters := converters + [StringEnumConverter(false)];
        } else if defaultEnumHandling == CamelCaseString {
          converters := converters + [StringEnumConverter(true)];
        }
        actualSerializerSettings := Built(actualContractResolver, converters);
      }
      return None;
    }

    /** The `SerializerSettings` setter. */
    method SetSerializerSettings(value: Option<SerializerSettings>) returns (error: Option<ConfigError>)
      modifies this
      ensures serializerSettings == value
      ensures contractResolver == old(contractResolver)
      ensures defaultPropertyNameHandling == old(defaultPropertyNameHandling)
      ensures defaultEnumHandling == old(defaultEnumHandling)
      ensures schemaType == old(schemaType) && generateAbstractSchemas == old(generateAbstractSchemas)
      ensures generateAbstractProperties == old(generateAbstractProperties)
      ensures flattenInheritanceHierarchy == old(flattenInheritanceHierarchy)
      ensures allowReferencesWithProperties == old(allowReferencesWithProperties)
      ensures generateCustomNullableProperties == old(generateCustomNullableProperties)
      ensures generateEnumMappingDescription == old(generateEnumMappingDescription)
      ensures FullyUpdated(old(actualContractResolver), old(actualSerializerSettings), error)
      ensures ResolvedOnce()
    {
      serializerSettings := value;
      error := UpdateActualContractResolverAndSerializerSettings();
    }

    /** The `ContractResolver` setter. */
    method SetContractResolver(value: Option<Resolver>) returns (error: Option<ConfigError>)
      modifies this
      ensures contractResolver == value
      ensures serializerSettings == old(serializerSettings)
      ensures defaultPropertyNameHandling == old(defaultPropertyNameHandling)
      ensures defaultEnumHandling == old(defaultEnumHandling)
      ensures schemaType == old(schemaType) && generateAbstractSchemas == old(generateAbstractSchemas)
      ensures generateAbstractProperties == old(generateAbstractProperties)
      ensures flattenInheritanceHierarchy == old(flattenInheritanceHierarchy)
      ensures allowReferencesWithProperties == old(allowReferencesWithProperties)
      ensures generateCustomNullableProperties == old(generateCustomNullableProperties)
      ensures generateEnumMappingDescription == old(generateEnumMappingDescription)
      ensures FullyUpdated(old(actualContractResolver), old(actualSerializerSettings), error)
      ensures ResolvedOnce()
    {
      contractResolver := value;
      error := UpdateActualContractResolverAndSerializerSettings();
    }

    /** The `DefaultPropertyNameHandling` setter. */
    method SetDefaultPropertyNameHandling(value: PropertyNameHandling) returns (error: Option<ConfigError>)
      modifies this
      ensures defaultPropertyNameHandling == value
      ensures serializerSettings == old(serializerSettings) && contractResolver == old(contractResolver)
      ensures defaultEnumHandling == old(defaultEnumHandling)
      ensures schemaType == old(schemaType) && generateAbstractSchemas == old(generateAbstractSchemas)
      ensures generateAbstractProperties == old(generateAbstractProperties)
      ensures flattenInheritanceHierarchy == old(flattenInheritanceHierarchy)
      ensures allowReferencesWithProperties == old(allowReferencesWithProperties)
      ensures generateCustomNullableProperties == old(generateCustomNullableProperties)
      ensures generateEnumMappingDescription == old(generateEnumMappingDescription)
      ensures FullyUpdated(old(actualContractResolver), old(actualSerializerSettings), error)
      ensures ResolvedOnce()
    {
      defaultPropertyNameHandling := value;
      error := UpdateActualContractResolverAndSerializerSettings();
    }

    /** The `DefaultEnumHandling` setter: only the serializer settings are derived again. */
    method SetDefaultEnumHandling(value: EnumHandling) returns (error: Option<ConfigError>)
      modifies this
      ensures defaultEnumHandling == value
      ensures serializerSettings == old(serializerSettings) && contractResolver == old(contractResolver)
      ensures defaultPropertyNameHandling == old(defaultPropertyNameHandling)
      ensures actualContractResolver == old(actualContractResolver)
      ensures cachedContracts == old(cachedContracts) && resolvedKeys == old(resolvedKeys)
      ensures schemaType == old(schemaType) && generateAbstractSchemas == old(generateAbstractSchemas)
      ensures generateAbstractProperties == old(generateAbstractProperties)
      ensures flattenInheritanceHierarchy == old(flattenInheritanceHierarchy)
      ensures allowReferencesWithProperties == old(allowReferencesWithProperties)
      ensures generateCustomNullableProperties == old(generateCustomNullableProperties)
      ensures generateEnumMappingDescription == old(generateEnumMappingDescription)
      ensures SerializerUpdated(old(actualSerializerSettings), error)
    {
      defaultEnumHandling := value;
      error := UpdateActualSerializerSettings();
    }

    /**
     * `ResolveContract(type)`, with the type given by its `FullName` and
     * whether it is a generic type definition; the actual resolver's
     * `ResolveContract` is `resolve`.
     */
    method ResolveContract(key: Option<string>, isGenericTypeDefinition: bool,
                           resolve: (Resolver, string) -> Contract)
      returns (r: Resolution)
      requires ResolvedOnce()
      modifies this`cachedContracts, this`resolvedKeys
      ensures (r, cachedContracts) ==
        CacheLookup(old(cachedContracts), key, isGenericTypeDefinition, actualContractResolver, resolve)
      ensures resolvedKeys ==
        if key.Some? && key.value !in old(cachedContracts) && !isGenericTypeDefinition && actualContractResolver.Some?
        then old(resolvedKeys) + [key.value] else old(resolvedKeys)
      ensures ResolvedOnce()
    {
      if key.None? {
        return Resolved(None);
      }
      var k := key.value;
      if k !in cachedContracts {
        if !isGenericTypeDefinition {
          if actualContractResolver.None? {
            // `ActualContractResolver.ResolveContract(type)` on a null resolver.
            return NullResolver;
          }
          cachedContracts := cachedContracts[k := Some(resolve(actualContractResolver.value, k))];
          resolvedKeys := resolvedKeys + [k];
        } else {
          cachedContracts := cachedContracts[k := None];
        }
      }
      r := Resolved(cachedContracts[k]);
    }
  }
}
