# NJsonSchema core, modelled in Dafny

This project models the core of NJsonSchema, a .NET library for JSON Schema. It has three parts.

1. **Instance validation.** `JsonSchemaValidator` validates a JSON token (a Newtonsoft `JToken`) against a schema. It returns a list of `ValidationError`s. Composite rules wrap their sub-results in a `ChildSchemaValidationError`, which maps each sub-schema to its own error list.
   - The schema is a finite tree, already dereferenced through `ActualSchema` (module `SchemaModel`).
   - The token keeps integers and floats apart (module `JsonModel`).
   - Three modules describe this part:
     - `ValidatorSpec` gives the rules as functions.
     - `Validator` gives the imperative validator. Every check appends to the caller's list, and each method is proved to append exactly what the corresponding function says.
     - `ValidatorProperties`, `ValidatorRules` and `NestedRules` prove what each rule reports, and when.
   - The error types and their `ToString` are in module `Validation`.
2. **Schema generation decisions.** These are the choices `JsonSchemaGenerator` and `NewtonsoftJsonReflectionService` make while filling a schema object in place:
   - nullability in each dialect and `$ref` wrapping;
   - property loading: duplicates, required and nullable;
   - discriminator injection;
   - `allOf` inheritance;
   - enumeration loading;
   - length and range annotations.

   The schema object is a class (`SchemaRecords.SchemaRecord`). Each operation is a method specified by a function from its state before to its state after. What reflection would find (attributes, `Required`, type nullability) is passed in as plain values. The `JsonSchemaGeneratorSettings` rules are in module `GeneratorSettings`:
   - the derivation of the actual contract resolver and serializer settings, with their conflicts;
   - the per-type attribute overrides;
   - the contract cache.

   `TypeExtensions` covers the memoised name and the description precedence.
3. **Small utilities.**
   - `JsonPath`: the cycle-safe depth-first search of `JsonPathUtilities.GetJsonPath`.
   - `TypeScriptTypes`: the TypeScript type resolver and its registry, and the date and newable decisions of the data conversion generator.
   - `EnumNameGenerator` and `CSharpPropertyNames`: the name sanitisers.
   - `TemplateWriter`: the T4 template base with its indent stack.

Library calls that are not part of this model become parameters: any total function. These are regular expressions, date/URI/GUID parsing, `JToken.ToString()`, `JToken.Path`, `ConvertToUpperCamelCase`, the Unicode category test, and a contract resolver's `ResolveContract` and `GetResolvedPropertyName`. Such a call on a null resolver is the `NullResolver` outcome (the source's `NullReferenceException`).

## Model

| member | source | states |
|---|---|---|
| Validation.NewError | src/NJsonSchema/Validation/ValidationError.cs:18-24 | Kind and Property are the arguments. Path is "#" exactly for a null path, else "#/" + path, and the property path can be read back from it. |
| Validation.NewChildError | src/NJsonSchema/Validation/ChildSchemaValidationError.cs:22-31 | Same rules as the base class, and `Errors` is exactly the given map. |
| Validation.ToText | src/NJsonSchema/Validation/ChildSchemaValidationError.cs:41-53 | The nested `output +=` loops produce the text `Text` defines: a header, then one brace block per entry in map order, holding one indented line per error. |
| Validation.EntryText | src/NJsonSchema/Validation/ChildSchemaValidationError.cs:45-50 | The inner loop emits one line per error of the entry, each indented by two spaces with its inner newlines re-indented. |
| Validation.HeaderRoundTrip | src/NJsonSchema/Validation/ValidationError.cs:37-40 | The "{Kind}: {Path}" header can be parsed back into the kind's name and the path. |
| Validation.UnindentIndent | src/NJsonSchema/Validation/ChildSchemaValidationError.cs:48 | Re-indenting a nested error's text loses nothing: un-indenting gives the original back. |
| Validation.TextStartsWithHeader | src/NJsonSchema/Validation/ChildSchemaValidationError.cs:43 | Every error's text begins with its own "{Kind}: {Path}" header, followed by a newline for a child error. |
| Validation.ColonIndex | src/NJsonSchema/Validation/ValidationError.cs:37-40 | The index of the first ':' (used to split a header), with no ':' before it. |
| Validator.Validate | src/NJsonSchema/Validation/JsonSchemaValidator.cs:34-47 | Returns exactly `ValidatorSpec.Validate`: anyOf, allOf, oneOf, not, type, enum and property errors, in that order. |
| Validator.ValidateAnyOf | src/NJsonSchema/Validation/JsonSchemaValidator.cs:89-97 | Appends exactly the anyOf errors that ValidatorSpec defines (see AnyOfReports). |
| Validator.ValidateAllOf | src/NJsonSchema/Validation/JsonSchemaValidator.cs:99-107 | Appends exactly the allOf errors that ValidatorSpec defines (see AllOfReports). |
| Validator.ValidateOneOf | src/NJsonSchema/Validation/JsonSchemaValidator.cs:109-117 | Appends exactly the oneOf errors that ValidatorSpec defines (see OneOfReports). |
| Validator.ValidateNot | src/NJsonSchema/Validation/JsonSchemaValidator.cs:119-126 | Appends exactly the not errors that ValidatorSpec defines (see NotReports). |
| Validator.ValidateBranches | src/NJsonSchema/Validation/JsonSchemaValidator.cs:93 | The `ToDictionary` loop builds the branch map: entry i is sub-schema i with its own errors. |
| Validator.ValidateType | src/NJsonSchema/Validation/JsonSchemaValidator.cs:49-87 | Appends exactly the type errors that ValidatorSpec defines (see TypeUnion). |
| Validator.ValidatePerFlag | src/NJsonSchema/Validation/JsonSchemaValidator.cs:51-63 | The loop over the flags yields one list per flag, each from the checks run with that flag alone. |
| Validator.ValidateNull | src/NJsonSchema/Validation/JsonSchemaValidator.cs:128-135 | Appends NullExpected exactly when the flag is Null and the token is not null. |
| Validator.ValidateEnum | src/NJsonSchema/Validation/JsonSchemaValidator.cs:137-141 | Appends exactly the enumeration errors that ValidatorSpec defines (see EnumAccepts); a null entry is compared by its rendering (see "## Left out"). |
| Validator.ValidateString | src/NJsonSchema/Validation/JsonSchemaValidator.cs:143-240 | Appends the pattern, length, format and StringExpected errors that ValidatorSpec defines, in source order. |
| Validator.ValidateFormat | src/NJsonSchema/Validation/JsonSchemaValidator.cs:166-232 | Appends the error of the one format check that applies (date-time, uri, email, ipv4, ipv6, guid, hostname, byte/base64). |
| Validator.ValidateNumber | src/NJsonSchema/Validation/JsonSchemaValidator.cs:242-263 | Appends NumberExpected and the bound errors that ValidatorSpec defines (see NumberBounds). |
| Validator.ValidateBounds | src/NJsonSchema/Validation/JsonSchemaValidator.cs:250-262 | Appends exactly the minimum, maximum and multipleOf errors that ValidatorSpec defines for the value (see BoundReports). |
| Validator.ValidateInteger | src/NJsonSchema/Validation/JsonSchemaValidator.cs:265-272 | Appends IntegerExpected exactly when the flag is Integer and the token is not an integer. |
| Validator.ValidateBoolean | src/NJsonSchema/Validation/JsonSchemaValidator.cs:274-281 | Appends BooleanExpected exactly when the flag is Boolean and the token is not a boolean. |
| Validator.ValidateObject | src/NJsonSchema/Validation/JsonSchemaValidator.cs:283-291 | Appends ObjectExpected exactly when the flag is Object and the token is not an object. |
| Validator.ValidateProperties | src/NJsonSchema/Validation/JsonSchemaValidator.cs:293-323 | Appends exactly the property errors that ValidatorSpec defines: the declared properties, then the member checks of an object. |
| Validator.ValidateDeclared | src/NJsonSchema/Validation/JsonSchemaValidator.cs:296-309 | The loop over the declared properties appends each one's errors in declaration order (see DeclaredErrorCases). |
| Validator.ValidateDeclaredProperty | src/NJsonSchema/Validation/JsonSchemaValidator.cs:296-309 | Appends exactly one declared property's errors: its value's errors when present, PropertyRequired when absent and required (see DeclaredErrorCases). |
| Validator.ValidateMembers | src/NJsonSchema/Validation/JsonSchemaValidator.cs:311-322 | Appends the property-count, pattern-property and additional-property errors (see MemberParts). |
| Validator.ValidatePatternProperties | src/NJsonSchema/Validation/JsonSchemaValidator.cs:337-353 | Appends the pattern errors and leaves in the additional list exactly the members that no pattern matched. |
| Validator.ValidatePatternProperty | src/NJsonSchema/Validation/JsonSchemaValidator.cs:341-350 | Reports whether a pattern matched the member, and appends the error of its first matching pattern (see PatternReported). |
| Validator.ValidateAdditionalProperties | src/NJsonSchema/Validation/JsonSchemaValidator.cs:355-379 | Appends exactly the additional-property errors that ValidatorSpec defines for the remaining members. |
| Validator.ValidateAdditionalSchema | src/NJsonSchema/Validation/JsonSchemaValidator.cs:358-366 | Appends each remaining member's AdditionalPropertiesNotValid error against the additional-properties schema (see AdditionalSchemaReported). |
| Validator.ValidateArray | src/NJsonSchema/Validation/JsonSchemaValidator.cs:381-415 | Appends ArrayExpected, the count and uniqueness errors, and the element errors that ValidatorSpec defines. |
| Validator.ValidateCounts | src/NJsonSchema/Validation/JsonSchemaValidator.cs:386-393 | Appends exactly the minItems, maxItems and uniqueItems errors that ValidatorSpec defines (see ItemCounts). |
| Validator.ValidateItems | src/NJsonSchema/Validation/JsonSchemaValidator.cs:395-411 | The loop over the indices appends each element's errors in index order. |
| Validator.ValidateItem | src/NJsonSchema/Validation/JsonSchemaValidator.cs:398-410 | One iteration of the element loop: appends the element's ArrayItemNotValid error against the item schema, then its tuple and additional-item errors (see ItemReported and TupleItemReported). |
| Validator.ValidateAdditionalItems | src/NJsonSchema/Validation/JsonSchemaValidator.cs:417-448 | Appends the tuple-overflow or additional-item errors that ValidatorSpec defines for one element. |
| Validator.TryCreateChildSchemaError | src/NJsonSchema/Validation/JsonSchemaValidator.cs:450-466 | Returns exactly the child error ValidatorSpec defines (see ChildErrorOnlyWhenFailing). |
| ValidatorSpec.Check | src/NJsonSchema/Validation/JsonSchemaValidator.cs:128-135 | `if (cond) errors.Add(...)`: one error of the given kind exactly when the condition holds. |
| ValidatorSpec.FirstPattern | src/NJsonSchema/Validation/JsonSchemaValidator.cs:341 | The first pattern property whose regex matches the name; no earlier pattern matches, and None means none matches. |
| ValidatorSpec.Undeclared | src/NJsonSchema/Validation/JsonSchemaValidator.cs:318 | The instance members whose names are not declared properties. |
| ValidatorSpec.Unmatched | src/NJsonSchema/Validation/JsonSchemaValidator.cs:339-351 | The members no pattern matches: what stays in the additional list. |
| ValidatorSpec.FlagsIn | src/NJsonSchema/Validation/JsonSchemaValidator.cs:81-87 | `GetTypes()`: exactly the declared flags, listed in enum order. |
| ValidatorSpec.RenderSet | src/NJsonSchema/Validation/JsonSchemaValidator.cs:392 | The distinct renderings of the elements. |
| ValidatorSpec.NoAdditionalErrors | src/NJsonSchema/Validation/JsonSchemaValidator.cs:368-378 | One NoAdditionalPropertiesAllowed error per remaining member, with that member's name and path. |
| ValidatorProperties.CompositionShape | src/NJsonSchema/Validation/JsonSchemaValidator.cs:89-117 | A composition rule reports at most one error. That error is a child error of the rule's kind, its map holds every sub-schema with its own errors, and it is reported exactly when the rule's condition fails on that map. |
| ValidatorProperties.AnyOfReports | src/NJsonSchema/Validation/JsonSchemaValidator.cs:89-97 | NotAnyOf exactly when every anyOf sub-schema rejects the token. |
| ValidatorProperties.AllOfReports | src/NJsonSchema/Validation/JsonSchemaValidator.cs:99-107 | NotAllOf exactly when some allOf sub-schema rejects the token. |
| ValidatorProperties.OneOfReports | src/NJsonSchema/Validation/JsonSchemaValidator.cs:109-117 | NotOneOf exactly when the number of accepting sub-schemas is not one. |
| ValidatorProperties.NotReports | src/NJsonSchema/Validation/JsonSchemaValidator.cs:119-126 | ExcludedSchemaValidates exactly when the excluded schema reports no error. |
| ValidatorProperties.CountPassingOne | src/NJsonSchema/Validation/JsonSchemaValidator.cs:113-114 | The passing count is 1 exactly when one entry, and no other, has no errors. |
| ValidatorProperties.CountPassingZero | src/NJsonSchema/Validation/JsonSchemaValidator.cs:113-114 | The passing count is 0 exactly when every entry has errors. |
| ValidatorProperties.TypeUnion | src/NJsonSchema/Validation/JsonSchemaValidator.cs:49-87 | With type flags, the type rule reports nothing exactly when some declared flag's checks pass alone. Otherwise it reports every flag's errors, in flag order. |
| ValidatorProperties.TypeErrorsLists | src/NJsonSchema/Validation/JsonSchemaValidator.cs:51-68 | The type errors are the flattened per-flag lists when all are non-empty, else nothing. |
| ValidatorProperties.NoFlagsNoExpected | src/NJsonSchema/Validation/JsonSchemaValidator.cs:49-87 | Without type flags, no error says that the token has the wrong type (the seven *Expected kinds of the type checks). |
| ValidatorProperties.FlagChecksExpected | src/NJsonSchema/Validation/JsonSchemaValidator.cs:54-63 | The checks run with a flag set report "X expected" only for flags X of that set. |
| ValidatorProperties.FlagsInAll | src/NJsonSchema/Validation/JsonSchemaValidator.cs:81-87 | Every flag is in the enum order, so `GetTypes()` lists exactly the declared flags. |
| ValidatorProperties.NullAllowed | src/NJsonSchema/Validation/JsonSchemaValidator.cs:49-87 | A null token passes the type rule of any schema whose flags include Null. |
| ValidatorProperties.AddedChildOnlyFor | src/NJsonSchema/Validation/JsonSchemaValidator.cs:456-466 | A child error made by `TryCreateChildSchemaError` has the kind it was asked for. |
| ValidatorRules.EnumAccepts | src/NJsonSchema/Validation/JsonSchemaValidator.cs:137-141 | The token is accepted exactly when the enumeration is empty or one of its values renders as the token does. Otherwise the one error is NotInEnumeration. |
| ValidatorRules.BoundsOnlyForNumbers | src/NJsonSchema/Validation/JsonSchemaValidator.cs:242-263 | For a token that is not a number, only NumberExpected can be reported. The bounds are not looked at. |
| ValidatorRules.NumberBounds | src/NJsonSchema/Validation/JsonSchemaValidator.cs:250-262 | NumberTooSmall exactly when v < min, or v = min with an exclusive minimum. NumberTooBig likewise for the maximum. NumberNotMultipleOf exactly when a non-zero m does not divide v. |
| ValidatorRules.BoundReports | src/NJsonSchema/Validation/JsonSchemaValidator.cs:250-262 | The same three if-and-only-ifs, stated on the value alone. |
| ValidatorRules.MultipleOfIff | src/NJsonSchema/Validation/JsonSchemaValidator.cs:260 | For m ≠ 0, `v % m == 0` holds exactly when v is an integer multiple of m. |
| ValidatorRules.PropertyCounts | src/NJsonSchema/Validation/JsonSchemaValidator.cs:325-336 | TooManyProperties and TooFewProperties exactly when the bound is positive and is exceeded. |
| ValidatorRules.ItemCounts | src/NJsonSchema/Validation/JsonSchemaValidator.cs:386-393 | TooFewItems and TooManyItems exactly when the bound is positive and is exceeded. ItemsNotUnique exactly when two elements render alike. |
| ValidatorRules.UniqueIff | src/NJsonSchema/Validation/JsonSchemaValidator.cs:392 | The distinct renderings are as many as the elements exactly when no two elements render alike. |
| NestedRules.ChildErrorOnlyWhenFailing | src/NJsonSchema/Validation/JsonSchemaValidator.cs:456-466 | A child error exists exactly when the child's validation is non-empty. It then maps exactly that schema to exactly those errors, with path "#/" + path. |
| NestedRules.DeclaredErrorCases | src/NJsonSchema/Validation/JsonSchemaValidator.cs:296-309 | A present declared property is validated with its own name and path. An absent one reports PropertyRequired exactly when it is required, also for a non-object token. |
| NestedRules.RequiredReported | src/NJsonSchema/Validation/JsonSchemaValidator.cs:296-308 | A required property that is missing, or checked on a non-object token, is reported as PropertyRequired with path `parent.key` (`key` at the root). |
| NestedRules.PresentValidated | src/NJsonSchema/Validation/JsonSchemaValidator.cs:300-305 | A declared property the object has is validated against its schema, and all of those errors appear in the result, contiguously. |
| NestedRules.MemberParts | src/NJsonSchema/Validation/JsonSchemaValidator.cs:311-322 | The member checks are the property counts, then the pattern properties over the undeclared members, then the additional properties over the members no pattern matched. |
| NestedRules.NoAdditionalReported | src/NJsonSchema/Validation/JsonSchemaValidator.cs:368-378 | An undeclared member that no pattern matches, with no additional schema and additional properties disallowed, gets NoAdditionalPropertiesAllowed. |
| NestedRules.PatternsLeaveNoAdditional | src/NJsonSchema/Validation/JsonSchemaValidator.cs:339-353 | When a pattern matches every undeclared member, the additional-properties check reports nothing. |
| NestedRules.PatternReported | src/NJsonSchema/Validation/JsonSchemaValidator.cs:337-353 | A member that the first matching pattern's schema rejects gets an AdditionalPropertiesNotValid child error, which maps that schema to the failures. |
| NestedRules.AdditionalSchemaReported | src/NJsonSchema/Validation/JsonSchemaValidator.cs:358-366 | A remaining member that the additional-properties schema rejects gets an AdditionalPropertiesNotValid child error, which maps that schema to the failures. |
| NestedRules.ItemReported | src/NJsonSchema/Validation/JsonSchemaValidator.cs:395-408 | When `Item` rejects element i, an ArrayItemNotValid child error with property `[i]` maps the item schema to the element's errors. |
| NestedRules.TupleItemReported | src/NJsonSchema/Validation/JsonSchemaValidator.cs:419-428 | Within the tuple, element i is validated against tuple schema i, and a failure gives an ArrayItemNotValid child error. |
| NestedRules.TupleOverflowReported | src/NJsonSchema/Validation/JsonSchemaValidator.cs:429-446 | Beyond the tuple, with no additional schema and additional items disallowed, element i gets TooManyItemsInTuple. |
| NestedRules.AdditionalItemReported | src/NJsonSchema/Validation/JsonSchemaValidator.cs:431-437 | Beyond the tuple, element i is validated against the additional-items schema, and a failure gives an AdditionalItemNotValid child error. |
| NestedRules.IndexTextInjective | src/NJsonSchema/Validation/JsonSchemaValidator.cs:400 | Different elements get different `[i]` property names. |
| NestedRules.AnyAccepts | src/NJsonSchema/Validation/JsonSchemaValidator.cs:34-47 | A schema that sets no constraint accepts every token. |
| StringUtil.NatToString | src/NJsonSchema/Validation/JsonSchemaValidator.cs:400 | `int.ToString()` gives a non-empty string of digits. |
| StringUtil.ParseNatToString | src/NJsonSchema/Validation/JsonSchemaValidator.cs:400 | The decimal rendering of a number parses back to that number. |
| StringUtil.NatToStringInjective | src/NJsonSchema/Validation/JsonSchemaValidator.cs:400 | Distinct numbers have distinct renderings. |
| StringUtil.ReplaceChar | src/NJsonSchema.CodeGeneration.CSharp/CSharpPropertyNameGenerator.cs:19-22 | `Replace` of a character: the character is gone unless the replacement holds it, nothing new appears, and a string without it is returned unchanged. |
| StringUtil.ReplaceCharPointwise | src/NJsonSchema.CodeGeneration.CSharp/CSharpPropertyNameGenerator.cs:21-22 | Replacing a character by one character works in place: same length, each occurrence becomes the new character, every other character stays where it was. |
| StringUtil.ReplaceCharCounts | src/NJsonSchema.CodeGeneration.CSharp/CSharpPropertyNameGenerator.cs:21-22 | The same replacement counts every occurrence as the new character and leaves every other count alone. |
| StringUtil.RemoveChar | src/NJsonSchema.CodeGeneration.CSharp/CSharpPropertyNameGenerator.cs:20 | `Replace(c, "")` leaves no c and adds nothing. |
| StringUtil.RemoveCharAbsent | src/NJsonSchema.CodeGeneration.CSharp/CSharpPropertyNameGenerator.cs:20 | A string without c is returned unchanged. |
| StringUtil.RemoveCharCounts | src/NJsonSchema.CodeGeneration.CSharp/CSharpPropertyNameGenerator.cs:20 | Removal drops exactly the occurrences of c: every other character keeps its count. |
| StringUtil.RemoveCharAppend | src/NJsonSchema.CodeGeneration.CSharp/CSharpPropertyNameGenerator.cs:20 | Removal works piece by piece, so what is left keeps its order. |
| SchemaRecords.SchemaRecord.constructor | src/NJsonSchema/Generation/JsonSchemaGenerator.cs:216-234 | A new schema object sets no flag, list, reference or annotation. |
| SchemaGeneration.DirectNullabilityRecorded | src/NJsonSchema/Generation/JsonSchemaGenerator.cs:235-252 | In the JSON Schema dialect, a nullable schema admits null afterwards, and only its type or oneOf grows. Under OpenApi3, or with custom nullable properties, only IsNullableRaw is set. Otherwise nothing changes. |
| SchemaGeneration.ApplyDirectNullability | src/NJsonSchema/Generation/JsonSchemaGenerator.cs:235-252 | The schema's new state is `DirectNullability` of the old one. |
| SchemaGeneration.ReferenceWrapping | src/NJsonSchema/Generation/JsonSchemaGenerator.cs:266-306 | The target is referenced in exactly one place. The schema's own $ref is used exactly when (references may carry properties, or the schema serialises empty) and oneOf is empty. Otherwise the reference goes into oneOf, or into allOf under Swagger 2. A nullable JSON Schema gets a null entry first. |
| SchemaGeneration.WrapReference | src/NJsonSchema/Generation/JsonSchemaGenerator.cs:266-306 | The referencing schema's new state is `Referencing` of the old one. |
| SchemaGeneration.RequiredAndNullable | src/NJsonSchema/Generation/JsonSchemaGenerator.cs:946-960 | A required nullable property has Required.AllowNull. Always makes it required and not nullable. DisallowNull makes it not nullable, and required only through the attributes. |
| SchemaGeneration.LoadPropertyEffects | src/NJsonSchema/Generation/JsonSchemaGenerator.cs:935-1000 | A duplicate is refused before any change. A loaded property is added under its name and the rest of the dictionary is kept. It is listed as required exactly when the attributes require it or, under Swagger 2, when it is not nullable. |
| SchemaGeneration.LoadPropertyOrField | src/NJsonSchema/Generation/JsonSchemaGenerator.cs:935-1000 | The outcome and the parent's new state are `LoadProperty` of the old state. |
| SchemaGeneration.DiscriminatorEffects | src/NJsonSchema/Generation/JsonSchemaGenerator.cs:836-853 | A refusal happens exactly for an existing non-string property. After an injection, the discriminator names a required String property, the other properties are kept, and injecting again changes nothing. |
| SchemaGeneration.GenerateInheritanceDiscriminator | src/NJsonSchema/Generation/JsonSchemaGenerator.cs:836-853 | The outcome and new state are `InjectDiscriminator` of the old state. |
| SchemaGeneration.InheritanceOrder | src/NJsonSchema/Generation/JsonSchemaGenerator.cs:766-791 | With own properties or a required reference, exactly two allOf entries are appended: the base first (a $ref when required), then the own schema. Otherwise nothing changes. |
| SchemaGeneration.InheritWithAllOf | src/NJsonSchema/Generation/JsonSchemaGenerator.cs:766-791 | The outcome and new state are `Inherit` of the old state. |
| SchemaGeneration.EnumerationAligned | src/NJsonSchema/Generation/JsonSchemaGenerator.cs:895-928 | The value and name lists are as long as the member list. Entry i of each comes from member i, and the values are numbers exactly for an integer enum. |
| SchemaGeneration.LoadEnumerations | src/NJsonSchema/Generation/JsonSchemaGenerator.cs:892-928 | The loop clears both lists and appends one value and one name per member. The new state is `LoadedEnumeration` of the old one. |
| SchemaGeneration.LengthTargets | src/NJsonSchema/Generation/JsonSchemaGenerator.cs:1100-1133 | A String type gets string lengths, with StringLength winning over MinLength/MaxLength. An Array type gets item counts. Any other type is unchanged. |
| SchemaGeneration.RangeBounds | src/NJsonSchema/Generation/JsonSchemaGenerator.cs:1088-1098 | A recorded bound lies strictly inside the decimal range, so the extremes mean "unbounded". MultipleOf is set for a Number or Integer type. Nothing else changes. |
| SchemaGeneration.ApplyRangeAttribute | src/NJsonSchema/Generation/JsonSchemaGenerator.cs:1146-1190 | The new state is `ApplyRange` of the old one. |
| SchemaGeneration.ApplyLengthAttributes | src/NJsonSchema/Generation/JsonSchemaGenerator.cs:1100-1133 | The new state is `ApplyLengths` of the old one. |
| SchemaGeneration.ApplyDataAnnotations | src/NJsonSchema/Generation/JsonSchemaGenerator.cs:1088-1133 | The new state is the range mapping followed by the length mapping. |
| GeneratorSettings.ResolverConflicts | src/NJsonSchema/Generation/JsonSchemaGeneratorSettings.cs:219-257 | The resolver is refused exactly for the three conflicting combinations, and the naming conflict is the one reported when two apply. |
| GeneratorSettings.ResolverPrecedence | src/NJsonSchema/Generation/JsonSchemaGeneratorSettings.cs:219-257 | Without a conflict, the actual resolver comes from the first configured source: serializer settings, contract resolver, camel case, snake case, then the default. |
| GeneratorSettings.SettingsAgree | src/NJsonSchema/Generation/JsonSchemaGeneratorSettings.cs:259-299 | Built settings carry the chosen resolver. A conflict happens exactly with user serializer settings and non-integer enum handling. |
| GeneratorSettings.EnumConverters | src/NJsonSchema/Generation/JsonSchemaGeneratorSettings.cs:270-297 | Without user serializer settings there is a StringEnumConverter exactly when enums are not integers, and it is the camel-case one exactly for CamelCaseString. |
| GeneratorSettings.ActualAttributeSetting | src/NJsonSchema/Generation/JsonSchemaGeneratorSettings.cs:200-217 | A `JsonSchemaAbstract` or `JsonSchemaFlatten` attribute overrides the global flag, and it counts as true unless its value is false. |
| GeneratorSettings.LookupFails | src/NJsonSchema/Generation/JsonSchemaGeneratorSettings.cs:181-190 | A lookup throws exactly when an unseen key of a type that is not a generic type definition meets a null actual resolver, and then nothing is stored. |
| GeneratorSettings.LookupMemoised | src/NJsonSchema/Generation/JsonSchemaGeneratorSettings.cs:173-195 | After a lookup that did not throw, a second lookup of the key returns the same contract and leaves the cache unchanged, whatever resolver is then in use. |
| GeneratorSettings.Settings.constructor | src/NJsonSchema/Generation/JsonSchemaGeneratorSettings.cs:37-53 | The defaults, after the three setters have run: the default resolver and built settings without converters. |
| GeneratorSettings.Settings.UpdateActualContractResolverAndSerializerSettings | src/NJsonSchema/Generation/JsonSchemaGeneratorSettings.cs:219-257 | Clears the contract cache and derives the resolver, then the serializer settings, or stops at the first conflict. No setting changes. |
| GeneratorSettings.Settings.UpdateActualSerializerSettings | src/NJsonSchema/Generation/JsonSchemaGeneratorSettings.cs:259-299 | Derives only the serializer settings, or reports a conflict. The resolver and the cache are kept. |
| GeneratorSettings.Settings.SetSerializerSettings | src/NJsonSchema/Generation/JsonSchemaGeneratorSettings.cs:89-96 | Stores the value, then runs the full update; the other settings and the generation flags are unchanged. |
| GeneratorSettings.Settings.SetContractResolver | src/NJsonSchema/Generation/JsonSchemaGeneratorSettings.cs:128-135 | Stores the value, then runs the full update. |
| GeneratorSettings.Settings.SetDefaultPropertyNameHandling | src/NJsonSchema/Generation/JsonSchemaGeneratorSettings.cs:139-146 | Stores the value, then runs the full update. |
| GeneratorSettings.Settings.SetDefaultEnumHandling | src/NJsonSchema/Generation/JsonSchemaGeneratorSettings.cs:150-157 | Stores the value, then re-derives only the serializer settings. |
| GeneratorSettings.Settings.ResolveContract | src/NJsonSchema/Generation/JsonSchemaGeneratorSettings.cs:173-195 | A null name gives null. An unseen key is stored once (null for a generic type definition); with a null actual resolver a non-generic unseen key throws and stores nothing. Each type name is resolved at most once. |
| TypeExtensions.NameWithoutCache | src/NJsonSchema/Infrastructure/TypeExtensions.cs:39-58 | A non-empty JsonProperty name wins. The result is otherwise a data-member name (under a data contract) or the member's own name. |
| TypeExtensions.NamePrecedence | src/NJsonSchema/Infrastructure/TypeExtensions.cs:39-58 | The member's own name is used exactly when neither attribute supplies a usable name. A usable data-member name needs a data contract. |
| TypeExtensions.NameCache.constructor | src/NJsonSchema/Infrastructure/TypeExtensions.cs:20 | The name cache starts empty. |
| TypeExtensions.NameCache.GetName | src/NJsonSchema/Infrastructure/TypeExtensions.cs:24-37 | Returns the uncached name. An accessor's name is computed and stored on first use only, and the cache stays consistent. |
| TypeExtensions.AttributeDescription | src/NJsonSchema/Infrastructure/TypeExtensions.cs:122-144 | A non-empty Description wins, then a non-null Display description. Null exactly when neither applies. |
| TypeExtensions.Description | src/NJsonSchema/Infrastructure/TypeExtensions.cs:63-120 | The attribute description, then a non-empty XML summary. Null exactly when neither applies. |
| TypeExtensions.DescriptionSources | src/NJsonSchema/Infrastructure/TypeExtensions.cs:63-144 | An empty description can only come from a Display attribute. Without an attribute description, the summary decides. |
| ReflectionService.IsNullable | src/NJsonSchema.NewtonsoftJson/Generation/NewtonsoftJsonReflectionService.cs:41-50 | `Required.DisallowNull` makes a type non-nullable. Otherwise the base answer stands. |
| ReflectionService.IsStringEnum | src/NJsonSchema.NewtonsoftJson/Generation/NewtonsoftJsonReflectionService.cs:53-57 | A StringEnumConverter among the actual serializer settings' converters, whether the user registered it or the settings built it, makes every enum a string enum (which settings these are is stated under "## Left out"). Otherwise the base answer stands. |
| ReflectionService.StringEnumHandling | src/NJsonSchema.NewtonsoftJson/Generation/NewtonsoftJsonReflectionService.cs:53-57 | With built settings, an enum is a string enum exactly when enum handling is not Integer or the type says so. |
| ReflectionService.PropertyName | src/NJsonSchema.NewtonsoftJson/Generation/NewtonsoftJsonReflectionService.cs:199-221 | The JsonProperty name when set. Otherwise the accessor's name, resolved through a DefaultContractResolver when the actual resolver is one. |
| ReflectionService.NamingFromSettings | src/NJsonSchema.NewtonsoftJson/Generation/NewtonsoftJsonReflectionService.cs:199-221 | With default settings the name goes through the default resolver, and with camel-case naming through the camel-case one. |
| ReflectionService.DataMemberDivergence | src/NJsonSchema.NewtonsoftJson/Generation/NewtonsoftJsonReflectionService.cs:180-191 | This loader and the generator's own agree on nullability except for a required DataMember on a nullable type, which is nullable here and not there. |
| ReflectionService.FlattenReplaces | src/NJsonSchema.NewtonsoftJson/Generation/NewtonsoftJsonReflectionService.cs:158-197 | A duplicate is refused, unchanged, exactly when not flattening. When flattening, the new property replaces the old one. The name is listed as required exactly when the attributes require it. |
| ReflectionService.LoadPropertyOrField | src/NJsonSchema.NewtonsoftJson/Generation/NewtonsoftJsonReflectionService.cs:158-197 | The outcome and the parent's new state are `LoadProperty` of the old state. |
| ReflectionService.FirstNamed | src/NJsonSchema.NewtonsoftJson/Generation/NewtonsoftJsonReflectionService.cs:109 | `FirstOrDefault` returns the first accessor with that name (none earlier has it), and None exactly when there is none. |
| ReflectionService.SelectedIff | src/NJsonSchema.NewtonsoftJson/Generation/NewtonsoftJsonReflectionService.cs:95-114 | A pair is loaded exactly when the property is declared on the type, does not refuse serialisation and has a first accessor of its underlying name, which is not abstract unless abstract properties are generated. |
| ReflectionService.PropertiesToLoad | src/NJsonSchema.NewtonsoftJson/Generation/NewtonsoftJsonReflectionService.cs:95-114 | The loop selects exactly `Selected`, in order. |
| JsonPath.Find | src/NJsonSchema/JsonPathUtilities.cs:68-114 | The recursive search only adds to the set of entered objects (what it finds is stated by FindSound and FindComplete). |
| JsonPath.FindSound | src/NJsonSchema/JsonPathUtilities.cs:68-114 | Every path found is real: following its segments from the start reaches the searched object, and the text is the start path plus those segments. |
| JsonPath.FindNoneCloses | src/NJsonSchema/JsonPathUtilities.cs:68-114 | A search that finds nothing has entered the start object, never the searched one, and every object referenced from an object it entered. |
| JsonPath.FindAmongNoneCloses | src/NJsonSchema/JsonPathUtilities.cs:78-111 | The loop over the children that finds nothing has entered every child object, never the searched one, and is closed in the same way. |
| JsonPath.WalkStaysIn | src/NJsonSchema/JsonPathUtilities.cs:78-111 | Following child positions from an object of an entered set closed under references stays inside that set. |
| JsonPath.FindNoneUnreachable | src/NJsonSchema/JsonPathUtilities.cs:68-114 | A search from the root of a closed graph that finds nothing means no sequence of children leads from the root to the searched object. |
| JsonPath.FindComplete | src/NJsonSchema/JsonPathUtilities.cs:68-114 | Completeness: an object reachable from the root of a closed graph is found. |
| JsonPath.RootIsFound | src/NJsonSchema/JsonPathUtilities.cs:73-74 | The searched object itself, when not yet entered, is found at the start path. |
| JsonPath.UnvisitedShrinks | src/NJsonSchema/JsonPathUtilities.cs:70-76 | Entering an object shrinks the set of objects not yet entered, so the search ends on cyclic graphs. |
| JsonPath.ItemChildren | src/NJsonSchema/JsonPathUtilities.cs:87-97 | Element i of an enumerable is reached through the segment "i". |
| JsonPath.FieldChildren | src/NJsonSchema/JsonPathUtilities.cs:98-111 | The searched members are exactly the members that are not ignored and not null. |
| JsonPath.PathSearch.Search | src/NJsonSchema/JsonPathUtilities.cs:68-114 | The path and the new checked set are `Find` of the old set. |
| JsonPath.LookupSound | src/NJsonSchema/JsonPathUtilities.cs:50-66 | A returned path starts with "#" and leads to the searched object, in the graph after some number of appends (none without a resolver). |
| JsonPath.CouldNotFindUnreachable | src/NJsonSchema/JsonPathUtilities.cs:53-63 | "Could not find" is thrown only when there is no resolver or no schema to append, and then the searched object is unreachable from the root. |
| JsonPath.NoRetryCouldNotFind | src/NJsonSchema/JsonPathUtilities.cs:53-63 | With a resolver and a schema the wrapper never throws "could not find". |
| JsonPath.GetJsonPath | src/NJsonSchema/JsonPathUtilities.cs:50-66 | The retry loop returns exactly `Lookup`. |
| JsonPath.PropertyName | src/NJsonSchema/JsonPathUtilities.cs:27-42 | Default keeps the name and CamelCase camel-cases it. Any other handling throws. |
| TypeScriptTypes.ScalarName | src/NJsonSchema.CodeGeneration/TypeScript/TypeScriptTypeResolver.cs:44-76 | The first of Number/Integer, Boolean, String (Date for date-time) and Object (the type name, else "object") decides. Nothing matching throws. |
| TypeScriptTypes.ArrayNames | src/NJsonSchema.CodeGeneration/TypeScript/TypeScriptTypeResolver.cs:35-42 | An array is its element's name with one "[]" per level. It fails exactly when the innermost array has no item or the element has no known flag. |
| TypeScriptTypes.NeverOverwrites | src/NJsonSchema.CodeGeneration/TypeScript/TypeScriptTypeResolver.cs:65-69 | Registration never removes or overwrites an entry. |
| TypeScriptTypes.RegistersElement | src/NJsonSchema.CodeGeneration/TypeScript/TypeScriptTypeResolver.cs:61-73 | A name is added exactly for a named object element that is not a type reference, when the name is new. |
| TypeScriptTypes.RegisterIdempotent | src/NJsonSchema.CodeGeneration/TypeScript/TypeScriptTypeResolver.cs:65-69 | Resolving the same schema again registers nothing more. |
| TypeScriptTypes.TypeResolver.constructor | src/NJsonSchema.CodeGeneration/TypeScript/TypeScriptTypeResolver.cs:18 | The registry starts empty. |
| TypeScriptTypes.TypeResolver.Resolve | src/NJsonSchema.CodeGeneration/TypeScript/TypeScriptTypeResolver.cs:32-77 | Returns `ResolvedName` and updates the registry to `Registered`. |
| TypeScriptTypes.DateTable | src/NJsonSchema.CodeGeneration/TypeScript/DataConversionGenerator.cs:62-94 | Date and date-time are dates in both modes. Time and time span are dates only with MomentJS. |
| TypeScriptTypes.IsNewableObject | src/NJsonSchema.CodeGeneration/TypeScript/DataConversionGenerator.cs:96-100 | Newable exactly when the type has the Object flag and is neither an any-type nor a dictionary. |
| ConversionUtilities.Sanitize | src/NJsonSchema.CodeGeneration/DefaultEnumNameGenerator.cs:16 | The same length; each character outside the class becomes '_'. |
| ConversionUtilities.SanitizeIdempotent | src/NJsonSchema.CodeGeneration/DefaultEnumNameGenerator.cs:16 | Sanitising twice changes nothing more. |
| EnumNameGenerator.OperatorName | src/NJsonSchema.CodeGeneration/DefaultEnumNameGenerator.cs:32-55 | Exactly the seven comparison operators have a spelled-out name. |
| EnumNameGenerator.Generate | src/NJsonSchema.CodeGeneration/DefaultEnumNameGenerator.cs:25-74 | A null or empty name gives "Empty". Otherwise the camel-cased rewritten name, sanitised position by position. |
| EnumNameGenerator.CamelInput | src/NJsonSchema.CodeGeneration/DefaultEnumNameGenerator.cs:72-73 | No ':' and no '"' reach the conversion. |
| EnumNameGenerator.DashColonsPointwise | src/NJsonSchema.CodeGeneration/DefaultEnumNameGenerator.cs:72-73 | The two `Replace` calls on the rebound name (`CamelInput` is them applied to `Rebind`): without a '"', the text is rewritten in place, each ':' turned into '-' and every other character kept. |
| EnumNameGenerator.DashColonsCounts | src/NJsonSchema.CodeGeneration/DefaultEnumNameGenerator.cs:72-73 | The same two calls count every ':' as a '-', drop every '"', and keep every other character's count. |
| EnumNameGenerator.OperatorsSpelled | src/NJsonSchema.CodeGeneration/DefaultEnumNameGenerator.cs:32-55 | An operator is replaced by its spelled-out name. |
| EnumNameGenerator.SignsSpelled | src/NJsonSchema.CodeGeneration/DefaultEnumNameGenerator.cs:57-65 | A leading '-' becomes "Minus" and a leading '+' becomes "Plus". |
| EnumNameGenerator.UnderscoreDashSpelled | src/NJsonSchema.CodeGeneration/DefaultEnumNameGenerator.cs:67-70 | A leading "_-" becomes "__". |
| EnumNameGenerator.OtherNamesKept | src/NJsonSchema.CodeGeneration/DefaultEnumNameGenerator.cs:32-70 | Any other name, including one starting with '_' but not "_-", is passed on unchanged. |
| CSharpPropertyNames.CamelInput | src/NJsonSchema.CodeGeneration.CSharp/CSharpPropertyNameGenerator.cs:19-21 | No '@' and no '.' reach the conversion, and nothing but '-' is added; CamelInputPointwise and CamelInputCounts state the rewriting itself. |
| CSharpPropertyNames.CamelInputPointwise | src/NJsonSchema.CodeGeneration.CSharp/CSharpPropertyNameGenerator.cs:19-21 | Without an '@', the name reaches the conversion in place, each '.' turned into '-' and every other character kept. |
| CSharpPropertyNames.CamelInputCounts | src/NJsonSchema.CodeGeneration.CSharp/CSharpPropertyNameGenerator.cs:19-21 | Every '.' is counted as a '-', every '@' is dropped, and every other character keeps its count. |
| CSharpPropertyNames.Generate | src/NJsonSchema.CodeGeneration.CSharp/CSharpPropertyNameGenerator.cs:17-23 | The generated name contains no '-'. |
| CSharpPropertyNames.GeneratePointwise | src/NJsonSchema.CodeGeneration.CSharp/CSharpPropertyNameGenerator.cs:17-23 | The result is the camel-cased text with each '-' turned into '_'. |
| TemplateWriter.IndentLengthIsSum | src/NJsonSchema.CodeGeneration.CSharp/Templates/ClassTemplate.cs:757-791 | The current indent's length is the sum of the recorded lengths. |
| TemplateWriter.ReplaceTrailing | src/NJsonSchema.CodeGeneration.CSharp/Templates/ClassTemplate.cs:700 | A trailing newline is always the last occurrence replaced. |
| TemplateWriter.ReplaceIdentity | src/NJsonSchema.CodeGeneration.CSharp/Templates/ClassTemplate.cs:700 | Replacing the newline by itself changes nothing. |
| TemplateWriter.TrailingIndent | src/NJsonSchema.CodeGeneration.CSharp/Templates/ClassTemplate.cs:703-706 | After a trailing newline the replaced text ends with a whole indent, so stripping it is well defined. |
| TemplateWriter.WriteBodyIndents | src/NJsonSchema.CodeGeneration.CSharp/Templates/ClassTemplate.cs:692-710 | Every interior newline is followed by the current indent, and a trailing newline is not. |
| TemplateWriter.TemplateBase.constructor | src/NJsonSchema.CodeGeneration.CSharp/Templates/ClassTemplate.cs:587-645 | Empty output and no indent. |
| TemplateWriter.TemplateBase.Write | src/NJsonSchema.CodeGeneration.CSharp/Templates/ClassTemplate.cs:673-711 | Null or empty text changes nothing. Otherwise the indent is written at the start of a line, then the text with interior newlines indented. The indent stack is kept. |
| TemplateWriter.TemplateBase.WriteLine | src/NJsonSchema.CodeGeneration.CSharp/Templates/ClassTemplate.cs:715-720 | Writes the text, then a bare newline, and the output then ends a line. |
| TemplateWriter.TemplateBase.PushIndent | src/NJsonSchema.CodeGeneration.CSharp/Templates/ClassTemplate.cs:757-765 | A null indent throws and changes nothing. Otherwise the indent is appended and its length recorded. |
| TemplateWriter.TemplateBase.PopIndent | src/NJsonSchema.CodeGeneration.CSharp/Templates/ClassTemplate.cs:769-783 | Removes and returns the last pushed indent ("" with none). The indent shrinks by exactly that text. |
| TemplateWriter.TemplateBase.ClearIndent | src/NJsonSchema.CodeGeneration.CSharp/Templates/ClassTemplate.cs:787-791 | Empties the indent and the recorded lengths, and leaves the output as it is. |

## Left out

- Regular expressions, date/URI/GUID/e-mail/IP/host-name/base64 checks, `JToken.ToString()` and `JToken.Path` are parameters of the validator's `Env`. Their .NET semantics are not modelled.
- Token kinds: Newtonsoft's Date, Guid, Uri and TimeSpan kinds are folded into strings. The date-time rendering of a Date token is not modelled.
- String lengths count `char`s of `seq<char>`. UTF-16 surrogate pairs are not distinguished.
- Schemas: `$ref` cycles, `ActualSchema` and the reference resolver are not modelled. The validator works on an already-dereferenced finite tree.
- Numbers are exact rationals. The `decimal` conversion, its rounding and its overflow are not modelled. The double-typed path of `ApplyRangeAttribute` is not modelled; only the decimal path is.
- Validator.ValidateBounds: a `multipleOf` of zero makes the source throw `DivideByZeroException`. The model reports no error for it instead.
- Validator.ValidateEnum: an enumeration entry that is a C# null (as read from `"enum": ["a", null]`) makes `v.ToString()` throw `NullReferenceException` when the scan reaches it before a match. The model has no null entries: it compares the rendering of the JSON null value like any other entry.
- ValidatorRules.EnumAccepts: for the same reason, its if-and-only-if matches the source only on enumerations it can scan without throwing: those with no null entry before the first match.
- The child-error map of a composition is a sequence in sub-schema order. The `ToDictionary` duplicate-key exception, which occurs when the same schema object appears twice, is not modelled.
- `List.Remove` in `ValidatePatternProperties` removes by reference equality. The model removes the first equal member.
- Error kinds and type flags render by their declared names. Enum `ToString` formatting beyond that is not modelled.
- JsonFormatStrings, ValidationErrorKind, JsonObjectType, JsonProperty, PropertyNameHandling.cs and TypeScriptDateTimeType are not part of this model. Their constants and order are taken from their use in the modelled code.
- ValidatorProperties.NoFlagsNoExpected covers the seven type-check kinds (ArrayExpected … NullExpected) only. Format errors such as DateTimeExpected can still occur on a string without flags.
- Reflection, async generation, locks and concurrency are left out. Attributes, `Required`, nullability and contracts are plain inputs.
- Generated template text (`TransformText`), `JsonSchemaGraphUtilities`, and Error/Warning of the template base are not modelled.
- Schema properties are a `map`. The insertion order of the property dictionary, which changes when a property is removed and re-added, is not modelled.
- JsonPath.GetJsonPath: the retries are bounded by an `attempts` parameter. The source recurses with no bound, and the model's bound does not count as a retry.
- The object-graph search sees the children of an object through a single loop over its listed children. Runtime type tests (`IDictionary`, `IEnumerable`) are made into the children's kind.
- Culture-sensitive `StartsWith`/`EndsWith` comparisons are modelled as ordinal ones.
- TemplateWriter.TemplateBase.Write: `Environment.NewLine` is a parameter, either "\n" or "\r\n". The formatting overloads with `string.Format` are left out.
- SchemaGeneration.LoadEnumerations: the enum mapping description (GenerateEnumMappingDescription) is not modelled. `ConvertEnumValue` and the serializer's output for each member are inputs.
- SchemaGeneration.GenerateInheritanceDiscriminator: adding the mapping to a base type's discriminator object is not modelled.
- ReflectionService.LoadPropertyOrField: `AddProperty` is not part of this model. The property schema it would generate is an input, and the model stores it under the name.
- SchemaGeneration.LoadPropertyOrField: the property's schema generation, the MinLength = 1 added for a Required string, and DataType formats are not modelled.
- SchemaGeneration.InheritWithAllOf: `AppendSchema` and inline generation of a base schema are not modelled. The inline-base outcome leaves the state unchanged.
- ReflectionService.PropertiesToLoad: the fallback path for contracts that are not object contracts is not modelled. That path exists for exception types and for an explicit property list.
- ReflectionService.IsStringEnum: the settings it reads are those of `NewtonsoftJsonSchemaGeneratorSettings`, which is not part of this model. The model takes them to be the actual serializer settings: the user's own value when one was supplied, otherwise the settings derived from enum and naming handling.
- ReflectionService.PropertyName: the wrapping of a failure into `InvalidOperationException` is not modelled, because name computation cannot fail in the model.
- TypeExtensions.Description: the XML documentation lookup is an input string. The different attribute sources of the three overloads are the same `DescriptionFacts`.
- GeneratorSettings.Settings.UpdateActualContractResolverAndSerializerSettings: after a serializer conflict, the actual resolver has already been updated while the serializer settings keep their old value. The contract states this as the source behaves.
- The other settings (type name generators, type mappers, schema processors, excluded type names, XML objects) are not modelled.
