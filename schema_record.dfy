/**
 * The schema object the generator builds and changes in place (`JsonSchema4`
 * as the generator sees it): the type flags, the composition lists, the
 * reference, the property dictionary, the required-property list, the
 * enumeration lists, the discriminator and the length and range annotations.
 * `State()` is a snapshot of these fields as a value, so that each operation
 * can be specified by a function from the old snapshot to the new one.
 */
module SchemaRecords {
  import opened JsonModel
  import opened SchemaModel

  /** The identity of a generated schema, as `ActualSchema` denotes it. */
  type SchemaRef = nat

  /** An entry of `OneOf` or `AllOf`. */
  datatype SubSchema =
    | TypeOnly(flags: set<TypeFlag>)       // `new JsonSchema4 { Type = flags }`
    | ReferenceTo(target: SchemaRef)       // `new JsonSchema4 { Reference = target }`
    | Inline(schema: SchemaRef)            // the generated schema object itself

  /** A value of `Properties`: the property's type flags, its `IsRequired` flag and the schema it came from. */
  datatype PropertySchema = PropertySchema(typeFlags: set<TypeFlag>, isRequired: bool, origin: Option<SchemaRef>)

  /** An entry of `Enumeration`: a number for integer enums, a string otherwise. */
  datatype EnumValue = IntValue(i: int) | StringValue(s: string)

  /** Newtonsoft's `Required` setting of a JSON property. */
  datatype Required = Default | AllowNull | Always | DisallowNull

  datatype SchemaState = SchemaState(
    typeFlags: set<TypeFlag>,
    oneOf: seq<SubSchema>,
    allOf: seq<SubSchema>,
    reference: Option<SchemaRef>,
    isNullableRaw: Option<bool>,
    properties: map<string, PropertySchema>,
    requiredProperties: seq<string>,
    enumeration: seq<EnumValue>,
    enumerationNames: seq<string>,
    isFlagEnumerable: bool,
    discriminator: Option<string>,
    minLength: Option<int>,
    maxLength: Option<int>,
    minItems: int,
    maxItems: int,
    minimum: Option<real>,
    maximum: Option<real>,
    multipleOf: Option<real>)

  /** A freshly constructed schema. */
  const Fresh := SchemaState({}, [], [], None, None, map[], [], [], [], false, None,
                             None, None, 0, 0, None, None, None)

  class SchemaRecord {
    var typeFlags: set<TypeFlag>
    var oneOf: seq<SubSchema>
    var allOf: seq<SubSchema>
    var reference: Option<SchemaRef>
    var isNullableRaw: Option<bool>
    var properties: map<string, PropertySchema>
    var requiredProperties: seq<string>
    var enumeration: seq<EnumValue>
    var enumerationNames: seq<string>
    var isFlagEnumerable: bool
    var discriminator: Option<string>
    var minLength: Option<int>
    var maxLength: Option<int>
    var minItems: int
    var maxItems: int
    var minimum: Option<real>
    var maximum: Option<real>
    var multipleOf: Option<real>

    function State(): SchemaState
      reads this
    {
      SchemaState(typeFlags, oneOf, allOf, reference, isNullableRaw, properties, requiredProperties,
                  enumeration, enumerationNames, isFlagEnumerable, discriminator,
                  minLength, maxLength, minItems, maxItems, minimum, maximum, multipleOf)
    }

    constructor ()
      ensures State() == Fresh
    {
      typeFlags := {};
      oneOf := [];
      allOf := [];
      reference := None;
      isNullableRaw := None;
      properties := map[];
      requiredProperties := [];
      enumeration := [];
      enumerationNames := [];
      isFlagEnumerable := false;
      discriminator := None;
      minLength := None;
      maxLength := None;
      minItems := 0;
      maxItems := 0;
      minimum := None;
      maximum := None;
      multipleOf := None;
    }
  }
}
