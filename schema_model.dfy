/**
 * The schema record the validator reads (`JsonSchema4`, already dereferenced
 * through `ActualSchema`), as a finite tree: every sub-schema is a component
 * of its parent, so recursion over it terminates.
 */
module SchemaModel {
  import opened JsonModel

  /**
   * The flags of `JsonObjectType` other than `None`, declared in the order of
   * their numeric values, which is the order `Enum.GetValues` lists them in.
   */
  datatype TypeFlag = Array | Boolean | Integer | Null | Number | Object | String | File

  const FlagOrder: seq<TypeFlag> := [Array, Boolean, Integer, Null, Number, Object, String, File]

  /** An entry of an ordered name-to-schema dictionary (`Properties`, `PatternProperties`). */
  datatype Prop = Prop(key: string, schema: Schema)

  datatype Schema = Schema(
    typeFlags: set<TypeFlag>,
    properties: seq<Prop>,
    requiredProperties: seq<string>,
    anyOf: seq<Schema>,
    allOf: seq<Schema>,
    oneOf: seq<Schema>,
    notSchema: Option<Schema>,
    item: Option<Schema>,
    items: seq<Schema>,
    additionalItemsSchema: Option<Schema>,
    allowAdditionalItems: bool,
    additionalPropertiesSchema: Option<Schema>,
    allowAdditionalProperties: bool,
    patternProperties: seq<Prop>,
    enumeration: seq<Json>,
    minimum: Option<real>,
    maximum: Option<real>,
    isExclusiveMinimum: bool,
    isExclusiveMaximum: bool,
    multipleOf: Option<real>,
    minLength: Option<int>,
    maxLength: Option<int>,
    pattern: Option<string>,
    format: Option<string>,
    minItems: int,
    maxItems: int,
    uniqueItems: bool,
    minProperties: int,
    maxProperties: int)

  /** A schema that constrains nothing, as a freshly constructed `JsonSchema4` is. */
  const Any: Schema := Schema({}, [], [], [], [], [], None, None, [], None, true, None, true, [],
                              [], None, None, false, false, None, None, None, None, None, 0, 0, false, 0, 0)

  /** `Properties.ContainsKey(key)`. */
  predicate Declares(s: Schema, key: string) {
    exists k :: 0 <= k < |s.properties| && s.properties[k].key == key
  }

  /** `JsonProperty.IsRequired`: the property's name is listed in its parent's `RequiredProperties`. */
  predicate IsRequired(parent: Schema, key: string) {
    key in parent.requiredProperties
  }
}
