/**
 * The TypeScript side of code generation: the mapping from a schema's type
 * flags to a TypeScript type name, with the registry of interface generators
 * it fills as it meets named object schemas, and the two decisions the data
 * conversion generator takes (is a format a date, is a schema newable).
 */
module TypeScriptTypes {
  import opened JsonModel
  import opened SchemaModel

  /** `JsonFormatStrings.DateTime`, `Date`, `Time` and `TimeSpan`. */
  const DateTimeFormat := "date-time"
  const DateFormat := "date"
  const TimeFormat := "time"
  const TimeSpanFormat := "time-span"

  /** The part of `JsonSchema4` the type resolver reads. */
  datatype TsSchema = TsSchema(
    typeFlags: set<TypeFlag>,
    item: Option<TsSchema>,
    format: Option<string>,
    typeName: Option<string>,
    isTypeReference: bool)

  /** `!string.IsNullOrEmpty(schema.TypeName)`. */
  predicate HasTypeName(s: TsSchema) {
    s.typeName.Some? && s.typeName.value != []
  }

  /** A named object schema that is not itself a reference gets an interface generator. */
  predicate Registers(s: TsSchema) {
    HasTypeName(s) && !s.isTypeReference
  }

  /**
   * The name `Resolve` returns; `None` where it throws `NotImplementedException`
   * (an array without `Item`, or none of the six flags it knows).
   */
  function ResolvedName(s: TsSchema): Option<string>
  {
    if Array in s.typeFlags then
      match s.item
      case Some(item) =>
        (match ResolvedName(item) case Some(n) => Some(n + "[]") case None => None)
      case None => None
    else if Number in s.typeFlags then Some("number")
    else if Integer in s.typeFlags then Some("number")
    else if Boolean in s.typeFlags then Some("boolean")
    else if String in s.typeFlags then
      (if s.format == Some(DateTimeFormat) then Some("Date") else Some("string"))
    else if Object in s.typeFlags then
      (if HasTypeName(s) then Some(s.typeName.value) else Some("object"))
    else None
  }

  /** The registry of interface generators after resolving `s`; a generator is identified by its schema. */
  function Registered(types: map<string, TsSchema>, s: TsSchema): map<string, TsSchema>
  {
    if Array in s.typeFlags then
      (match s.item case Some(item) => Registered(types, item) case None => types)
    else if Number in s.typeFlags || Integer in s.typeFlags || Boolean in s.typeFlags ||
            String in s.typeFlags then types
    else if Object in s.typeFlags && Registers(s) && s.typeName.value !in types then
      types[s.typeName.value := s]
    else types
  }

  /** The schema an array's element type is finally taken from, following `Item` through nested arrays. */
  function Element(s: TsSchema): TsSchema
  {
    if Array in s.typeFlags && s.item.Some? then Element(s.item.value) else s
  }

  /** How many arrays are nested above `Element(s)`. */
  function Depth(s: TsSchema): nat
  {
    if Array in s.typeFlags && s.item.Some? then Depth(s.item.value) + 1 else 0
  }

  function Brackets(n: nat): string
  {
    if n == 0 then [] else Brackets(n - 1) + "[]"
  }

  /** None of the flags that map to "number" or "boolean". */
  predicate NoScalarFlag(s: TsSchema) {
    Number !in s.typeFlags && Integer !in s.typeFlags && Boolean !in s.typeFlags
  }

  /**
   * The name of a non-array schema, by the first of Number, Integer, Boolean,
   * String and Object that is set.
   */
  function ScalarName(s: TsSchema): (r: Option<string>)
    requires Array !in s.typeFlags
    ensures r.None? <==>
      Number !in s.typeFlags && Integer !in s.typeFlags && Boolean !in s.typeFlags &&
      String !in s.typeFlags && Object !in s.typeFlags
    ensures (Number in s.typeFlags || Integer in s.typeFlags) ==> r == Some("number")
    ensures Number !in s.typeFlags && Integer !in s.typeFlags && Boolean in s.typeFlags ==>
      r == Some("boolean")
    ensures NoScalarFlag(s) && String in s.typeFlags ==>
      r == Some(if s.format == Some(DateTimeFormat) then "Date" else "string")
    ensures NoScalarFlag(s) && String !in s.typeFlags && Object in s.typeFlags ==>
      r == Some(if HasTypeName(s) then s.typeName.value else "object")
  {
    ResolvedName(s)
  }

  /**
   * An array resolves to its element's name followed by one "[]" per nesting
   * level, and fails exactly when the innermost array has no `Item` or the
   * element has none of the known flags.
   */
  lemma {:induction false} ArrayNames(s: TsSchema)
    ensures Array in Element(s).typeFlags ==> ResolvedName(s).None?
    ensures Array !in Element(s).typeFlags ==>
      ResolvedName(s) ==
        (match ScalarName(Element(s)) case Some(n) => Some(n + Brackets(Depth(s))) case None => None)
  {
    if Array in s.typeFlags && s.item.Some? {
      ArrayNames(s.item.value);
      if Array !in Element(s).typeFlags && ScalarName(Element(s)).Some? {
        var n := ScalarName(Element(s)).value;
        assert n + Brackets(Depth(s)) == n + Brackets(Depth(s.item.value)) + "[]";
      }
    } else if Array !in s.typeFlags && ScalarName(s).Some? {
      assert ScalarName(s).value + Brackets(0) == ScalarName(s).value;
    }
  }

  /** Registration never overwrites an existing entry, and never removes one. */
  lemma {:induction false} NeverOverwrites(types: map<string, TsSchema>, s: TsSchema)
    ensures types.Keys <= Registered(types, s).Keys
    ensures forall k :: k in types ==> Registered(types, s)[k] == types[k]
  {
    if Array in s.typeFlags && s.item.Some? {
      NeverOverwrites(types, s.item.value);
    }
  }

  /**
   * At most the element's own name is added, and it is added exactly when the
   * element is a named object that is not a reference and the name is new.
   */
  lemma {:induction false} RegistersElement(types: map<string, TsSchema>, s: TsSchema)
    ensures var e := Element(s);
      var added := Array !in e.typeFlags && NoScalarFlag(e) && String !in e.typeFlags &&
        Object in e.typeFlags && Registers(e) && e.typeName.value !in types;
      Registered(types, s) == if added then types[e.typeName.value := e] else types
  {
    if Array in s.typeFlags && s.item.Some? {
      RegistersElement(types, s.item.value);
    }
  }

  /** Resolving the same schema again registers nothing more. */
  lemma {:induction false} RegisterIdempotent(types: map<string, TsSchema>, s: TsSchema)
    ensures Registered(Registered(types, s), s) == Registered(types, s)
  {
    RegistersElement(types, s);
    RegistersElement(Registered(types, s), s);
  }

  /** `TypeScriptTypeResolver`: the `_types` registry and `Resolve`. */
  class TypeResolver {
    var types: map<string, TsSchema>

    constructor ()
      ensures types == map[]
    {
      types := map[];
    }

    /** `Resolve(schema)`; `None` stands for the `NotImplementedException`. */
    method Resolve(schema: TsSchema) returns (r: Option<string>)
      modifies this
      ensures r == ResolvedName(schema)
      ensures types == Registered(old(types), schema)
      decreases schema
    {
      var flags := schema.typeFlags;
      if Array in flags {
        if schema.item.Some? {
          var inner := Resolve(schema.item.value);
          if inner.None? {
            return None;
          }
          return Some(inner.value + "[]");
        }
        return None;
      }
      if Number in flags {
        return Some("number");
      }
      if Integer in flags {
        return Some("number");
      }
      if Boolean in flags {
        return Some("boolean");
      }
      if String in flags {
        if schema.format == Some(DateTimeFormat) {
          return Some("Date");
        }
        return Some("string");
      }
      if Object in flags {
        if HasTypeName(schema) {
          var name := schema.typeName.value;
          if name !in types && !schema.isTypeReference {
            types := types[name := schema];
          }
          return Some(name);
        }
        return Some("object");
      }
      return None;
    }
  }

  /** `TypeScriptDateTimeType`: how dates are represented in generated code. */
  datatype DateTimeType = Date | MomentJS | OtherDateTimeType

  /** `DataConversionGenerator.IsDate`: does a value of this format convert to a date object. */
  function IsDate(format: Option<string>, mode: DateTimeType): bool
  {
    if mode == Date then
      if format == Some(DateFormat) then true
      else if format == Some(DateTimeFormat) then true
      else if format == Some(TimeFormat) then false
      else if format == Some(TimeSpanFormat) then false
      else false
    else if mode == MomentJS then
      if format == Some(DateFormat) then true
      else if format == Some(DateTimeFormat) then true
      else if format == Some(TimeFormat) then true
      else if format == Some(TimeSpanFormat) then true
      else false
    else false
  }

  /** The date table: dates and date-times in both modes; times and time spans only with MomentJS. */
  lemma DateTable(format: Option<string>, mode: DateTimeType)
    ensures IsDate(format, mode) <==>
      (mode == Date && format in {Some(DateFormat), Some(DateTimeFormat)}) ||
      (mode == MomentJS &&
       format in {Some(DateFormat), Some(DateTimeFormat), Some(TimeFormat), Some(TimeSpanFormat)})
  {
  }

  /** `IsNewableObject`, on the facts of the actual schema it reads. */
  function IsNewableObject(typeFlags: set<TypeFlag>, isAnyType: bool, isDictionary: bool): (r: bool)
    ensures r ==> Object in typeFlags
    ensures isAnyType || isDictionary ==> !r
    ensures Object in typeFlags && !isAnyType && !isDictionary ==> r
  {
    Object in typeFlags && !isAnyType && !isDictionary
  }
}
