/** What a supported schema is and what it means for a value to satisfy one, keyword by keyword,
    as a relation with quantifiers (JSON Schema Validation 2020-12, sections 6.1 to 6.5, and JSON
    Schema Core 2020-12, sections 10.2.1 and 10.3, with Python's own equality). The validator
    that raises on the first violation is proved against it in `SchemaValidator`. */
module SchemaRules {
  import opened Basics
  import opened JsonValues

  /** The `re` module, which is not modelled: what compiles and what is found. */
  datatype Regex = Regex(compiles: string -> bool, finds: (string, string) -> bool)

  type Dict = map<string, Json>

  function SupportedKeys(): set<string> {
    {
    "$schema", "$id", "title", "description", "default", "examples",
    "type", "enum", "const",
    "properties", "required", "additionalProperties", "minProperties", "maxProperties",
    "items", "minItems", "maxItems", "uniqueItems",
    "minLength", "maxLength", "pattern",
    "minimum", "maximum", "exclusiveMinimum", "exclusiveMaximum", "multipleOf",
    "allOf", "anyOf", "oneOf", "not"}
  }

  function JsonTypes(): set<string> {
    {"object", "array", "string", "integer", "number", "boolean", "null"}
  }

  /** Python's numbers, `bool` included: `True == 1 == 1.0`. */
  function AsNumber(j: Json): Option<real> {
    match j
    case Bool(b) => Some(if b then 1.0 else 0.0)
    case Int(i) => Some(i as real)
    case Float(r) => Some(r)
    case _ => None
  }

  /** Python's `==` on decoded JSON. */
  predicate PyEqual(a: Json, b: Json)
    decreases a
  {
    match a
    case Null => b.Null?
    case Str(s) => b == a
    case Arr(items) =>
      && b.Arr? && |items| == |b.items|
      && forall i | 0 <= i < |items| :: PyEqual(items[i], b.items[i])
    case Obj(fields) =>
      && b.Obj? && fields.Keys == b.fields.Keys
      && forall k | k in fields :: PyEqual(fields[k], b.fields[k])
    case _ => AsNumber(a) == AsNumber(b)
  }

  predicate IsNumber(j: Json) {
    j.Int? || j.Float?
  }

  function NumberOf(j: Json): real
    requires IsNumber(j)
  {
    if j.Int? then j.i as real else j.r
  }

  // ---- supported schemas ----------------------------------------------------------------

  /** `[declared] if isinstance(declared, str) else declared` */
  function TypeList(declared: Json): Json {
    if declared.Str? then Arr([declared]) else declared
  }

  predicate TypeKeywordOk(declared: Json) {
    && TypeList(declared).Arr? && TypeList(declared).items != []
    && forall i | 0 <= i < |TypeList(declared).items| ::
         TypeList(declared).items[i].Str? && TypeList(declared).items[i].s in JsonTypes()
  }

  predicate StringArray(j: Json) {
    j.Arr? && forall i | 0 <= i < |j.items| :: j.items[i].Str?
  }

  predicate NonEmptyArray(j: Json) {
    j.Arr? && j.items != []
  }

  predicate SizeOk(f: Dict, key: string) {
    key in f ==> f[key].Int? && f[key].i >= 0
  }

  predicate BoundOk(f: Dict, key: string) {
    key in f ==> IsNumber(f[key])
  }

  /** The keywords whose values hold no schema. */
  predicate LeafKeywordOk(rx: Regex, f: Dict) {
    && ("type" in f && f["type"] != Null ==> TypeKeywordOk(f["type"]))
    && ("required" in f ==> StringArray(f["required"]))
    && ("pattern" in f ==> f["pattern"].Str? && rx.compiles(f["pattern"].s))
    && SizeOk(f, "minProperties") && SizeOk(f, "maxProperties") && SizeOk(f, "minItems")
    && SizeOk(f, "maxItems") && SizeOk(f, "minLength") && SizeOk(f, "maxLength")
    && BoundOk(f, "minimum") && BoundOk(f, "maximum") && BoundOk(f, "exclusiveMinimum")
    && BoundOk(f, "exclusiveMaximum") && BoundOk(f, "multipleOf")
    && ("multipleOf" in f ==> NumberOf(f["multipleOf"]) > 0.0)
    && ("uniqueItems" in f ==> f["uniqueItems"].Bool?)
    && ("enum" in f ==> NonEmptyArray(f["enum"]))
  }

  ghost predicate Supported(rx: Regex, schema: Json)
    decreases schema
  {
    && schema.Obj?
    && var f := schema.fields;
    && f.Keys <= SupportedKeys()
    && LeafKeywordOk(rx, f)
    && ("properties" in f ==>
          f["properties"].Obj? && forall k | k in f["properties"].fields ::
            Supported(rx, f["properties"].fields[k]))
    && ("additionalProperties" in f ==>
          || f["additionalProperties"].Bool?
          || Supported(rx, f["additionalProperties"]))
    && ("items" in f ==> Supported(rx, f["items"]))
    && ("allOf" in f ==> NonEmptyArray(f["allOf"]) && forall i | 0 <= i < |f["allOf"].items| ::
          Supported(rx, f["allOf"].items[i]))
    && ("anyOf" in f ==> NonEmptyArray(f["anyOf"]) && forall i | 0 <= i < |f["anyOf"].items| ::
          Supported(rx, f["anyOf"].items[i]))
    && ("oneOf" in f ==> NonEmptyArray(f["oneOf"]) && forall i | 0 <= i < |f["oneOf"].items| ::
          Supported(rx, f["oneOf"].items[i]))
    && ("not" in f ==> Supported(rx, f["not"]))
  }

  // ---- satisfaction ---------------------------------------------------------------------

  predicate TypeMatches(value: Json, declared: string) {
    match declared
    case "object" => value.Obj?
    case "array" => value.Arr?
    case "string" => value.Str?
    case "integer" => value.Int?
    case "number" => value.Int? || value.Float?
    case "boolean" => value.Bool?
    case "null" => value.Null?
    case _ => false
  }

  /** Validation section 6.1: `type`, `enum`, `const`. */
  predicate GeneralHolds(f: Dict, value: Json)
    requires "type" in f && f["type"] != Null ==> TypeKeywordOk(f["type"])
    requires "enum" in f ==> f["enum"].Arr?
  {
    && ("type" in f && f["type"] != Null ==>
          exists i | 0 <= i < |TypeList(f["type"]).items| ::
            TypeMatches(value, TypeList(f["type"]).items[i].s))
    && ("enum" in f ==> exists i | 0 <= i < |f["enum"].items| :: PyEqual(value, f["enum"].items[i]))
    && ("const" in f ==> PyEqual(value, f["const"]))
  }

  predicate SizeWithin(f: Dict, low: string, high: string, size: nat)
    requires SizeOk(f, low) && SizeOk(f, high)
  {
    && (low in f ==> f[low].i <= size)
    && (high in f ==> size <= f[high].i)
  }

  function Times(n: int, divisor: real): real {
    n as real * divisor
  }

  ghost predicate IsMultiple(x: real, divisor: real) {
    exists n :: Times(n, divisor) == x
  }

  /** Validation section 6.2: numeric keywords. */
  ghost predicate NumericHolds(f: Dict, x: real)
    requires BoundOk(f, "minimum") && BoundOk(f, "maximum") && BoundOk(f, "exclusiveMinimum")
    requires BoundOk(f, "exclusiveMaximum") && BoundOk(f, "multipleOf")
  {
    && ("minimum" in f ==> NumberOf(f["minimum"]) <= x)
    && ("maximum" in f ==> x <= NumberOf(f["maximum"]))
    && ("exclusiveMinimum" in f ==> NumberOf(f["exclusiveMinimum"]) < x)
    && ("exclusiveMaximum" in f ==> x < NumberOf(f["exclusiveMaximum"]))
    && ("multipleOf" in f ==> IsMultiple(x, NumberOf(f["multipleOf"])))
  }

  /** Core section 10.2.1: `allOf`, `anyOf`, `oneOf`, `not`. */
  ghost predicate CombinatorsHold(rx: Regex, schema: Json, value: Json)
    requires Supported(rx, schema)
    decreases schema, 0
  {
    var f := schema.fields;
    && ("allOf" in f ==> forall i | 0 <= i < |f["allOf"].items| ::
          Satisfies(rx, f["allOf"].items[i], value))
    && ("anyOf" in f ==> exists i | 0 <= i < |f["anyOf"].items| ::
          Satisfies(rx, f["anyOf"].items[i], value))
    && ("oneOf" in f ==> exists i | 0 <= i < |f["oneOf"].items| ::
          && Satisfies(rx, f["oneOf"].items[i], value)
          && forall j | 0 <= j < |f["oneOf"].items| && j != i ::
               !Satisfies(rx, f["oneOf"].items[j], value))
    && ("not" in f ==> !Satisfies(rx, f["not"], value))
  }

  function Properties(f: Dict): Dict {
    if "properties" in f && f["properties"].Obj? then f["properties"].fields else map[]
  }

  /** Validation section 6.5 and Core section 10.3.2: object keywords. */
  ghost predicate ObjectHolds(rx: Regex, schema: Json, o: Dict)
    requires Supported(rx, schema)
    decreases schema, 0
  {
    var f := schema.fields;
    && ("required" in f ==> forall i | 0 <= i < |f["required"].items| :: f["required"].items[i].s in o)
    && SizeWithin(f, "minProperties", "maxProperties", |o|)
    && (forall k | k in Properties(f) && k in o :: Satisfies(rx, f["properties"].fields[k], o[k]))
    && ("additionalProperties" in f ==>
          forall k | k in o && k !in Properties(f) ::
            if f["additionalProperties"].Bool? then f["additionalProperties"].b
            else Satisfies(rx, f["additionalProperties"], o[k]))
  }

  /** Validation section 6.4 and Core section 10.3.1: array keywords. */
  ghost predicate ArrayHolds(rx: Regex, schema: Json, a: seq<Json>)
    requires Supported(rx, schema)
    decreases schema, 0
  {
    var f := schema.fields;
    && SizeWithin(f, "minItems", "maxItems", |a|)
    && ("uniqueItems" in f && f["uniqueItems"].b ==> forall i, j | 0 <= i < j < |a| :: a[i] != a[j])
    && ("items" in f ==> forall i | 0 <= i < |a| :: Satisfies(rx, f["items"], a[i]))
  }

  /** Validation section 6.3: string keywords. */
  predicate StringHolds(rx: Regex, f: Dict, s: string)
    requires SizeOk(f, "minLength") && SizeOk(f, "maxLength")
    requires "pattern" in f ==> f["pattern"].Str?
  {
    && SizeWithin(f, "minLength", "maxLength", |s|)
    && ("pattern" in f ==> rx.finds(f["pattern"].s, s))
  }

  ghost predicate Satisfies(rx: Regex, schema: Json, value: Json)
    requires Supported(rx, schema)
    decreases schema, 1
  {
    && GeneralHolds(schema.fields, value)
    && CombinatorsHold(rx, schema, value)
    && (value.Obj? ==> ObjectHolds(rx, schema, value.fields))
    && (value.Arr? ==> ArrayHolds(rx, schema, value.items))
    && (value.Str? ==> StringHolds(rx, schema.fields, value.s))
    && (IsNumber(value) ==> NumericHolds(schema.fields, NumberOf(value)))
  }
}
