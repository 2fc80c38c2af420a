/** The schema checker and the validator of `tools.py`, statement by statement: loops that stop at
    the first violation, in the source's order. `false` stands for the ValueError. Both are proved
    against the relations of `SchemaRules`, and both end because every recursive call is on a part
    of the schema. */
module SchemaValidator {
  import opened Basics
  import opened JsonValues
  import opened SchemaRules

  // ---- `_check_supported_schema` --------------------------------------------------------

  method CheckType(declared: Json) returns (ok: bool)
    ensures ok <==> TypeKeywordOk(declared)
  {
    var values := TypeList(declared);
    if !values.Arr? || values.items == [] {
      return false;
    }
    for i := 0 to |values.items|
      invariant forall j | 0 <= j < i :: values.items[j].Str? && values.items[j].s in JsonTypes()
    {
      if !values.items[i].Str? || values.items[i].s !in JsonTypes() {
        return false;
      }
    }
    return true;
  }

  method CheckStrings(j: Json) returns (ok: bool)
    ensures ok <==> StringArray(j)
  {
    if !j.Arr? {
      return false;
    }
    for i := 0 to |j.items|
      invariant forall k | 0 <= k < i :: j.items[k].Str?
    {
      if !j.items[i].Str? {
        return false;
      }
    }
    return true;
  }

  method CheckSizes(f: Dict, keys: seq<string>) returns (ok: bool)
    ensures ok <==> forall i | 0 <= i < |keys| :: SizeOk(f, keys[i])
  {
    for i := 0 to |keys|
      invariant forall j | 0 <= j < i :: SizeOk(f, keys[j])
    {
      if keys[i] in f && (!f[keys[i]].Int? || f[keys[i]].i < 0) {
        return false;
      }
    }
    return true;
  }

  method CheckBounds(f: Dict, keys: seq<string>) returns (ok: bool)
    ensures ok <==> forall i | 0 <= i < |keys| :: BoundOk(f, keys[i])
  {
    for i := 0 to |keys|
      invariant forall j | 0 <= j < i :: BoundOk(f, keys[j])
    {
      if keys[i] in f && !f[keys[i]].Int? && !f[keys[i]].Float? {
        return false;
      }
    }
    return true;
  }

  /** The numeric and boolean keywords and `enum`. */
  predicate ScalarKeywordsOk(f: Dict) {
    && SizeOk(f, "minProperties") && SizeOk(f, "maxProperties") && SizeOk(f, "minItems")
    && SizeOk(f, "maxItems") && SizeOk(f, "minLength") && SizeOk(f, "maxLength")
    && BoundOk(f, "minimum") && BoundOk(f, "maximum") && BoundOk(f, "exclusiveMinimum")
    && BoundOk(f, "exclusiveMaximum") && BoundOk(f, "multipleOf")
    && ("multipleOf" in f ==> NumberOf(f["multipleOf"]) > 0.0)
    && ("uniqueItems" in f ==> f["uniqueItems"].Bool?)
    && ("enum" in f ==> NonEmptyArray(f["enum"]))
  }

  method CheckScalarKeywords(f: Dict) returns (ok: bool)
    ensures ok <==> ScalarKeywordsOk(f)
  {
    hide SizeOk, BoundOk;
    var sizeKeys := ["minProperties", "maxProperties", "minItems", "maxItems", "minLength", "maxLength"];
    var sizes := CheckSizes(f, sizeKeys);
    if !sizes {
      assert exists i :: 0 <= i < 6 && !SizeOk(f, sizeKeys[i]);
      return false;
    }
    assert SizeOk(f, sizeKeys[0]) && SizeOk(f, sizeKeys[1]) && SizeOk(f, sizeKeys[2]);
    assert SizeOk(f, sizeKeys[3]) && SizeOk(f, sizeKeys[4]) && SizeOk(f, sizeKeys[5]);
    var boundKeys := ["minimum", "maximum", "exclusiveMinimum", "exclusiveMaximum", "multipleOf"];
    var bounds := CheckBounds(f, boundKeys);
    if !bounds {
      assert exists i :: 0 <= i < 5 && !BoundOk(f, boundKeys[i]);
      return false;
    }
    assert BoundOk(f, boundKeys[0]) && BoundOk(f, boundKeys[1]) && BoundOk(f, boundKeys[2]);
    assert BoundOk(f, boundKeys[3]) && BoundOk(f, boundKeys[4]);
    ok := CheckLastKeywords(f);
  }

  method CheckLastKeywords(f: Dict) returns (ok: bool)
    requires BoundOk(f, "multipleOf")
    ensures ok <==>
      && ("multipleOf" in f ==> NumberOf(f["multipleOf"]) > 0.0)
      && ("uniqueItems" in f ==> f["uniqueItems"].Bool?)
      && ("enum" in f ==> NonEmptyArray(f["enum"]))
  {
    if "multipleOf" in f && NumberOf(f["multipleOf"]) <= 0.0 {
      return false;
    }
    if "uniqueItems" in f && !f["uniqueItems"].Bool? {
      return false;
    }
    if "enum" in f && (!f["enum"].Arr? || f["enum"].items == []) {
      return false;
    }
    return true;
  }

  /** Every schema of a non-empty array. */
  method CheckBranches(rx: Regex, branches: Json) returns (ok: bool)
    ensures ok <==> NonEmptyArray(branches) && forall i | 0 <= i < |branches.items| :: Supported(rx, branches.items[i])
    decreases branches, 0
  {
    hide Supported;
    if !branches.Arr? || branches.items == [] {
      return false;
    }
    for i := 0 to |branches.items|
      invariant forall j | 0 <= j < i :: Supported(rx, branches.items[j])
    {
      var child := CheckSupportedSchema(rx, branches.items[i]);
      if !child {
        return false;
      }
    }
    return true;
  }

  method CheckProperties(rx: Regex, properties: Json) returns (ok: bool)
    ensures ok <==> properties.Obj? && forall k | k in properties.fields :: Supported(rx, properties.fields[k])
    decreases properties, 0
  {
    hide Supported;
    if !properties.Obj? {
      return false;
    }
    var todo := properties.fields.Keys;
    while todo != {}
      invariant todo <= properties.fields.Keys
      invariant forall k | k in properties.fields && k !in todo :: Supported(rx, properties.fields[k])
      decreases |todo|
    {
      var name :| name in todo;
      var child := CheckSupportedSchema(rx, properties.fields[name]);
      if !child {
        return false;
      }
      todo := todo - {name};
    }
    return true;
  }

  /** The keywords that hold schemas. */
  ghost predicate SubschemasOk(rx: Regex, f: Dict) {
    && ("properties" in f ==>
          f["properties"].Obj? && forall k | k in f["properties"].fields :: Supported(rx, f["properties"].fields[k]))
    && ("additionalProperties" in f ==> f["additionalProperties"].Bool? || Supported(rx, f["additionalProperties"]))
    && ("items" in f ==> Supported(rx, f["items"]))
    && BranchesOk(rx, f, "allOf") && BranchesOk(rx, f, "anyOf") && BranchesOk(rx, f, "oneOf")
    && ("not" in f ==> Supported(rx, f["not"]))
  }

  ghost predicate BranchesOk(rx: Regex, f: Dict, key: string) {
    key in f ==> NonEmptyArray(f[key]) && forall i | 0 <= i < |f[key].items| :: Supported(rx, f[key].items[i])
  }

  method CheckSubschemas(rx: Regex, schema: Json) returns (ok: bool)
    requires schema.Obj?
    ensures ok <==> SubschemasOk(rx, schema.fields)
    decreases schema, 0
  {
    hide Supported;
    var f := schema.fields;
    if "properties" in f {
      var properties := CheckProperties(rx, f["properties"]);
      if !properties {
        return false;
      }
    }
    if "additionalProperties" in f {
      if !f["additionalProperties"].Bool? && !f["additionalProperties"].Obj? {
        NotAnObject(rx, f["additionalProperties"]);
        return false;
      }
      if f["additionalProperties"].Obj? {
        var additional := CheckSupportedSchema(rx, f["additionalProperties"]);
        if !additional {
          return false;
        }
      }
    }
    if "items" in f {
      var items := CheckSupportedSchema(rx, f["items"]);
      if !items {
        return false;
      }
    }
    var keys := ["allOf", "anyOf", "oneOf"];
    for i := 0 to |keys|
      invariant i >= 1 ==> BranchesOk(rx, f, "allOf")
      invariant i >= 2 ==> BranchesOk(rx, f, "anyOf")
      invariant i >= 3 ==> BranchesOk(rx, f, "oneOf")
    {
      if keys[i] in f {
        var branches := CheckBranches(rx, f[keys[i]]);
        if !branches {
          assert keys[i] == "allOf" || keys[i] == "anyOf" || keys[i] == "oneOf";
          return false;
        }
      }
    }
    if "not" in f {
      var negated := CheckSupportedSchema(rx, f["not"]);
      if !negated {
        return false;
      }
    }
    return true;
  }

  lemma NotAnObject(rx: Regex, schema: Json)
    requires !schema.Obj?
    ensures !Supported(rx, schema)
  {
  }

  /** `_check_supported_schema`: accepts exactly the supported schemas. */
  method CheckSupportedSchema(rx: Regex, schema: Json) returns (ok: bool)
    ensures ok <==> Supported(rx, schema)
    decreases schema, 1
  {
    hide SubschemasOk, ScalarKeywordsOk, TypeKeywordOk, StringArray;
    if !schema.Obj? {
      return false;
    }
    var f := schema.fields;
    SupportedParts(rx, schema);
    if !(f.Keys <= SupportedKeys()) {
      return false;
    }
    if "type" in f && f["type"] != Null {
      var typed := CheckType(f["type"]);
      if !typed {
        return false;
      }
    }
    if "required" in f {
      var required := CheckStrings(f["required"]);
      if !required {
        return false;
      }
    }
    var subschemas := CheckSubschemas(rx, schema);
    if !subschemas {
      return false;
    }
    if "pattern" in f && (!f["pattern"].Str? || !rx.compiles(f["pattern"].s)) {
      return false;
    }
    ok := CheckScalarKeywords(f);
  }

  lemma SupportedParts(rx: Regex, schema: Json)
    requires schema.Obj?
    ensures var f := schema.fields;
      Supported(rx, schema) <==>
        && f.Keys <= SupportedKeys()
        && ("type" in f && f["type"] != Null ==> TypeKeywordOk(f["type"]))
        && ("required" in f ==> StringArray(f["required"]))
        && ("pattern" in f ==> f["pattern"].Str? && rx.compiles(f["pattern"].s))
        && ScalarKeywordsOk(f) && SubschemasOk(rx, f)
  {
    hide TypeKeywordOk, SizeOk, BoundOk, StringArray;
  }

  // ---- `_validate_schema_value` ---------------------------------------------------------

  /** Python's `value in items`. */
  method Member(value: Json, items: seq<Json>) returns (found: bool)
    ensures found <==> exists i | 0 <= i < |items| :: PyEqual(value, items[i])
  {
    for i := 0 to |items|
      invariant forall j | 0 <= j < i :: !PyEqual(value, items[j])
    {
      if PyEqual(value, items[i]) {
        return true;
      }
    }
    return false;
  }

  method CheckGeneral(f: Dict, value: Json) returns (ok: bool)
    requires "type" in f && f["type"] != Null ==> TypeKeywordOk(f["type"])
    requires "enum" in f ==> f["enum"].Arr?
    ensures ok <==> GeneralHolds(f, value)
  {
    hide PyEqual, TypeMatches;
    if "type" in f && f["type"] != Null {
      var types := TypeList(f["type"]).items;
      var matched := false;
      for i := 0 to |types|
        invariant matched <==> exists j | 0 <= j < i :: TypeMatches(value, types[j].s)
      {
        matched := matched || TypeMatches(value, types[i].s);
      }
      if !matched {
        return false;
      }
    }
    if "enum" in f {
      var found := Member(value, f["enum"].items);
      if !found {
        return false;
      }
    }
    return "const" in f ==> PyEqual(value, f["const"]);
  }

  ghost predicate AllSupported(rx: Regex, schemas: seq<Json>) {
    forall i | 0 <= i < |schemas| :: Supported(rx, schemas[i])
  }

  method AcceptAll(rx: Regex, branches: Json, value: Json) returns (ok: bool)
    requires branches.Arr? && AllSupported(rx, branches.items)
    ensures ok <==> forall i | 0 <= i < |branches.items| :: Satisfies(rx, branches.items[i], value)
    decreases branches, 0
  {
    hide Supported, Satisfies;
    for i := 0 to |branches.items|
      invariant forall j | 0 <= j < i :: Satisfies(rx, branches.items[j], value)
    {
      var child := ValidateSchemaValue(rx, branches.items[i], value);
      if !child {
        return false;
      }
    }
    return true;
  }

  method AcceptAny(rx: Regex, branches: Json, value: Json) returns (ok: bool)
    requires branches.Arr? && AllSupported(rx, branches.items)
    ensures ok <==> exists i | 0 <= i < |branches.items| :: Satisfies(rx, branches.items[i], value)
    decreases branches, 0
  {
    hide Supported, Satisfies;
    for i := 0 to |branches.items|
      invariant forall j | 0 <= j < i :: !Satisfies(rx, branches.items[j], value)
    {
      var child := SchemaAccepts(rx, branches.items[i], value);
      if child {
        return true;
      }
    }
    return false;
  }

  /** The sum of the branch verdicts compared with one. */
  method AcceptOne(rx: Regex, branches: Json, value: Json) returns (ok: bool)
    requires branches.Arr? && AllSupported(rx, branches.items)
    ensures ok <==> exists i | 0 <= i < |branches.items| ::
                      && Satisfies(rx, branches.items[i], value)
                      && forall j | 0 <= j < |branches.items| && j != i :: !Satisfies(rx, branches.items[j], value)
    decreases branches, 0
  {
    hide Supported, Satisfies;
    var count := 0;
    ghost var first, second := 0, 0;
    for i := 0 to |branches.items|
      invariant count >= 0
      invariant count == 0 ==> forall j | 0 <= j < i :: !Satisfies(rx, branches.items[j], value)
      invariant count >= 1 ==> 0 <= first < i && Satisfies(rx, branches.items[first], value)
      invariant count == 1 ==> forall j | 0 <= j < i && j != first :: !Satisfies(rx, branches.items[j], value)
      invariant count >= 2 ==> first < second < i && Satisfies(rx, branches.items[second], value)
    {
      var child := SchemaAccepts(rx, branches.items[i], value);
      assert child <==> Satisfies(rx, branches.items[i], value);
      if child {
        first, second := if count == 0 then i else first, if count == 1 then i else second;
        count := count + 1;
      }
    }
    ok := count == 1;
  }

  /** The branches of a supported schema's combinator are an array of supported schemas. */
  ghost predicate Branches(rx: Regex, f: Dict, key: string) {
    key in f ==> f[key].Arr? && AllSupported(rx, f[key].items)
  }

  ghost predicate AllOfHolds(rx: Regex, f: Dict, value: Json)
    requires Branches(rx, f, "allOf")
  {
    "allOf" in f ==> forall i | 0 <= i < |f["allOf"].items| :: Satisfies(rx, f["allOf"].items[i], value)
  }

  ghost predicate AnyOfHolds(rx: Regex, f: Dict, value: Json)
    requires Branches(rx, f, "anyOf")
  {
    "anyOf" in f ==> exists i | 0 <= i < |f["anyOf"].items| :: Satisfies(rx, f["anyOf"].items[i], value)
  }

  ghost predicate OneOfHolds(rx: Regex, f: Dict, value: Json)
    requires Branches(rx, f, "oneOf")
  {
    "oneOf" in f ==> exists i | 0 <= i < |f["oneOf"].items| ::
      && Satisfies(rx, f["oneOf"].items[i], value)
      && forall j | 0 <= j < |f["oneOf"].items| && j != i :: !Satisfies(rx, f["oneOf"].items[j], value)
  }

  lemma CombinatorsParts(rx: Regex, schema: Json)
    requires Supported(rx, schema)
    ensures schema.Obj?
    ensures var f := schema.fields;
      && Branches(rx, f, "allOf") && Branches(rx, f, "anyOf") && Branches(rx, f, "oneOf")
      && ("not" in f ==> Supported(rx, f["not"]))
  {
    hide LeafKeywordOk;
  }

  lemma CombinatorsMeaning(rx: Regex, schema: Json, value: Json)
    requires Supported(rx, schema)
    requires Branches(rx, schema.fields, "allOf") && Branches(rx, schema.fields, "anyOf")
    requires Branches(rx, schema.fields, "oneOf") && ("not" in schema.fields ==> Supported(rx, schema.fields["not"]))
    ensures CombinatorsHold(rx, schema, value) <==>
      && AllOfHolds(rx, schema.fields, value) && AnyOfHolds(rx, schema.fields, value)
      && OneOfHolds(rx, schema.fields, value) && ("not" in schema.fields ==> !Satisfies(rx, schema.fields["not"], value))
  {
    hide LeafKeywordOk, GeneralHolds, ObjectHolds, ArrayHolds, StringHolds, NumericHolds;
  }

  method CheckCombinators(rx: Regex, schema: Json, value: Json) returns (ok: bool)
    requires Supported(rx, schema)
    ensures ok <==> CombinatorsHold(rx, schema, value)
    decreases schema, 0
  {
    CombinatorsParts(rx, schema);
    CombinatorsMeaning(rx, schema, value);
    var f := schema.fields;
    hide *;
    ok := CheckAllOf(rx, schema, f, value);
    if !ok {
      return;
    }
    ok := CheckAnyOf(rx, schema, f, value);
    if !ok {
      return;
    }
    ok := CheckOneOf(rx, schema, f, value);
    if !ok {
      return;
    }
    if "not" in f {
      var forbidden := SchemaAccepts(rx, f["not"], value);
      ok := !forbidden;
    }
  }

  method CheckAllOf(rx: Regex, ghost schema: Json, f: Dict, value: Json) returns (ok: bool)
    requires schema == Obj(f) && Branches(rx, f, "allOf")
    ensures ok <==> AllOfHolds(rx, f, value)
    decreases schema, 0, 0
  {
    hide Supported, Satisfies, AllSupported;
    ok := true;
    if "allOf" in f {
      ok := AcceptAll(rx, f["allOf"], value);
    }
  }

  method CheckAnyOf(rx: Regex, ghost schema: Json, f: Dict, value: Json) returns (ok: bool)
    requires schema == Obj(f) && Branches(rx, f, "anyOf")
    ensures ok <==> AnyOfHolds(rx, f, value)
    decreases schema, 0, 0
  {
    hide Supported, Satisfies, AllSupported;
    ok := true;
    if "anyOf" in f {
      ok := AcceptAny(rx, f["anyOf"], value);
    }
  }

  method CheckOneOf(rx: Regex, ghost schema: Json, f: Dict, value: Json) returns (ok: bool)
    requires schema == Obj(f) && Branches(rx, f, "oneOf")
    ensures ok <==> OneOfHolds(rx, f, value)
    decreases schema, 0, 0
  {
    hide Supported, Satisfies, AllSupported;
    ok := true;
    if "oneOf" in f {
      ok := AcceptOne(rx, f["oneOf"], value);
    }
  }

  method CheckRequired(required: seq<Json>, o: Dict) returns (ok: bool)
    requires forall i | 0 <= i < |required| :: required[i].Str?
    ensures ok <==> forall i | 0 <= i < |required| :: required[i].s in o
  {
    for i := 0 to |required|
      invariant forall j | 0 <= j < i :: required[j].s in o
    {
      if required[i].s !in o {
        return false;
      }
    }
    return true;
  }

  /** The named properties that are present. */
  method CheckNamed(rx: Regex, properties: Json, o: Dict) returns (ok: bool)
    requires properties.Obj? && forall k | k in properties.fields :: Supported(rx, properties.fields[k])
    ensures ok <==> forall k | k in properties.fields && k in o :: Satisfies(rx, properties.fields[k], o[k])
    decreases properties, 0
  {
    hide Supported, Satisfies;
    var todo := properties.fields.Keys;
    while todo != {}
      invariant todo <= properties.fields.Keys
      invariant forall k | k in properties.fields && k !in todo && k in o :: Satisfies(rx, properties.fields[k], o[k])
      decreases |todo|
    {
      var name :| name in todo;
      if name in o {
        var child := ValidateSchemaValue(rx, properties.fields[name], o[name]);
        if !child {
          return false;
        }
      }
      todo := todo - {name};
    }
    return true;
  }

  /** The other properties, against one schema. */
  method CheckExtra(rx: Regex, additional: Json, o: Dict, extra: set<string>) returns (ok: bool)
    requires Supported(rx, additional) && extra <= o.Keys
    ensures ok <==> forall k | k in extra :: Satisfies(rx, additional, o[k])
    decreases additional, 2
  {
    hide Supported, Satisfies;
    var todo := extra;
    while todo != {}
      invariant todo <= extra
      invariant forall k | k in extra && k !in todo :: Satisfies(rx, additional, o[k])
      decreases |todo|
    {
      var name :| name in todo;
      var child := ValidateSchemaValue(rx, additional, o[name]);
      if !child {
        return false;
      }
      todo := todo - {name};
    }
    return true;
  }

  /** What the object keywords of a supported schema look like. */
  ghost predicate ObjectKeywordsOk(rx: Regex, f: Dict) {
    && ("required" in f ==> StringArray(f["required"]))
    && SizeOk(f, "minProperties") && SizeOk(f, "maxProperties")
    && ("properties" in f ==>
          f["properties"].Obj? && forall k | k in f["properties"].fields :: Supported(rx, f["properties"].fields[k]))
    && ("additionalProperties" in f ==> f["additionalProperties"].Bool? || Supported(rx, f["additionalProperties"]))
  }

  lemma ObjectKeywords(rx: Regex, schema: Json)
    requires Supported(rx, schema)
    ensures schema.Obj? && ObjectKeywordsOk(rx, schema.fields)
  {
    hide SizeOk, StringArray, TypeKeywordOk, BoundOk;
  }

  ghost predicate NamedHold(rx: Regex, f: Dict, o: Dict)
    requires ObjectKeywordsOk(rx, f)
  {
    "properties" in f ==>
      forall k | k in f["properties"].fields && k in o :: Satisfies(rx, f["properties"].fields[k], o[k])
  }

  ghost predicate ExtraHold(rx: Regex, f: Dict, o: Dict)
    requires ObjectKeywordsOk(rx, f)
  {
    "additionalProperties" in f ==>
      if f["additionalProperties"].Bool? then f["additionalProperties"].b || o.Keys <= Properties(f).Keys
      else forall k | k in o.Keys - Properties(f).Keys :: Satisfies(rx, f["additionalProperties"], o[k])
  }

  predicate RequiredHold(rx: Regex, f: Dict, o: Dict)
    requires "required" in f ==> StringArray(f["required"])
  {
    "required" in f ==> forall i | 0 <= i < |f["required"].items| :: f["required"].items[i].s in o
  }

  lemma NamedMeaning(rx: Regex, schema: Json, o: Dict)
    requires Supported(rx, schema) && schema.Obj? && ObjectKeywordsOk(rx, schema.fields)
    ensures NamedHold(rx, schema.fields, o) <==>
      var f := schema.fields; forall k | k in Properties(f) && k in o :: Satisfies(rx, f["properties"].fields[k], o[k])
  {
    hide LeafKeywordOk, Satisfies;
  }

  lemma ExtraMeaning(rx: Regex, schema: Json, o: Dict)
    requires Supported(rx, schema) && schema.Obj? && ObjectKeywordsOk(rx, schema.fields)
    ensures ExtraHold(rx, schema.fields, o) <==>
      var f := schema.fields;
      "additionalProperties" in f ==>
        forall k | k in o && k !in Properties(f) ::
          if f["additionalProperties"].Bool? then f["additionalProperties"].b
          else Satisfies(rx, f["additionalProperties"], o[k])
  {
    hide LeafKeywordOk, Satisfies;
    var f := schema.fields;
    if "additionalProperties" in f && f["additionalProperties"].Bool? && !(o.Keys <= Properties(f).Keys) {
      var k :| k in o.Keys && k !in Properties(f).Keys;
      assert k in o && k !in Properties(f);
    }
  }

  lemma ObjectMeaning(rx: Regex, schema: Json, o: Dict)
    requires Supported(rx, schema) && schema.Obj? && ObjectKeywordsOk(rx, schema.fields)
    ensures var f := schema.fields;
      ObjectHolds(rx, schema, o) <==>
        && RequiredHold(rx, f, o) && SizeWithin(f, "minProperties", "maxProperties", |o|)
        && NamedHold(rx, f, o) && ExtraHold(rx, f, o)
  {
    hide LeafKeywordOk, GeneralHolds, CombinatorsHold, ArrayHolds, StringHolds, NumericHolds;
    hide SizeWithin, NamedHold, ExtraHold;
    NamedMeaning(rx, schema, o);
    ExtraMeaning(rx, schema, o);
  }

  method CheckAdditional(rx: Regex, ghost schema: Json, f: Dict, o: Dict) returns (ok: bool)
    requires schema == Obj(f) && ObjectKeywordsOk(rx, f)
    ensures ok <==> ExtraHold(rx, f, o)
    decreases schema, 0, 0
  {
    hide Supported, Satisfies;
    var extra := o.Keys - Properties(f).Keys;
    ok := true;
    if "additionalProperties" in f {
      SupportedIsObject(rx, f["additionalProperties"]);
      if f["additionalProperties"].Obj? {
        ok := CheckExtra(rx, f["additionalProperties"], o, extra);
      } else {
        assert extra == {} ==> o.Keys <= Properties(f).Keys by {
          assert forall k | k in o.Keys && k !in Properties(f).Keys :: k in extra;
        }
        ok := f["additionalProperties"].b || extra == {};
      }
    }
  }

  method CheckObject(rx: Regex, schema: Json, o: Dict) returns (ok: bool)
    requires Supported(rx, schema)
    ensures ok <==> ObjectHolds(rx, schema, o)
    decreases schema, 0
  {
    ObjectKeywords(rx, schema);
    ObjectMeaning(rx, schema, o);
    hide Supported, Satisfies, ObjectHolds, ExtraHold, Properties, SizeOk;
    var f := schema.fields;
    if "required" in f {
      var required := CheckRequired(f["required"].items, o);
      if !required {
        return false;
      }
    }
    if "minProperties" in f && |o| < f["minProperties"].i {
      return false;
    }
    if "maxProperties" in f && |o| > f["maxProperties"].i {
      return false;
    }
    if "properties" in f {
      var named := CheckNamed(rx, f["properties"], o);
      if !named {
        return false;
      }
    }
    ok := CheckAdditional(rx, schema, f, o);
  }

  lemma SupportedIsObject(rx: Regex, schema: Json)
    ensures Supported(rx, schema) ==> schema.Obj?
  {
  }

  function Distinct(a: seq<Json>): set<Json> {
    set item | item in a
  }

  lemma DistinctAppend(front: seq<Json>, last: Json)
    ensures Distinct(front + [last]) == Distinct(front) + {last}
  {
  }

  /** As many different items as items: no two are equal. */
  lemma {:induction false} DistinctCount(a: seq<Json>)
    ensures |Distinct(a)| <= |a|
    ensures |Distinct(a)| == |a| <==> forall i, j | 0 <= i < j < |a| :: a[i] != a[j]
  {
    if a != [] {
      var front, last := a[..|a| - 1], a[|a| - 1];
      DistinctCount(front);
      assert a == front + [last];
      DistinctAppend(front, last);
      LastIsNew(front, last);
    }
  }

  lemma LastIsNew(front: seq<Json>, last: Json)
    ensures |Distinct(front) + {last}| == |Distinct(front)| + (if last in front then 0 else 1)
    ensures last !in front <==> forall i | 0 <= i < |front| :: front[i] != last
  {
    if last in front {
      assert Distinct(front) + {last} == Distinct(front);
    }
  }

  method CheckItems(rx: Regex, items: Json, a: seq<Json>) returns (ok: bool)
    requires Supported(rx, items)
    ensures ok <==> forall i | 0 <= i < |a| :: Satisfies(rx, items, a[i])
    decreases items, 2
  {
    hide Supported, Satisfies;
    for i := 0 to |a|
      invariant forall j | 0 <= j < i :: Satisfies(rx, items, a[j])
    {
      var child := ValidateSchemaValue(rx, items, a[i]);
      if !child {
        return false;
      }
    }
    return true;
  }

  lemma ArrayKeywords(rx: Regex, schema: Json)
    requires Supported(rx, schema)
    ensures schema.Obj?
    ensures var f := schema.fields;
      && SizeOk(f, "minItems") && SizeOk(f, "maxItems") && ("uniqueItems" in f ==> f["uniqueItems"].Bool?)
      && ("items" in f ==> Supported(rx, f["items"]))
  {
    hide StringArray, TypeKeywordOk, BoundOk;
  }

  method CheckArray(rx: Regex, schema: Json, a: seq<Json>) returns (ok: bool)
    requires Supported(rx, schema)
    ensures ok <==> ArrayHolds(rx, schema, a)
    decreases schema, 0
  {
    ArrayKeywords(rx, schema);
    hide LeafKeywordOk, GeneralHolds, CombinatorsHold, ObjectHolds, StringHolds, NumericHolds;
    var f := schema.fields;
    if "minItems" in f && |a| < f["minItems"].i {
      return false;
    }
    if "maxItems" in f && |a| > f["maxItems"].i {
      return false;
    }
    if "uniqueItems" in f && f["uniqueItems"].b {
      DistinctCount(a);
      if |a| != |Distinct(a)| {
        return false;
      }
    }
    if "items" in f {
      ok := CheckItems(rx, f["items"], a);
      return;
    }
    return true;
  }

  /** The quotient test is divisibility. */
  lemma QuotientIsWhole(x: real, divisor: real)
    requires divisor > 0.0
    ensures (x / divisor).Floor as real == x / divisor <==> IsMultiple(x, divisor)
  {
    var q := x / divisor;
    if q.Floor as real == q {
      assert Times(q.Floor, divisor) == x;
    }
    if IsMultiple(x, divisor) {
      var n :| Times(n, divisor) == x;
      assert q == n as real;
    }
  }

  method CheckNumber(f: Dict, x: real) returns (ok: bool)
    requires BoundOk(f, "minimum") && BoundOk(f, "maximum") && BoundOk(f, "exclusiveMinimum")
    requires BoundOk(f, "exclusiveMaximum") && BoundOk(f, "multipleOf")
    requires "multipleOf" in f ==> NumberOf(f["multipleOf"]) > 0.0
    ensures ok <==> NumericHolds(f, x)
  {
    hide IsMultiple;
    if "minimum" in f && x < NumberOf(f["minimum"]) {
      return false;
    }
    if "maximum" in f && x > NumberOf(f["maximum"]) {
      return false;
    }
    if "exclusiveMinimum" in f && x <= NumberOf(f["exclusiveMinimum"]) {
      return false;
    }
    if "exclusiveMaximum" in f && x >= NumberOf(f["exclusiveMaximum"]) {
      return false;
    }
    if "multipleOf" in f {
      var divisor := NumberOf(f["multipleOf"]);
      QuotientIsWhole(x, divisor);
      var quotient := x / divisor;
      if quotient.Floor as real != quotient {
        return false;
      }
    }
    return true;
  }

  method CheckString(rx: Regex, f: Dict, s: string) returns (ok: bool)
    requires SizeOk(f, "minLength") && SizeOk(f, "maxLength")
    requires "pattern" in f ==> f["pattern"].Str?
    ensures ok <==> StringHolds(rx, f, s)
  {
    if "minLength" in f && |s| < f["minLength"].i {
      return false;
    }
    if "maxLength" in f && |s| > f["maxLength"].i {
      return false;
    }
    return "pattern" in f ==> rx.finds(f["pattern"].s, s);
  }

  lemma LeafKeywords(rx: Regex, schema: Json)
    requires Supported(rx, schema)
    ensures schema.Obj? && LeafKeywordOk(rx, schema.fields)
  {
    hide LeafKeywordOk;
  }

  /** `_validate_schema_value`: accepts exactly the values that satisfy the schema. */
  method ValidateSchemaValue(rx: Regex, schema: Json, value: Json) returns (ok: bool)
    requires Supported(rx, schema)
    ensures ok <==> Satisfies(rx, schema, value)
    decreases schema, 1
  {
    LeafKeywords(rx, schema);
    hide Supported, GeneralHolds, CombinatorsHold, ObjectHolds, ArrayHolds, StringHolds, NumericHolds;
    ok := CheckGeneral(schema.fields, value);
    if !ok {
      return;
    }
    ok := CheckCombinators(rx, schema, value);
    if !ok {
      return;
    }
    if value.Obj? {
      ok := CheckObject(rx, schema, value.fields);
    } else if value.Arr? {
      ok := CheckArray(rx, schema, value.items);
    } else if value.Str? {
      ok := CheckString(rx, schema.fields, value.s);
    } else if IsNumber(value) {
      ok := CheckNumber(schema.fields, NumberOf(value));
    }
  }

  /** `_schema_accepts`: the validator with its ValueError turned into a verdict. */
  method SchemaAccepts(rx: Regex, schema: Json, value: Json) returns (ok: bool)
    requires Supported(rx, schema)
    ensures ok <==> Satisfies(rx, schema, value)
    decreases schema, 2
  {
    hide Supported, Satisfies;
    ok := ValidateSchemaValue(rx, schema, value);
  }
}
