/** From typed values to the text of an envelope and back: what `parse_qwen_response` makes of a written
    envelope, stated by the declared types and the spellings of their values. */
module TypedCalls {
  import opened Basics
  import opened JsonValues
  import opened ToolTags
  import opened SchemaRules
  import opened Envelope
  import opened EnvelopeRoundTrip
  import opened Coercions

  /** Python's empty values, which `or` replaces. */
  predicate Empty(j: Json) {
    || j == Null || j == Bool(false) || j == Int(0) || j == Float(0.0) || j == Str("") || j == Arr([]) || j == Obj(map[])
  }

  /** A key of a declaration counts only with a value that is not empty; without "parameters" a tool takes an
      object of any shape. */
  lemma DeclarationReading(d: Dict, key: string, default: Json)
    ensures GetOr(d, key, default) == if key in d && !Empty(d[key]) then d[key] else default
    ensures ParametersOf(d) == if "parameters" in d && !Empty(d["parameters"]) then d["parameters"]
                               else Obj(map["type" := Str("object")])
  {
  }

  /** Each parameter's argument is a value its text spells for its declared type; nothing else is an argument. */
  ghost predicate Typed(dec: Decoders, schema: Dict, properties: Dict, ps: seq<Param>, arguments: Dict) {
    && (forall i | 0 <= i < |ps| ::
          ps[i].name in arguments && Takes(dec, schema, properties, ps[i].name, ps[i].value, Coerced(arguments[ps[i].name])))
    && (forall name | name in arguments :: Named(ps, name))
  }

  ghost predicate Spelled(dec: Decoders, schema: Dict, properties: Dict, p: Param) {
    exists v :: Takes(dec, schema, properties, p.name, p.value, Coerced(v))
  }

  /** A known tool, parameters with different names, each text a spelling for its declared type, and all the
      required ones. */
  ghost predicate WellTyped(dec: Decoders, specs: map<string, Dict>, tool: string, ps: seq<Param>) {
    && tool in specs && ParametersOf(specs[tool]).Obj?
    && var schema := ParametersOf(specs[tool]).fields;
       var properties := GetOr(schema, "properties", Obj(map[]));
       var required := GetOr(schema, "required", Arr([]));
       && properties.Obj? && DistinctNames(ps)
       && (forall i | 0 <= i < |ps| :: Spelled(dec, schema, properties.fields, ps[i]))
       && StringArray(required) && forall i | 0 <= i < |required.items| :: Named(ps, required.items[i].s)
  }

  lemma OwnText(dec: Decoders, schema: Dict, properties: Dict, p: Param)
    requires ValueOk(p.value)
    ensures forall r :: Takes(dec, schema, properties, p.name, p.value, r) <==> r == Argument(dec, schema, properties, p)
  {
    hide Takes, Argument, Has, IsSpace;
    ArgumentMeaning(dec, schema, properties, p.name, "", p.value, "");
    assert "" + p.value + "" == p.value;
  }

  lemma OwnTexts(dec: Decoders, schema: Dict, properties: Dict, ps: seq<Param>)
    requires forall i | 0 <= i < |ps| :: ValueOk(ps[i].value)
    ensures AllCoerced(dec, schema, properties, ps) <==> forall i | 0 <= i < |ps| :: Spelled(dec, schema, properties, ps[i])
    ensures forall arguments :: Assigns(dec, schema, properties, ps, arguments) <==> Typed(dec, schema, properties, ps, arguments)
  {
    hide Takes, Argument, ValueOk, Named;
    forall i | 0 <= i < |ps|
      ensures forall r :: Takes(dec, schema, properties, ps[i].name, ps[i].value, r) <==> r == Argument(dec, schema, properties, ps[i])
      ensures Spelled(dec, schema, properties, ps[i]) <==> Argument(dec, schema, properties, ps[i]).Coerced?
    {
      OwnText(dec, schema, properties, ps[i]);
      assert Argument(dec, schema, properties, ps[i]).Coerced? ==>
               Takes(dec, schema, properties, ps[i].name, ps[i].value, Coerced(Argument(dec, schema, properties, ps[i]).value));
    }
  }

  /** Exactly a well-typed envelope is parsed as a call: of that tool, with the values that the texts spell. */
  lemma TypedCall(dec: Decoders, specs: map<string, Dict>, prefix: string, tool: string, ps: seq<Laid>, lay: Layout, suffix: string)
    requires LayoutOk(lay) && NameOk(tool) && ParamsOk(ps) && !Has(prefix, OpenTool()) && !HasMarkup(suffix)
    ensures var r := Meaning(dec, specs, prefix + (Write(tool, ps, lay) + suffix));
      && (r.Called? <==> WellTyped(dec, specs, tool, Plain(ps)))
      && (r.Called? ==>
            var schema := ParametersOf(specs[tool]).fields;
            r.name == tool && Typed(dec, schema, GetOr(schema, "properties", Obj(map[])).fields, Plain(ps), r.arguments))
  {
    hide Meaning, Write, HasMarkup, Has, AllCoerced, Assigns, Typed, Spelled, ParametersOf, GetOr, ValueOk, NameOk, DistinctNames;
    KnownToolCalled(dec, specs, prefix, tool, ps, lay, suffix);
    if tool in specs && ParametersOf(specs[tool]).Obj? && GetOr(ParametersOf(specs[tool]).fields, "properties", Obj(map[])).Obj? {
      var schema := ParametersOf(specs[tool]).fields;
      assert forall i | 0 <= i < |ps| :: LaidOk(ps[i]) && Plain(ps)[i] == ps[i].param;
      OwnTexts(dec, schema, GetOr(schema, "properties", Obj(map[])).fields, Plain(ps));
    }
  }

  /** Typed values survive: written by any spelling of theirs for their declared types, with any white
      space, they are the arguments that come back. */
  lemma TypedRoundTrip(dec: Decoders, specs: map<string, Dict>, prefix: string, tool: string, ps: seq<Laid>, values: seq<Json>,
                       lay: Layout, suffix: string)
    requires LayoutOk(lay) && NameOk(tool) && ParamsOk(ps) && !Has(prefix, OpenTool()) && !HasMarkup(suffix)
    requires WellTyped(dec, specs, tool, Plain(ps)) && |values| == |ps|
    requires var schema := ParametersOf(specs[tool]).fields;
      forall i | 0 <= i < |ps| ::
        Takes(dec, schema, GetOr(schema, "properties", Obj(map[])).fields, ps[i].param.name, ps[i].param.value, Coerced(values[i]))
    ensures var r := Meaning(dec, specs, prefix + (Write(tool, ps, lay) + suffix));
      && r.Called? && r.name == tool
      && (forall i | 0 <= i < |ps| :: ps[i].param.name in r.arguments && r.arguments[ps[i].param.name] == values[i])
      && (forall name | name in r.arguments :: exists i | 0 <= i < |ps| :: ps[i].param.name == name)
  {
    hide Meaning, Write, HasMarkup, Has, ParametersOf, GetOr, ValueOk, NameOk, Takes, Spelled, DistinctNames, StringArray;
    TypedCall(dec, specs, prefix, tool, ps, lay, suffix);
    var r := Meaning(dec, specs, prefix + (Write(tool, ps, lay) + suffix));
    var schema := ParametersOf(specs[tool]).fields;
    var properties := GetOr(schema, "properties", Obj(map[])).fields;
    forall i | 0 <= i < |ps|
      ensures ps[i].param.name in r.arguments && r.arguments[ps[i].param.name] == values[i]
    {
      var p := ps[i].param;
      assert LaidOk(ps[i]) && Plain(ps)[i] == p;
      OwnText(dec, schema, properties, p);
      assert Takes(dec, schema, properties, p.name, p.value, Coerced(values[i]));
    }
    forall name | name in r.arguments
      ensures exists i | 0 <= i < |ps| :: ps[i].param.name == name
    {
      var i :| 0 <= i < |Plain(ps)| && Plain(ps)[i].name == name;
      assert ps[i].param.name == name;
    }
  }
}
