/** `parse_qwen_response`: the fail-closed parser of the native tool-call envelope. Parsing inverts
    writing for every tool, parameter list and white space; what is not exactly one envelope with a
    clean end is rejected. */
module Envelope {
  import opened Basics
  import opened JsonValues
  import opened ToolTags
  import opened SchemaRules

  // ---- finditer and sub -----------------------------------------------------------------

  /** All matches from left to right, and the text with the matches taken out. */
  datatype Found = Found(matches: seq<Match>, residue: string)

  lemma MatchShortens(kind: Kind, text: string)
    ensures MatchHere(kind, text).Some? ==> |MatchHere(kind, text).value.rest| < |text|
  {
    hide MatchHere, FirstTail, Strip;
    if MatchHere(kind, text).Some? {
      var q := MatchReads(kind, text);
    }
  }

  function Scan(kind: Kind, text: string): Found
    decreases |text|
  {
    MatchShortens(kind, text);
    match MatchHere(kind, text)
    case Some(m) => var more := Scan(kind, m.rest); Found([m] + more.matches, more.residue)
    case None =>
      if text == "" then Found([], "")
      else var more := Scan(kind, text[1..]); Found(more.matches, [text[0]] + more.residue)
  }

  predicate Has(text: string, tag: string) {
    tag <= text || (text != "" && Has(text[1..], tag))
  }

  function Markers(): seq<string> {
    ["<tool_call", "</tool_call", "<function=", "</function", "<parameter=", "</parameter"]
  }

  predicate HasMarkup(text: string) {
    exists i | 0 <= i < |Markers()| :: Has(text, Markers()[i])
  }

  // ---- `_coerce_parameter` --------------------------------------------------------------

  /** The number and JSON parsers of the library; `None` where they raise, or a number is not finite. */
  datatype Decoders = Decoders(number: string -> Option<real>, json: string -> Option<Json>)

  /** The value, the ToolProtocolError, or the TypeError of an unhashable type keyword. */
  datatype Coercion = Coerced(value: Json) | Refused | Broken

  predicate Digits(s: string) {
    s != "" && forall i | 0 <= i < |s| :: '0' <= s[i] <= '9'
  }

  function DigitsValue(s: string): nat
    requires forall i | 0 <= i < |s| :: '0' <= s[i] <= '9'
  {
    if s == "" then 0 else DigitsValue(s[..|s| - 1]) * 10 + (s[|s| - 1] as int - '0' as int)
  }

  /** `[+-]?\d+` and `int`. */
  function IntegerOf(s: string): Option<int> {
    if Digits(s) then Some(DigitsValue(s) as int)
    else if s != "" && s[0] == '-' && Digits(s[1..]) then var n: int := DigitsValue(s[1..]); Some(-n)
    else if s != "" && s[0] == '+' && Digits(s[1..]) then Some(DigitsValue(s[1..]) as int)
    else None
  }

  function Lower(s: string): string {
    seq(|s|, i requires 0 <= i < |s| => if 'A' <= s[i] <= 'Z' then (s[i] as int + 32) as char else s[i])
  }

  function CoerceTo(dec: Decoders, declared: string, value: string): Coercion {
    match declared
    case "string" => Coerced(Str(value))
    case "integer" => (match IntegerOf(value) case Some(n) => Coerced(Int(n)) case None => Refused)
    case "number" => (match dec.number(value) case Some(r) => Coerced(Float(r)) case None => Refused)
    case "boolean" =>
      if Lower(value) == "true" then Coerced(Bool(true))
      else if Lower(value) == "false" then Coerced(Bool(false))
      else Refused
    case "null" => if Lower(value) == "null" then Coerced(Null) else Refused
    case "object" =>
      (match dec.json(value) case Some(Obj(fields)) => Coerced(Obj(fields)) case _ => Refused)
    case "array" =>
      (match dec.json(value) case Some(Arr(items)) => Coerced(Arr(items)) case _ => Refused)
    case _ => Refused
  }

  function Coerce(dec: Decoders, declared: Json, raw: string): Coercion
    decreases declared
  {
    match declared
    case Arr(candidates) => CoerceAny(dec, candidates, Strip(raw))
    case Str(name) => CoerceTo(dec, name, Strip(raw))
    case Obj(_) => Broken
    case _ => Refused
  }

  /** The first candidate type that takes the value. */
  function CoerceAny(dec: Decoders, candidates: seq<Json>, value: string): Coercion
    decreases candidates
  {
    if candidates == [] then Refused
    else match Coerce(dec, candidates[0], value)
      case Refused => CoerceAny(dec, candidates[1..], value)
      case r => r
  }

  /** A type name among the declared ones. */
  ghost predicate Declares(declared: Json, name: string)
    decreases declared
  {
    match declared
    case Str(s) => s == name
    case Arr(candidates) => exists i | 0 <= i < |candidates| :: Declares(candidates[i], name)
    case _ => false
  }

  /** A coerced parameter has one of the declared types, as the registry's validator sees it. */
  lemma {:induction false} CoercedHasType(dec: Decoders, declared: Json, raw: string)
    requires Coerce(dec, declared, raw).Coerced?
    ensures exists name :: Declares(declared, name) && TypeMatches(Coerce(dec, declared, raw).value, name)
    decreases declared
  {
    match declared
    case Arr(candidates) =>
      var i := AnyCoerced(dec, candidates, Strip(raw));
      var name :| Declares(candidates[i], name) && TypeMatches(Coerce(dec, candidates[i], Strip(raw)).value, name);
      assert Declares(declared, name);
    case Str(name) =>
      CoerceToType(dec, name, Strip(raw));
      assert Declares(declared, name);
  }

  lemma {:induction false} AnyCoerced(dec: Decoders, candidates: seq<Json>, value: string) returns (i: nat)
    requires CoerceAny(dec, candidates, value).Coerced?
    ensures i < |candidates| && Coerce(dec, candidates[i], value) == CoerceAny(dec, candidates, value)
    ensures forall j | 0 <= j < i :: Coerce(dec, candidates[j], value).Refused?
    ensures exists name :: Declares(candidates[i], name) && TypeMatches(Coerce(dec, candidates[i], value).value, name)
    decreases candidates
  {
    if Coerce(dec, candidates[0], value).Coerced? {
      i := 0;
      CoercedHasType(dec, candidates[0], value);
    } else {
      var k := AnyCoerced(dec, candidates[1..], value);
      i := k + 1;
    }
  }

  lemma CoerceToType(dec: Decoders, declared: string, value: string)
    requires CoerceTo(dec, declared, value).Coerced?
    ensures TypeMatches(CoerceTo(dec, declared, value).value, declared)
  {
  }

  // ---- decimal text ---------------------------------------------------------------------

  function Decimal(n: nat): string {
    if n < 10 then [(n + '0' as int) as char] else Decimal(n / 10) + [(n % 10 + '0' as int) as char]
  }

  lemma {:induction false} DecimalDigits(n: nat)
    ensures Digits(Decimal(n)) && DigitsValue(Decimal(n)) == n
  {
    if n >= 10 {
      DecimalDigits(n / 10);
      assert Decimal(n)[..|Decimal(n)| - 1] == Decimal(n / 10);
    }
  }

  function Signed(n: int, plus: bool): string {
    if n < 0 then "-" + Decimal(-n) else if plus then "+" + Decimal(n) else Decimal(n)
  }

  lemma SignedValue(n: int, plus: bool)
    ensures IntegerOf(Signed(n, plus)) == Some(n)
  {
    var d := Decimal(if n < 0 then -n else n);
    DecimalDigits(if n < 0 then -n else n);
    if n < 0 {
      assert Signed(n, plus)[1..] == d && Signed(n, plus)[0] == '-';
    } else if plus {
      assert Signed(n, plus)[1..] == d && Signed(n, plus)[0] == '+';
    }
  }

  lemma DigitsTrimmed(sign: string, d: string)
    requires sign == "" || sign == "-" || sign == "+"
    requires Digits(d)
    ensures Trim(sign + d) && TrimEnd(sign + d)
  {
    assert !IsSpace('-') && !IsSpace('+') && !IsSpace(d[0]) && !IsSpace(d[|d| - 1]);
    var text := sign + d;
    assert text[0] == (if sign == "" then d[0] else sign[0]);
    assert text[|text| - 1] == d[|d| - 1];
  }

  /** Signed integers included: the text of an integer, with its sign and any white space around it, is
      coerced to that integer. */
  lemma IntegersCoerced(dec: Decoders, n: int, plus: bool, g: string, g': string)
    requires AllSpace(g) && AllSpace(g')
    ensures Coerce(dec, Str("integer"), g + Signed(n, plus) + g') == Coerced(Int(n))
  {
    hide IsSpace, IntegerOf, Strip, Decimal, Digits, Trim, TrimEnd, AllSpace;
    var d := Decimal(if n < 0 then -n else n);
    DecimalDigits(if n < 0 then -n else n);
    var sign := if n < 0 then "-" else if plus then "+" else "";
    assert Signed(n, plus) == sign + d;
    DigitsTrimmed(sign, d);
    StripBetween(g, Signed(n, plus), g');
    SignedValue(n, plus);
  }

  // ---- tool declarations ----------------------------------------------------------------

  /** One entry of the `tools` list is a function declaration with a non-blank name. */
  predicate Declaration(item: Json) {
    && item.Obj? && "type" in item.fields && item.fields["type"] == Str("function")
    && "function" in item.fields && item.fields["function"].Obj?
    && "name" in item.fields["function"].fields && item.fields["function"].fields["name"].Str?
    && Strip(item.fields["function"].fields["name"].s) != ""
  }

  function DeclaredName(item: Json): string
    requires Declaration(item)
  {
    item.fields["function"].fields["name"].s
  }

  function DeclaredFields(item: Json): Dict
    requires Declaration(item)
  {
    item.fields["function"].fields
  }

  predicate AllDeclared(tools: seq<Json>) {
    && (forall i | 0 <= i < |tools| :: Declaration(tools[i]))
    && (forall i, j | 0 <= i < j < |tools| :: DeclaredName(tools[i]) != DeclaredName(tools[j]))
  }

  predicate SpecsOf(tools: seq<Json>, specs: map<string, Dict>)
    requires AllDeclared(tools)
  {
    && (forall i | 0 <= i < |tools| ::
          DeclaredName(tools[i]) in specs && specs[DeclaredName(tools[i])] == DeclaredFields(tools[i]))
    && (forall name | name in specs :: exists i | 0 <= i < |tools| :: DeclaredName(tools[i]) == name)
  }

  datatype Declared = Declared(name: string, fields: Dict)

  method ReadDeclaration(item: Json) returns (r: Option<Declared>)
    ensures r.Some? <==> Declaration(item)
    ensures r.Some? ==> r.value == Declared(DeclaredName(item), DeclaredFields(item))
  {
    if !item.Obj? || "type" !in item.fields || item.fields["type"] != Str("function") {
      return None;
    }
    if "function" !in item.fields || !item.fields["function"].Obj? {
      return None;
    }
    var fields := item.fields["function"].fields;
    if "name" !in fields || !fields["name"].Str? || Strip(fields["name"].s) == "" {
      return None;
    }
    return Some(Declared(fields["name"].s, fields));
  }

  /** `_function_specs`: every entry well formed, no name twice, each name bound to its declaration. */
  method FunctionSpecs(tools: seq<Json>) returns (specs: Option<map<string, Dict>>)
    ensures specs.Some? <==> AllDeclared(tools)
    ensures specs.Some? ==> SpecsOf(tools, specs.value)
  {
    hide Declaration, DeclaredName, DeclaredFields;
    var found: map<string, Dict> := map[];
    for i := 0 to |tools|
      invariant AllDeclared(tools[..i]) && SpecsOf(tools[..i], found)
    {
      assert tools[..i + 1] == tools[..i] + [tools[i]];
      var item := ReadDeclaration(tools[i]);
      if item.None? {
        return None;
      }
      if item.value.name in found {
        NameTwice(tools, i, found);
        return None;
      }
      MoreSpecs(tools[..i], tools[i], found);
      found := found[item.value.name := item.value.fields];
    }
    assert tools[..|tools|] == tools;
    return Some(found);
  }

  lemma NameTwice(tools: seq<Json>, i: nat, specs: map<string, Dict>)
    requires i < |tools| && AllDeclared(tools[..i]) && SpecsOf(tools[..i], specs)
    requires Declaration(tools[i]) && DeclaredName(tools[i]) in specs
    ensures !AllDeclared(tools)
  {
    hide Declaration, DeclaredName, DeclaredFields;
    var j :| 0 <= j < i && DeclaredName(tools[..i][j]) == DeclaredName(tools[i]);
    assert tools[..i][j] == tools[j];
  }

  lemma MoreSpecs(tools: seq<Json>, item: Json, specs: map<string, Dict>)
    requires AllDeclared(tools) && SpecsOf(tools, specs)
    requires Declaration(item) && DeclaredName(item) !in specs
    ensures AllDeclared(tools + [item])
    ensures SpecsOf(tools + [item], specs[DeclaredName(item) := DeclaredFields(item)])
  {
    hide Declaration, DeclaredName, DeclaredFields;
    var all := tools + [item];
    var specs' := specs[DeclaredName(item) := DeclaredFields(item)];
    assert forall i | 0 <= i < |tools| :: all[i] == tools[i] && DeclaredName(tools[i]) in specs;
    assert all[|tools|] == item;
    forall name | name in specs'
      ensures exists i | 0 <= i < |all| :: DeclaredName(all[i]) == name
    {
      if name == DeclaredName(item) {
        assert DeclaredName(all[|tools|]) == name;
      } else {
        var i :| 0 <= i < |tools| && DeclaredName(tools[i]) == name;
        assert DeclaredName(all[i]) == name;
      }
    }
  }
  // ---- the matched call -----------------------------------------------------------------

  /** A parameter element: its trimmed name and its trimmed text. */
  datatype Param = Param(name: string, value: string)

  datatype Parsed = PlainText(content: string) | Called(name: string, arguments: Dict) | Rejected | Crashed

  predicate Truthy(j: Json) {
    match j
    case Null => false
    case Bool(b) => b
    case Int(i) => i != 0
    case Float(r) => r != 0.0
    case Str(s) => s != ""
    case Arr(items) => items != []
    case Obj(fields) => fields != map[]
  }

  /** `d.get(key) or default` */
  function GetOr(d: Dict, key: string, default: Json): Json {
    if key in d && Truthy(d[key]) then d[key] else default
  }

  /** What one parameter becomes; an unknown one is text, unless additional ones are forbidden. */
  function Argument(dec: Decoders, schema: Dict, properties: Dict, p: Param): Coercion {
    if p.name !in properties then
      if "additionalProperties" in schema && schema["additionalProperties"] == Bool(false) then Refused
      else Coerce(dec, Str("string"), p.value)
    else if !properties[p.name].Obj? then Refused
    else
      var declared := if "type" in properties[p.name].fields then properties[p.name].fields["type"] else Str("string");
      Coerce(dec, declared, p.value)
  }

  datatype Gathered = Gathered(arguments: Dict) | Stopped(crashed: bool)

  /** The arguments of the parameters so far; the first failure stops. */
  function Gather(dec: Decoders, schema: Dict, properties: Dict, ps: seq<Param>): Gathered {
    if ps == [] then Gathered(map[])
    else
      var last := ps[|ps| - 1];
      match Gather(dec, schema, properties, ps[..|ps| - 1])
      case Stopped(crashed) => Stopped(crashed)
      case Gathered(arguments) =>
        if last.name in arguments then Stopped(false)
        else match Argument(dec, schema, properties, last)
          case Coerced(value) => Gathered(arguments[last.name := value])
          case Refused => Stopped(false)
          case Broken => Stopped(true)
  }

  predicate DistinctNames(ps: seq<Param>) {
    forall i, j | 0 <= i < j < |ps| :: ps[i].name != ps[j].name
  }

  predicate AllCoerced(dec: Decoders, schema: Dict, properties: Dict, ps: seq<Param>) {
    forall i | 0 <= i < |ps| :: Argument(dec, schema, properties, ps[i]).Coerced?
  }

  predicate Named(ps: seq<Param>, name: string) {
    exists i | 0 <= i < |ps| :: ps[i].name == name
  }

  /** The names of the parameters, each with its coerced value, and nothing else. */
  ghost predicate Assigns(dec: Decoders, schema: Dict, properties: Dict, ps: seq<Param>, arguments: Dict) {
    && (forall i | 0 <= i < |ps| ::
          ps[i].name in arguments && Coerced(arguments[ps[i].name]) == Argument(dec, schema, properties, ps[i]))
    && (forall name | name in arguments :: Named(ps, name))
  }

  /** There are arguments exactly when all parameters have different names and each is coerced; they
      map each name to its coerced value. */
  lemma {:induction false} GatherMeaning(dec: Decoders, schema: Dict, properties: Dict, ps: seq<Param>)
    ensures Gather(dec, schema, properties, ps).Gathered? <==>
              DistinctNames(ps) && AllCoerced(dec, schema, properties, ps)
    ensures Gather(dec, schema, properties, ps).Gathered? ==>
              Assigns(dec, schema, properties, ps, Gather(dec, schema, properties, ps).arguments)
  {
    hide Argument, DistinctNames, AllCoerced, Assigns, Named;
    if ps == [] {
      assert DistinctNames(ps) && AllCoerced(dec, schema, properties, ps) && Assigns(dec, schema, properties, ps, map[]) by {
        NoParams(dec, schema, properties);
      }
    } else {
      var front, last := ps[..|ps| - 1], ps[|ps| - 1];
      assert ps == front + [last];
      GatherMeaning(dec, schema, properties, front);
      NamesAppend(front, last);
      CoercedAppend(dec, schema, properties, front, last);
      var before := Gather(dec, schema, properties, front);
      if before.Gathered? {
        AssignsNames(dec, schema, properties, front, before.arguments, last.name);
        if last.name !in before.arguments && Argument(dec, schema, properties, last).Coerced? {
          AssignsAppend(dec, schema, properties, front, before.arguments, last);
        }
      }
    }
  }

  /** Parameter `i` is the first one that fails, and its type keyword is the one that raises. */
  predicate CrashesAt(dec: Decoders, schema: Dict, properties: Dict, ps: seq<Param>, i: nat) {
    && i < |ps| && DistinctNames(ps[..i + 1]) && AllCoerced(dec, schema, properties, ps[..i])
    && Argument(dec, schema, properties, ps[i]).Broken?
  }

  /** The exception that escapes is that of the first parameter that fails at all. */
  lemma {:induction false} GatherCrash(dec: Decoders, schema: Dict, properties: Dict, ps: seq<Param>)
    ensures Gather(dec, schema, properties, ps) == Stopped(true) <==>
              exists i :: CrashesAt(dec, schema, properties, ps, i)
  {
    hide Argument, CrashesAt;
    if ps == [] {
      assert forall i :: !CrashesAt(dec, schema, properties, ps, i) by { NoCrash(dec, schema, properties); }
    } else {
      var front := ps[..|ps| - 1];
      GatherCrash(dec, schema, properties, front);
      forall i: nat | i < |ps| - 1
        ensures CrashesAt(dec, schema, properties, front, i) <==> CrashesAt(dec, schema, properties, ps, i)
      {
        CrashesSooner(dec, schema, properties, ps, i);
      }
      CrashesInside(dec, schema, properties, ps);
      CrashesInside(dec, schema, properties, front);
      CrashesLast(dec, schema, properties, ps);
    }
  }

  lemma NoCrash(dec: Decoders, schema: Dict, properties: Dict)
    ensures forall i :: !CrashesAt(dec, schema, properties, [], i)
  {
  }

  lemma CrashesInside(dec: Decoders, schema: Dict, properties: Dict, ps: seq<Param>)
    ensures forall i: nat :: CrashesAt(dec, schema, properties, ps, i) ==> i < |ps|
  {
  }

  lemma CrashesSooner(dec: Decoders, schema: Dict, properties: Dict, ps: seq<Param>, i: nat)
    requires i < |ps| - 1
    ensures CrashesAt(dec, schema, properties, ps[..|ps| - 1], i) <==> CrashesAt(dec, schema, properties, ps, i)
  {
    hide Argument, DistinctNames, AllCoerced;
    var front := ps[..|ps| - 1];
    assert front[..i + 1] == ps[..i + 1] && front[..i] == ps[..i];
  }

  /** The last parameter crashes exactly when the ones before have been gathered and its name is new. */
  lemma CrashesLast(dec: Decoders, schema: Dict, properties: Dict, ps: seq<Param>)
    requires ps != []
    ensures var front, last := ps[..|ps| - 1], ps[|ps| - 1];
      var before := Gather(dec, schema, properties, front);
      CrashesAt(dec, schema, properties, ps, |ps| - 1) <==>
        before.Gathered? && last.name !in before.arguments && Argument(dec, schema, properties, last).Broken?
    ensures Gather(dec, schema, properties, ps[..|ps| - 1]).Gathered? ==>
              forall i: nat | i < |ps| - 1 :: !CrashesAt(dec, schema, properties, ps, i)
  {
    hide Argument, DistinctNames, AllCoerced, Assigns, Named;
    var n := |ps| - 1;
    var front, last := ps[..n], ps[n];
    assert ps[..n + 1] == ps && ps == front + [last];
    GatherMeaning(dec, schema, properties, front);
    NamesAppend(front, last);
    var before := Gather(dec, schema, properties, front);
    if before.Gathered? {
      AssignsNames(dec, schema, properties, front, before.arguments, last.name);
      forall i: nat | i < n
        ensures !CrashesAt(dec, schema, properties, ps, i)
      {
        assert ps[i] == front[i];
        if Argument(dec, schema, properties, front[i]).Broken? { NotAllCoerced(dec, schema, properties, front, i); }
      }
    }
  }

  lemma NotAllCoerced(dec: Decoders, schema: Dict, properties: Dict, ps: seq<Param>, i: nat)
    requires i < |ps| && Argument(dec, schema, properties, ps[i]).Broken?
    ensures !AllCoerced(dec, schema, properties, ps)
  {
    hide Argument;
  }

  lemma NoParams(dec: Decoders, schema: Dict, properties: Dict)
    ensures DistinctNames([]) && AllCoerced(dec, schema, properties, []) && Assigns(dec, schema, properties, [], map[])
  {
  }

  lemma NamesAppend(front: seq<Param>, last: Param)
    ensures DistinctNames(front + [last]) <==> DistinctNames(front) && !Named(front, last.name)
  {
    var ps := front + [last];
    assert forall i | 0 <= i < |front| :: ps[i] == front[i];
    assert ps[|front|] == last;
  }

  lemma CoercedAppend(dec: Decoders, schema: Dict, properties: Dict, front: seq<Param>, last: Param)
    ensures AllCoerced(dec, schema, properties, front + [last]) <==>
              AllCoerced(dec, schema, properties, front) && Argument(dec, schema, properties, last).Coerced?
  {
    hide Argument;
    var ps := front + [last];
    assert forall i | 0 <= i < |front| :: ps[i] == front[i];
    assert ps[|front|] == last;
  }

  lemma AssignsNames(dec: Decoders, schema: Dict, properties: Dict, ps: seq<Param>, arguments: Dict, name: string)
    requires Assigns(dec, schema, properties, ps, arguments)
    ensures name in arguments <==> Named(ps, name)
  {
    hide Argument;
  }

  lemma AssignsAppend(dec: Decoders, schema: Dict, properties: Dict, front: seq<Param>, arguments: Dict, last: Param)
    requires Assigns(dec, schema, properties, front, arguments) && last.name !in arguments
    requires Argument(dec, schema, properties, last).Coerced?
    ensures Assigns(dec, schema, properties, front + [last],
                    arguments[last.name := Argument(dec, schema, properties, last).value])
  {
    hide Argument;
    var ps := front + [last];
    assert forall i | 0 <= i < |front| :: ps[i] == front[i];
    assert ps[|front|] == last;
    forall name | name in arguments || name == last.name
      ensures Named(ps, name)
    {
      if name != last.name {
        var i :| 0 <= i < |front| && front[i].name == name;
        assert ps[i].name == name;
      }
    }
  }

  /** The loop over the parameters, stopping at the first failure. */
  method GatherArguments(dec: Decoders, schema: Dict, properties: Dict, ps: seq<Param>) returns (r: Gathered)
    ensures r == Gather(dec, schema, properties, ps)
  {
    hide Argument;
    var arguments: Dict := map[];
    for i := 0 to |ps|
      invariant Gather(dec, schema, properties, ps[..i]) == Gathered(arguments)
    {
      assert ps[..i + 1][..i] == ps[..i] && ps[..i + 1][i] == ps[i];
      var failed := ps[i].name in arguments || !Argument(dec, schema, properties, ps[i]).Coerced?;
      if failed {
        var crashed := ps[i].name !in arguments && Argument(dec, schema, properties, ps[i]).Broken?;
        StaysStopped(dec, schema, properties, ps, i + 1);
        return Stopped(crashed);
      }
      arguments := arguments[ps[i].name := Argument(dec, schema, properties, ps[i]).value];
    }
    assert ps[..|ps|] == ps;
    return Gathered(arguments);
  }

  lemma {:induction false} StaysStopped(dec: Decoders, schema: Dict, properties: Dict, ps: seq<Param>, n: nat)
    requires n <= |ps| && Gather(dec, schema, properties, ps[..n]).Stopped?
    ensures Gather(dec, schema, properties, ps) == Gather(dec, schema, properties, ps[..n])
  {
    hide Argument;
    if n < |ps| {
      var front := ps[..|ps| - 1];
      assert front[..n] == ps[..n];
      StaysStopped(dec, schema, properties, front, n);
    } else {
      assert ps[..n] == ps;
    }
  }

  /** The declared schema of a call's arguments. */
  function ParametersOf(declared: Dict): Json {
    GetOr(declared, "parameters", Obj(map["type" := Str("object")]))
  }

  predicate RequiredPresent(schema: Dict, arguments: Dict) {
    var required := GetOr(schema, "required", Arr([]));
    StringArray(required) && forall i | 0 <= i < |required.items| :: required.items[i].s in arguments
  }

  /** What a call of `name` with parameters `ps` means, for the declared tools. */
  function Interpret(dec: Decoders, specs: map<string, Dict>, name: string, ps: seq<Param>): Parsed {
    if name !in specs then Rejected
    else
      var schema := ParametersOf(specs[name]);
      if !schema.Obj? then Rejected
      else
        var properties := GetOr(schema.fields, "properties", Obj(map[]));
        if !properties.Obj? then Rejected
        else match Gather(dec, schema.fields, properties.fields, ps)
          case Stopped(crashed) => if crashed then Crashed else Rejected
          case Gathered(arguments) =>
            if RequiredPresent(schema.fields, arguments) then Called(name, arguments) else Rejected
  }

  function Params(matches: seq<Match>): seq<Param> {
    seq(|matches|, i requires 0 <= i < |matches| => Param(Strip(matches[i].name), matches[i].body))
  }

  /** What the whole text means. `specs` are the declared tools. */
  function Meaning(dec: Decoders, specs: map<string, Dict>, text: string): Parsed {
    var calls := Scan(CallTag, text).matches;
    if calls == [] then
      if HasMarkup(text) || Strip(text) == "" then Rejected else PlainText(Strip(text))
    else if |calls| != 1 then Rejected
    else if HasMarkup(Strip(calls[0].rest)) then Rejected
    else
      var inner := Scan(ParameterTag, calls[0].body);
      if Strip(inner.residue) != "" then Rejected
      else Interpret(dec, specs, Strip(calls[0].name), Params(inner.matches))
  }

  lemma MarkupMeaning(text: string)
    ensures HasMarkup(text) <==>
      || Has(text, "<tool_call") || Has(text, "</tool_call") || Has(text, "<function=") || Has(text, "</function")
      || Has(text, "<parameter=") || Has(text, "</parameter")
  {
    hide Has;
    assert Markers()[0] == "<tool_call" && Markers()[1] == "</tool_call" && Markers()[2] == "<function=";
    assert Markers()[3] == "</function" && Markers()[4] == "<parameter=" && Markers()[5] == "</parameter";
  }

  method CheckRequired(schema: Dict, arguments: Dict) returns (ok: bool)
    ensures ok <==> RequiredPresent(schema, arguments)
  {
    var required := GetOr(schema, "required", Arr([]));
    if !required.Arr? {
      return false;
    }
    for i := 0 to |required.items|
      invariant forall j | 0 <= j < i :: required.items[j].Str?
    {
      if !required.items[i].Str? {
        return false;
      }
    }
    for i := 0 to |required.items|
      invariant forall j | 0 <= j < i :: required.items[j].s in arguments
    {
      if required.items[i].s !in arguments {
        return false;
      }
    }
    return true;
  }

  /** `parse_qwen_response`. */
  method ParseQwenResponse(dec: Decoders, text: string, tools: seq<Json>) returns (r: Parsed)
    ensures r.PlainText? ==>
      && r.content == Strip(text) && r.content != ""
      && !Has(text, "<tool_call") && !Has(text, "</tool_call") && !Has(text, "<function=") && !Has(text, "</function")
      && !Has(text, "<parameter=") && !Has(text, "</parameter")
    ensures r.Called? ==> AllDeclared(tools) && |Scan(CallTag, text).matches| == 1
    ensures forall specs | AllDeclared(tools) && SpecsOf(tools, specs) :: r == Meaning(dec, specs, text)
    ensures !AllDeclared(tools) ==> r.PlainText? || r.Rejected?
  {
    hide Scan, HasMarkup, Has, Strip, Gather, SpecsOf, AllDeclared, RequiredPresent;
    MarkupMeaning(text);
    var calls := Scan(CallTag, text).matches;
    if calls == [] {
      var content := Strip(text);
      r := if HasMarkup(text) || content == "" then Rejected else PlainText(content);
      return;
    }
    if |calls| != 1 || HasMarkup(Strip(calls[0].rest)) {
      return Rejected;
    }
    var name := Strip(calls[0].name);
    var specs := FunctionSpecs(tools);
    if specs.None? {
      return Rejected;
    }
    if AllDeclared(tools) { OneSpecs(tools, specs.value); }
    if name !in specs.value {
      return Rejected;
    }
    var schema := ParametersOf(specs.value[name]);
    if !schema.Obj? {
      return Rejected;
    }
    var properties := GetOr(schema.fields, "properties", Obj(map[]));
    if !properties.Obj? {
      return Rejected;
    }
    var inner := Scan(ParameterTag, calls[0].body);
    if Strip(inner.residue) != "" {
      return Rejected;
    }
    var gathered := GatherArguments(dec, schema.fields, properties.fields, Params(inner.matches));
    if gathered.Stopped? {
      return if gathered.crashed then Crashed else Rejected;
    }
    var complete := CheckRequired(schema.fields, gathered.arguments);
    r := if complete then Called(name, gathered.arguments) else Rejected;
  }

  lemma OneSpecs(tools: seq<Json>, specs: map<string, Dict>)
    requires AllDeclared(tools) && SpecsOf(tools, specs)
    ensures forall other | SpecsOf(tools, other) :: other == specs
  {
    hide Declaration, DeclaredName, DeclaredFields;
    forall other | SpecsOf(tools, other)
      ensures other == specs
    {
      assert forall name | name in other :: name in specs && specs[name] == other[name];
      assert forall name | name in specs :: name in other;
    }
  }
}
