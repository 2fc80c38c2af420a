/** What the text of a parameter means for its declared type, as a relation between text and value: the
    coercion of `_coerce_parameter` is proved to be exactly that relation. */
module Coercions {
  import opened Basics
  import opened JsonValues
  import opened ToolTags
  import opened SchemaRules
  import opened Envelope

  // ---- spellings ------------------------------------------------------------------------

  function Zeros(z: nat): string {
    seq(z, _ => '0')
  }

  function WithSign(sign: string, m: int): int {
    if sign == "-" then -m else m
  }

  /** A decimal numeral of `n`, with an optional sign and leading zeros. */
  ghost predicate Numeral(text: string, n: int) {
    exists sign: string, z: nat, m: nat ::
      (sign == "" || sign == "+" || sign == "-") && text == sign + (Zeros(z) + Decimal(m)) && n == WithSign(sign, m)
  }

  /** The lower-case word with any of its letters in upper case. */
  predicate AnyCaseOf(text: string, word: string) {
    |text| == |word| && forall i | 0 <= i < |text| :: text[i] == word[i] || text[i] as int + 32 == word[i] as int
  }

  /** The trimmed text spells the value of the named type. */
  ghost predicate Spells(dec: Decoders, name: string, text: string, v: Json) {
    match name
    case "string" => v == Str(text)
    case "integer" => v.Int? && Numeral(text, v.i)
    case "number" => v.Float? && dec.number(text) == Some(v.r)
    case "boolean" => v.Bool? && AnyCaseOf(text, if v.b then "true" else "false")
    case "null" => v.Null? && AnyCaseOf(text, "null")
    case "object" => v.Obj? && dec.json(text) == Some(v)
    case "array" => v.Arr? && dec.json(text) == Some(v)
    case _ => false
  }

  /** What a trimmed text gives for a declared type: a value it spells; a refusal when it spells none; of
      several types the first that does not refuse; an exception for an unhashable keyword. */
  ghost predicate Gives(dec: Decoders, declared: Json, text: string, r: Coercion)
    decreases declared
  {
    match declared
    case Str(name) =>
      (match r
       case Coerced(v) => Spells(dec, name, text, v)
       case Refused => forall v :: !Spells(dec, name, text, v)
       case Broken => false)
    case Arr(candidates) =>
      || (exists i | 0 <= i < |candidates| ::
            && !r.Refused? && Gives(dec, candidates[i], text, r)
            && forall j | 0 <= j < i :: Gives(dec, candidates[j], text, Refused))
      || (r == Refused && forall i | 0 <= i < |candidates| :: Gives(dec, candidates[i], text, Refused))
    case Obj(_) => r == Broken
    case _ => r == Refused
  }

  // ---- integers -------------------------------------------------------------------------

  lemma {:induction false} ZerosValue(z: nat)
    ensures (forall i | 0 <= i < |Zeros(z)| :: '0' <= Zeros(z)[i] <= '9') && DigitsValue(Zeros(z)) == 0
  {
    if z > 0 {
      ZerosValue(z - 1);
      assert Zeros(z)[..z - 1] == Zeros(z - 1);
    }
  }

  lemma {:induction false} PaddedValue(z: nat, m: nat)
    ensures Digits(Zeros(z) + Decimal(m)) && DigitsValue(Zeros(z) + Decimal(m)) == m
  {
    var d := Zeros(z) + Decimal(m);
    var front := if m < 10 then Zeros(z) else Zeros(z) + Decimal(m / 10);
    if m < 10 {
      ZerosValue(z);
    } else {
      PaddedValue(z, m / 10);
    }
    assert d == front + [(m % 10 + '0' as int) as char];
    assert d[..|d| - 1] == front;
  }

  lemma DecimalAppend(m: nat, k: nat)
    requires k < 10
    ensures Decimal(m * 10 + k) == if m == 0 then [(k + '0' as int) as char] else Decimal(m) + [(k + '0' as int) as char]
  {
  }

  lemma NoZeros()
    ensures Zeros(0) == ""
  {
  }

  lemma OneZeroMore(z: nat)
    ensures Zeros(z) + Decimal(0) == Zeros(z + 1)
  {
  }

  lemma DigitsLast(d: string)
    requires Digits(d)
    ensures |d| > 1 ==> Digits(d[..|d| - 1])
    ensures DigitsValue(d) == (if |d| == 1 then 0 else DigitsValue(d[..|d| - 1])) * 10 + (d[|d| - 1] as int - '0' as int)
  {
  }

  /** Every digit text is a numeral of its value. */
  lemma {:induction false} DigitsPadded(d: string) returns (z: nat)
    requires Digits(d)
    ensures d == Zeros(z) + Decimal(DigitsValue(d))
  {
    hide Zeros, Decimal;
    DigitsLast(d);
    var front, last := d[..|d| - 1], d[|d| - 1];
    assert d == front + [last];
    if |d| == 1 {
      z := 0;
      DecimalAppend(0, last as int - '0' as int);
      assert Zeros(0) == "" by { NoZeros(); }
    } else {
      z := DigitsPadded(front);
      var m := DigitsValue(front);
      DecimalAppend(m, last as int - '0' as int);
      assert d == Zeros(z) + (Decimal(m) + [last]);
      if m == 0 {
        OneZeroMore(z);
        z := z + 1;
        assert d == Zeros(z) + [last];
      }
    }
  }

  lemma IntegerNumeral(text: string, n: int)
    ensures IntegerOf(text) == Some(n) <==> Numeral(text, n)
  {
    hide Numeral, IntegerOf;
    if IntegerOf(text) == Some(n) {
      IntegerSpelled(text, n);
    } else if Numeral(text, n) {
      NumeralValue(text, n);
    }
  }

  lemma IntegerSpelled(text: string, n: int)
    requires IntegerOf(text) == Some(n)
    ensures Numeral(text, n)
  {
    hide Decimal, DigitsValue, Zeros;
    var sign := if Digits(text) then "" else if text[0] == '-' then "-" else "+";
    var d := text[|sign|..];
    assert text == sign + d;
    var z := DigitsPadded(d);
    var m: nat := DigitsValue(d);
    assert text == sign + (Zeros(z) + Decimal(m)) && n == WithSign(sign, m);
  }

  lemma NumeralValue(text: string, n: int)
    requires Numeral(text, n)
    ensures IntegerOf(text) == Some(n)
  {
    hide Decimal, DigitsValue, Digits, Zeros, IntegerOf;
    var sign: string, z: nat, m: nat :| (sign == "" || sign == "+" || sign == "-")
                                        && text == sign + (Zeros(z) + Decimal(m)) && n == WithSign(sign, m);
    PaddedValue(z, m);
    SignedDigits(text, sign, Zeros(z) + Decimal(m));
  }

  lemma SignedDigits(text: string, sign: string, d: string)
    requires (sign == "" || sign == "+" || sign == "-") && text == sign + d && Digits(d)
    ensures IntegerOf(text) == Some(WithSign(sign, DigitsValue(d)))
  {
    hide DigitsValue;
    if sign == "" {
      assert text == d;
    } else {
      assert text[0] == sign[0] && text[1..] == d;
    }
  }

  // ---- words ----------------------------------------------------------------------------

  lemma LowerIsCase(text: string, word: string)
    requires forall i | 0 <= i < |word| :: 'a' <= word[i] <= 'z'
    ensures Lower(text) == word <==> AnyCaseOf(text, word)
  {
    if AnyCaseOf(text, word) {
      assert Lower(text) == word;
    }
    if Lower(text) == word {
      assert forall i | 0 <= i < |text| :: Lower(text)[i] == word[i];
    }
  }

  // ---- the coercion is the relation -----------------------------------------------------

  lemma NamedSpelling(dec: Decoders, name: string, text: string, v: Json)
    ensures CoerceTo(dec, name, text) == Coerced(v) <==> Spells(dec, name, text, v)
    ensures !CoerceTo(dec, name, text).Broken?
  {
    hide IntegerOf, Numeral, AnyCaseOf;
    if v.Int? { IntegerNumeral(text, v.i); }
    LowerIsCase(text, "true");
    LowerIsCase(text, "false");
    LowerIsCase(text, "null");
  }

  lemma NamedGives(dec: Decoders, name: string, text: string)
    ensures Gives(dec, Str(name), text, CoerceTo(dec, name, text))
  {
    hide CoerceTo, Spells;
    var r := CoerceTo(dec, name, text);
    forall v
      ensures r == Coerced(v) <==> Spells(dec, name, text, v)
    {
      NamedSpelling(dec, name, text, v);
    }
    NamedSpelling(dec, name, text, Null);
  }

  /** For every declared type, one name or several, and any white space around the text, the coercion
      gives what the relation says; and it is the only answer that the relation allows. */
  lemma {:induction false} CoercionMeaning(dec: Decoders, declared: Json, g: string, text: string, g': string)
    requires AllSpace(g) && AllSpace(g') && Trim(text) && TrimEnd(text)
    ensures forall r :: Gives(dec, declared, text, r) <==> r == Coerce(dec, declared, g + text + g')
    decreases declared
  {
    hide CoerceTo, AllSpace, Strip, Trim, TrimEnd, Spells;
    StripBetween(g, text, g');
    match declared
    case Str(name) =>
      NamedGives(dec, name, text);
      forall r | Gives(dec, declared, text, r)
        ensures r == CoerceTo(dec, name, text)
      {
        NamedOnce(dec, name, text, r, CoerceTo(dec, name, text));
      }
    case Arr(candidates) =>
      forall i | 0 <= i < |candidates|
        ensures forall r :: Gives(dec, candidates[i], text, r) <==> r == Coerce(dec, candidates[i], text)
      {
        assert AllSpace("") by { NoSpaceAtAll(); }
        CoercionMeaning(dec, candidates[i], "", text, "");
        assert "" + text + "" == text;
      }
      FirstTaken(dec, candidates, text);
    case Null =>
    case Bool(_) =>
    case Int(_) =>
    case Float(_) =>
    case Obj(_) =>
  }

  lemma NoSpaceAtAll()
    ensures AllSpace("")
  {
  }

  lemma NamedOnce(dec: Decoders, name: string, text: string, r: Coercion, r': Coercion)
    requires Gives(dec, Str(name), text, r) && Gives(dec, Str(name), text, r')
    ensures r == r'
  {
    hide Spells;
    if r.Coerced? && r'.Coerced? {
      NamedSpelling(dec, name, text, r.value);
      NamedSpelling(dec, name, text, r'.value);
    }
  }

  /** Of several types the first one that does not refuse decides. */
  lemma {:induction false} FirstTaken(dec: Decoders, candidates: seq<Json>, text: string)
    requires forall i | 0 <= i < |candidates| ::
               forall r :: Gives(dec, candidates[i], text, r) <==> r == Coerce(dec, candidates[i], text)
    ensures forall r :: Gives(dec, Arr(candidates), text, r) <==> r == CoerceAny(dec, candidates, text)
    decreases |candidates|
  {
    hide Coerce, Spells;
    if candidates != [] {
      var first, rest := candidates[0], candidates[1..];
      assert candidates == [first] + rest;
      assert forall i | 0 <= i < |rest| :: rest[i] == candidates[i + 1];
      FirstTaken(dec, rest, text);
      forall r
        ensures Gives(dec, Arr(candidates), text, r) <==>
                  if Coerce(dec, first, text).Refused? then Gives(dec, Arr(rest), text, r) else r == Coerce(dec, first, text)
      {
        FirstOrRest(dec, candidates, text, r, Coerce(dec, first, text));
      }
    }
  }

  lemma FirstOrRest(dec: Decoders, candidates: seq<Json>, text: string, r: Coercion, first: Coercion)
    requires candidates != [] && forall r' :: Gives(dec, candidates[0], text, r') <==> r' == first
    ensures Gives(dec, Arr(candidates), text, r) <==>
              if first.Refused? then Gives(dec, Arr(candidates[1..]), text, r) else r == first
  {
    hide Gives;
    if !first.Refused? {
      FirstDecides(dec, candidates, text, r, first);
    } else if Gives(dec, Arr(candidates), text, r) {
      RestGives(dec, candidates, text, r);
    } else if Gives(dec, Arr(candidates[1..]), text, r) {
      AllGive(dec, candidates, text, r);
    }
  }

  lemma FirstDecides(dec: Decoders, candidates: seq<Json>, text: string, r: Coercion, first: Coercion)
    requires candidates != [] && !first.Refused?
    requires forall r' :: Gives(dec, candidates[0], text, r') <==> r' == first
    ensures Gives(dec, Arr(candidates), text, r) <==> r == first
  {
    hide Spells;
    assert !Gives(dec, candidates[0], text, Refused);
    if Gives(dec, Arr(candidates), text, r) && !r.Refused? {
      var i :| 0 <= i < |candidates| && Gives(dec, candidates[i], text, r)
               && forall j | 0 <= j < i :: Gives(dec, candidates[j], text, Refused);
      assert i == 0;
    }
  }

  lemma RestGives(dec: Decoders, candidates: seq<Json>, text: string, r: Coercion)
    requires candidates != [] && Gives(dec, Arr(candidates), text, r)
    requires forall r' :: Gives(dec, candidates[0], text, r') <==> r' == Refused
    ensures Gives(dec, Arr(candidates[1..]), text, r)
  {
    hide Spells;
    var rest := candidates[1..];
    assert forall i | 0 <= i < |rest| :: rest[i] == candidates[i + 1];
    if !r.Refused? {
      var i :| 0 <= i < |candidates| && Gives(dec, candidates[i], text, r)
               && forall j | 0 <= j < i :: Gives(dec, candidates[j], text, Refused);
      assert Gives(dec, rest[i - 1], text, r);
    }
  }

  lemma AllGive(dec: Decoders, candidates: seq<Json>, text: string, r: Coercion)
    requires candidates != [] && Gives(dec, Arr(candidates[1..]), text, r) && Gives(dec, candidates[0], text, Refused)
    ensures Gives(dec, Arr(candidates), text, r)
  {
    hide Spells;
    var rest := candidates[1..];
    assert forall i | 0 < i < |candidates| :: candidates[i] == rest[i - 1];
    if !r.Refused? {
      var i :| 0 <= i < |rest| && Gives(dec, rest[i], text, r) && forall j | 0 <= j < i :: Gives(dec, rest[j], text, Refused);
      assert Gives(dec, candidates[i + 1], text, r);
    }
  }

  // ---- one parameter --------------------------------------------------------------------

  /** What a parameter gives: for a declared property, what its type says, text when it names none; for
      another name the text itself, unless additional properties are forbidden. */
  ghost predicate Takes(dec: Decoders, schema: Dict, properties: Dict, name: string, text: string, r: Coercion) {
    if name in properties then
      if properties[name].Obj? then
        Gives(dec, if "type" in properties[name].fields then properties[name].fields["type"] else Str("string"), text, r)
      else r == Refused
    else if "additionalProperties" in schema && schema["additionalProperties"] == Bool(false) then r == Refused
    else r == Coerced(Str(text))
  }

  /** The argument made of a parameter is what the relation says, and nothing else is. */
  lemma ArgumentMeaning(dec: Decoders, schema: Dict, properties: Dict, name: string, g: string, text: string, g': string)
    requires AllSpace(g) && AllSpace(g') && Trim(text) && TrimEnd(text)
    ensures forall r :: Takes(dec, schema, properties, name, text, r) <==> r == Argument(dec, schema, properties, Param(name, g + text + g'))
  {
    hide Coerce, Gives, AllSpace, Trim, TrimEnd;
    if name in properties && properties[name].Obj? {
      var declared := if "type" in properties[name].fields then properties[name].fields["type"] else Str("string");
      CoercionMeaning(dec, declared, g, text, g');
    } else {
      CoercionMeaning(dec, Str("string"), g, text, g');
      assert Gives(dec, Str("string"), text, Coerced(Str(text))) by { TextGives(dec, text); }
    }
  }

  lemma TextGives(dec: Decoders, text: string)
    ensures Gives(dec, Str("string"), text, Coerced(Str(text)))
  {
    assert Spells(dec, "string", text, Str(text));
  }

  /** A text of the model's own making for each value of a type that has one without the library. */
  function Spelling(v: Json, plus: bool): string
    requires v.Str? || v.Int? || v.Bool? || v.Null?
  {
    match v
    case Str(s) => s
    case Int(n) => Signed(n, plus)
    case Bool(b) => if b then "true" else "false"
    case Null => "null"
  }

  lemma SpellingSpells(dec: Decoders, v: Json, plus: bool)
    requires v.Str? || v.Int? || v.Bool? || v.Null?
    ensures Spells(dec, if v.Str? then "string" else if v.Int? then "integer" else if v.Bool? then "boolean" else "null",
                   Spelling(v, plus), v)
  {
    hide Numeral;
    if v.Int? {
      SignedValue(v.i, plus);
      IntegerNumeral(Signed(v.i, plus), v.i);
    }
  }
}
