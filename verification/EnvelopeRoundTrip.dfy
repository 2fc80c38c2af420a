/** Writing an envelope and parsing it. For every tool name, parameter list and white space, what is
    parsed is what was written; two envelopes, or markup after one, are always rejected. */
module EnvelopeRoundTrip {
  import opened Basics
  import opened JsonValues
  import opened ToolTags
  import opened SchemaRules
  import opened Envelope

  // ---- writing --------------------------------------------------------------------------

  /** A parameter with the white space around its value and after its element. */
  datatype Laid = Laid(param: Param, before: string, after: string, next: string)

  /** The white space of the envelope itself: between its opening tags, before and after its
      parameters, between its closing tags. */
  datatype Layout = Layout(opening: string, head: string, foot: string, closing: string)

  function WriteParam(p: Laid): string {
    OpenParameter() + (p.param.name + (">" + (p.before + (p.param.value + (p.after + CloseParameter())))))
  }

  function WriteParams(ps: seq<Laid>): string {
    if ps == [] then ""
    else if |ps| == 1 then WriteParam(ps[0])
    else WriteParam(ps[0]) + (ps[0].next + WriteParams(ps[1..]))
  }

  function Inside(ps: seq<Laid>, lay: Layout): string {
    lay.head + (WriteParams(ps) + lay.foot)
  }

  /** The native envelope. */
  function Write(tool: string, ps: seq<Laid>, lay: Layout): string {
    Opening(CallTag, lay.opening) + (tool + (">" + (Inside(ps, lay) + Closing(CallTag, lay.closing))))
  }

  /** The parameters without their white space. */
  function Plain(ps: seq<Laid>): seq<Param> {
    seq(|ps|, i requires 0 <= i < |ps| => ps[i].param)
  }

  /** A trimmed, non-empty name. */
  predicate NameOk(name: string) {
    name != "" && Trim(name) && TrimEnd(name) && forall i | 0 <= i < |name| :: NameChar(name[i])
  }

  /** A trimmed value free of closing tags. */
  predicate ValueOk(value: string) {
    && Trim(value) && TrimEnd(value)
    && !Has(value, CloseParameter()) && !Has(value, CloseFunction()) && !Has(value, CloseTool())
  }

  predicate LaidOk(p: Laid) {
    NameOk(p.param.name) && ValueOk(p.param.value) && AllSpace(p.before) && AllSpace(p.after) && AllSpace(p.next)
  }

  predicate ParamsOk(ps: seq<Laid>) {
    forall i | 0 <= i < |ps| :: LaidOk(ps[i])
  }

  predicate LayoutOk(lay: Layout) {
    AllSpace(lay.opening) && AllSpace(lay.head) && AllSpace(lay.foot) && AllSpace(lay.closing)
  }

  // ---- where tags can be ----------------------------------------------------------------

  lemma {:induction false} HasAt(text: string, tag: string, k: nat)
    requires k <= |text| && tag <= text[k..]
    ensures Has(text, tag)
  {
    if k == 0 {
      assert text[0..] == text;
    } else {
      assert text[1..][k - 1..] == text[k..];
      HasAt(text[1..], tag, k - 1);
    }
  }

  /** `Has` is Python's `in` on strings. */
  lemma {:induction false} HasSomewhere(text: string, tag: string)
    ensures Has(text, tag) <==> exists k | 0 <= k <= |text| :: tag <= text[k..]
  {
    if Has(text, tag) {
      if tag <= text {
        assert text[0..] == text;
      } else {
        HasSomewhere(text[1..], tag);
        var k :| 0 <= k <= |text[1..]| && tag <= text[1..][k..];
        assert text[1..][k..] == text[k + 1..];
      }
    } else if k: nat :| k <= |text| && tag <= text[k..] {
      HasAt(text, tag, k);
    }
  }

  /** A text after which no tag goes on. */
  predicate Boundary(t: string) {
    t == "" || t[0] == '<' || IsSpace(t[0])
  }

  /** A tag that begins in `x` ends in `x`. */
  lemma NoStraddle(tag: string, x: string, t: string)
    requires TagShape(tag) && x != "" && Boundary(t) && tag <= x + t
    ensures tag <= x
  {
    var u := x + t;
    assert t != "" ==> u[|x|] == t[0];
    assert forall i | 0 <= i < |tag| :: tag[i] == u[i];
  }

  function Closer(kind: Kind): string {
    match kind
    case CallTag => CloseFunction()
    case ParameterTag => CloseParameter()
  }

  lemma TailCloser(kind: Kind, text: string)
    ensures Tail(kind, text).Some? ==> Closer(kind) <= text
    ensures TagShape(Closer(kind))
  {
    TagShapes();
  }

  /** Nothing closes in `s` when `t` follows. */
  ghost predicate Quiet(kind: Kind, s: string, t: string) {
    forall k | 0 <= k < |s| :: Tail(kind, s[k..] + t).None?
  }

  lemma QuietJoin(kind: Kind, a: string, b: string, t: string)
    requires Quiet(kind, a, b + t) && Quiet(kind, b, t)
    ensures Quiet(kind, a + b, t)
  {
    hide Tail;
    forall k | 0 <= k < |a + b|
      ensures Tail(kind, (a + b)[k..] + t).None?
    {
      if k < |a| {
        assert (a + b)[k..] + t == a[k..] + (b + t);
      } else {
        assert (a + b)[k..] == b[k - |a|..];
      }
    }
  }

  lemma {:induction false} QuietFirst(kind: Kind, s: string, t: string)
    requires Quiet(kind, s, t) && Tail(kind, t).Some?
    ensures FirstTail(kind, s + t) == Some(Cut(s, Tail(kind, t).value))
  {
    hide Tail;
    if s == "" {
      assert s + t == t;
    } else {
      assert s[0..] + t == s + t && (s + t)[1..] == s[1..] + t;
      forall k | 0 <= k < |s[1..]|
        ensures Tail(kind, s[1..][k..] + t).None?
      {
        assert s[1..][k..] == s[k + 1..];
      }
      QuietFirst(kind, s[1..], t);
      assert [s[0]] + s[1..] == s;
    }
  }

  lemma QuietSpace(kind: Kind, g: string, t: string)
    requires AllSpace(g)
    ensures Quiet(kind, g, t)
  {
    hide Tail, IsSpace;
    forall k | 0 <= k < |g|
      ensures Tail(kind, g[k..] + t).None?
    {
      if Tail(kind, g[k..] + t).Some? {
        TailBegins(kind, g[k..] + t);
      }
    }
  }

  lemma QuietTag(kind: Kind, tag: string, t: string)
    requires TagShape(tag) && Apart(Closer(kind), tag)
    ensures Quiet(kind, tag, t)
  {
    hide Tail, Closer, Apart;
    forall k | 0 <= k < |tag|
      ensures Tail(kind, tag[k..] + t).None?
    {
      if Tail(kind, tag[k..] + t).Some? {
        TailBegins(kind, tag[k..] + t);
        TailCloser(kind, tag[k..] + t);
        assert tag[0..] == tag;
        Clash(Closer(kind), tag, tag + t);
      }
    }
  }

  lemma QuietText(kind: Kind, v: string, t: string)
    requires !Has(v, Closer(kind)) && Boundary(t)
    ensures Quiet(kind, v, t)
  {
    hide Tail, Closer, Has, Boundary;
    forall k | 0 <= k < |v|
      ensures Tail(kind, v[k..] + t).None?
    {
      TailCloser(kind, v[k..] + t);
      if Tail(kind, v[k..] + t).Some? {
        NoStraddle(Closer(kind), v[k..], t);
        HasAt(v, Closer(kind), k);
      }
    }
  }

  /** A name may end like a closing tag, but then its outer tag does not follow. */
  lemma QuietName(name: string, t: string)
    requires (forall i | 0 <= i < |name| :: NameChar(name[i])) && !(CloseTool() <= StripLeft(t))
    ensures Quiet(CallTag, name, ">" + t)
  {
    hide IsSpace, StripLeft;
    forall k | 0 <= k < |name|
      ensures Tail(CallTag, name[k..] + (">" + t)).None?
    {
      var y := name[k..];
      var text := y + (">" + t);
      if CloseFunction() <= text {
        assert text[|y|] == '>';
        assert CloseFunction()[10] == '>' && forall i | 0 <= i < 10 :: CloseFunction()[i] != '>';
        assert forall i | 0 <= i < |y| :: text[i] == y[i];
        assert |y| == 10;
        assert text[11..] == t;
      }
    }
  }

  lemma QuietMark(t: string)
    ensures Quiet(CallTag, ">", t)
  {
    hide Tail;
    assert ">"[0..] + t == ">" + t;
    if Tail(CallTag, ">" + t).Some? {
      TailBegins(CallTag, ">" + t);
    }
  }

  // ---- one parameter --------------------------------------------------------------------

  lemma TagBoundary(tag: string, t: string)
    requires TagShape(tag)
    ensures Boundary(tag + t) && Trim(tag + t) && tag + t != "" && (tag + t)[0] == '<'
  {
    assert (tag + t)[0] == '<';
  }

  lemma SpaceBoundary(g: string, t: string)
    requires AllSpace(g) && Boundary(t)
    ensures Boundary(g + t)
  {
    hide IsSpace;
    if g == "" { assert g + t == t; }
  }

  /** After `value` nothing but white space and the closing tag: no outer closing tag comes first. */
  lemma NoOuterClosing(before: string, value: string, after: string, t: string)
    requires AllSpace(before) && AllSpace(after) && Trim(value) && !Has(value, CloseTool())
    ensures !(CloseTool() <= StripLeft(before + (value + (after + (CloseParameter() + t)))))
  {
    hide IsSpace, CloseTool, CloseParameter, Has;
    TagShapes();
    TagsApart();
    TagBoundary(CloseParameter(), t);
    var more := after + (CloseParameter() + t);
    SpaceBoundary(after, CloseParameter() + t);
    StripLeftSkips(before, value + more);
    if value == "" {
      assert value + more == more;
      StripLeftSkips(after, CloseParameter() + t);
      StripLeftTrim(CloseParameter() + t);
      Clash(CloseTool(), CloseParameter(), CloseParameter() + t);
      Dropped(CloseParameter(), t);
    } else {
      StripLeftTrim(value + more);
      if CloseTool() <= value + more {
        NoStraddle(CloseTool(), value, more);
        assert value[0..] == value;
        HasAt(value, CloseTool(), 0);
      }
    }
  }

  /** No call closes inside a parameter element. */
  lemma QuietParam(p: Laid, t: string)
    requires LaidOk(p)
    ensures Quiet(CallTag, WriteParam(p), t)
  {
    hide Quiet, IsSpace, OpenParameter, CloseParameter, CloseTool, CloseFunction, Has, Trim, TrimEnd, Apart, TagShape;
    TagShapes();
    TagsApart();
    var s6 := CloseParameter();
    var s5 := p.after + s6;
    var s4 := p.param.value + s5;
    var s3 := p.before + s4;
    var s2 := ">" + s3;
    QuietTag(CallTag, s6, t);
    QuietSpace(CallTag, p.after, s6 + t);
    QuietJoin(CallTag, p.after, s6, t);
    TagBoundary(s6, t);
    SpaceBoundary(p.after, s6 + t);
    assert s5 + t == p.after + (s6 + t);
    QuietText(CallTag, p.param.value, s5 + t);
    QuietJoin(CallTag, p.param.value, s5, t);
    QuietSpace(CallTag, p.before, s4 + t);
    QuietJoin(CallTag, p.before, s4, t);
    QuietMark(s3 + t);
    QuietJoin(CallTag, ">", s3, t);
    NoOuterClosing(p.before, p.param.value, p.after, t);
    assert s3 + t == p.before + (p.param.value + (p.after + (s6 + t)));
    assert s2 + t == ">" + (s3 + t);
    QuietName(p.param.name, s3 + t);
    QuietJoin(CallTag, p.param.name, s2, t);
    QuietTag(CallTag, OpenParameter(), p.param.name + s2 + t);
    assert p.param.name + s2 + t == (p.param.name + s2) + t;
    QuietJoin(CallTag, OpenParameter(), p.param.name + s2, t);
  }

  lemma {:induction false} QuietParams(ps: seq<Laid>, t: string)
    requires ParamsOk(ps)
    ensures Quiet(CallTag, WriteParams(ps), t)
  {
    hide Quiet, WriteParam, NameOk, ValueOk, AllSpace;
    if ps == [] {
      assert Quiet(CallTag, "", t) by { QuietEmpty(t); }
    } else if |ps| == 1 {
      QuietParam(ps[0], t);
    } else {
      var gap, rest := ps[0].next, WriteParams(ps[1..]);
      QuietParams(ps[1..], t);
      QuietSpace(CallTag, gap, rest + t);
      QuietJoin(CallTag, gap, rest, t);
      QuietParam(ps[0], (gap + rest) + t);
      QuietJoin(CallTag, WriteParam(ps[0]), gap + rest, t);
    }
  }

  lemma QuietEmpty(t: string)
    ensures Quiet(CallTag, "", t)
  {
  }

  lemma QuietInside(ps: seq<Laid>, lay: Layout, t: string)
    requires LayoutOk(lay) && ParamsOk(ps)
    ensures Quiet(CallTag, Inside(ps, lay), t)
  {
    hide Quiet, WriteParams, AllSpace, ParamsOk;
    QuietSpace(CallTag, lay.foot, t);
    QuietParams(ps, lay.foot + t);
    QuietJoin(CallTag, WriteParams(ps), lay.foot, t);
    QuietSpace(CallTag, lay.head, (WriteParams(ps) + lay.foot) + t);
    QuietJoin(CallTag, lay.head, WriteParams(ps) + lay.foot, t);
  }

  /** A parameter element is matched as what was written. */
  lemma ParamMatched(p: Laid, t: string)
    requires LaidOk(p)
    ensures MatchHere(ParameterTag, WriteParam(p) + t) == Some(Match(p.param.name, p.param.value, t))
  {
    hide IsSpace, Head, Tail, NameLength, FirstTail, Quiet, Strip, OpenParameter, CloseParameter, Has, TagShape, NameChar;
    var name, value := p.param.name, p.param.value;
    var raw := p.before + (value + p.after);
    var u := raw + (CloseParameter() + t);
    var named := name + (">" + u);
    var text := WriteParam(p) + t;
    assert text == Opening(ParameterTag, "") + named by {
      assert WriteParam(p) == OpenParameter() + (name + (">" + (raw + CloseParameter())));
      assert WriteParam(p) + t == OpenParameter() + (name + (">" + (raw + (CloseParameter() + t))));
    }
    OpeningHead(ParameterTag, "", named);
    assert named == name + ">" + u;
    NameTaken(name, u);
    TagShapes();
    assert CloseParameter() + t == Closing(ParameterTag, "") + t;
    ClosingTail(ParameterTag, "", t);
    QuietValue(p.before, value, p.after, CloseParameter() + t) by { TagBoundary(CloseParameter(), t); }
    QuietFirst(ParameterTag, raw, CloseParameter() + t);
    assert raw == p.before + value + p.after;
    StripBetween(p.before, value, p.after);
    assert named[|name| + 1..] == u && named[..|name|] == name && named[|name|] == '>';
  }

  lemma QuietValue(before: string, value: string, after: string, t: string)
    requires AllSpace(before) && AllSpace(after) && !Has(value, CloseParameter()) && Boundary(t)
    ensures Quiet(ParameterTag, before + (value + after), t)
  {
    hide IsSpace, Quiet, Has, CloseParameter, Boundary, AllSpace;
    QuietSpace(ParameterTag, after, t);
    SpaceBoundary(after, t);
    QuietText(ParameterTag, value, after + t);
    QuietJoin(ParameterTag, value, after, t);
    QuietSpace(ParameterTag, before, (value + after) + t);
    QuietJoin(ParameterTag, before, value + after, t);
  }

  // ---- scanning -------------------------------------------------------------------------

  /** Text in which no match begins is residue. */
  lemma {:induction false} ScanSkips(kind: Kind, x: string, t: string)
    requires forall k | 0 <= k < |x| :: MatchHere(kind, x[k..] + t).None?
    ensures Scan(kind, x + t).matches == Scan(kind, t).matches
    ensures Scan(kind, x + t).residue == x + Scan(kind, t).residue
  {
    hide MatchHere;
    if x == "" {
      assert x + t == t;
    } else {
      assert x[0..] + t == x + t && (x + t)[1..] == x[1..] + t;
      forall k | 0 <= k < |x[1..]|
        ensures MatchHere(kind, x[1..][k..] + t).None?
      {
        assert x[1..][k..] == x[k + 1..];
      }
      ScanSkips(kind, x[1..], t);
      assert [x[0]] + x[1..] == x;
    }
  }

  /** A match begins with '<'. */
  lemma HeadBegins(kind: Kind, text: string)
    requires Head(kind, text).Some?
    ensures text != "" && text[0] == '<' && !IsSpace(text[0])
    ensures kind.CallTag? ==> OpenTool() <= text
  {
    assert OpenTool()[0] == '<' && OpenParameter()[0] == '<';
  }

  lemma ScanSpace(kind: Kind, g: string, t: string)
    requires AllSpace(g)
    ensures Scan(kind, g + t).matches == Scan(kind, t).matches
    ensures Scan(kind, g + t).residue == g + Scan(kind, t).residue
  {
    hide Head, IsSpace, FirstTail, Scan;
    forall k | 0 <= k < |g|
      ensures MatchHere(kind, g[k..] + t).None?
    {
      if MatchHere(kind, g[k..] + t).Some? {
        HeadBegins(kind, g[k..] + t);
      }
    }
    ScanSkips(kind, g, t);
  }

  lemma ScanMatch(kind: Kind, text: string)
    requires MatchHere(kind, text).Some?
    ensures var m := MatchHere(kind, text).value;
      Scan(kind, text) == Found([m] + Scan(kind, m.rest).matches, Scan(kind, m.rest).residue)
  {
    hide MatchHere;
  }

  /** The body of an envelope is scanned as the parameters that were written, with only white space
      between them. */
  lemma {:induction false} ParamsScanned(ps: seq<Laid>)
    requires ParamsOk(ps)
    ensures var found := Scan(ParameterTag, WriteParams(ps));
      && |found.matches| == |ps| && AllSpace(found.residue)
      && forall i | 0 <= i < |ps| :: Yields(found.matches[i], ps[i].param)
  {
    hide Scan, MatchHere, WriteParam, NameOk, ValueOk, AllSpace, Yields;
    if ps == [] {
      EmptyScan();
      NoSpace();
    } else {
      var rest := if |ps| == 1 then "" else ps[0].next + WriteParams(ps[1..]);
      var text := WriteParams(ps);
      assert text == WriteParam(ps[0]) + rest;
      ParamMatched(ps[0], rest);
      ScanMatch(ParameterTag, text);
      assert Yields(Match(ps[0].param.name, ps[0].param.value, rest), ps[0].param) by { MatchYields(ps[0].param, rest); }
      ParamsScanned(ps[1..]);
      if |ps| > 1 {
        ScanSpace(ParameterTag, ps[0].next, WriteParams(ps[1..]));
        SpaceJoin(ps[0].next, Scan(ParameterTag, WriteParams(ps[1..])).residue);
      }
      var more := Scan(ParameterTag, rest).matches;
      forall i | 1 <= i < |ps|
        ensures Yields(Scan(ParameterTag, text).matches[i], ps[i].param)
      {
        assert Scan(ParameterTag, text).matches[i] == more[i - 1] && ps[i] == ps[1..][i - 1];
      }
    }
  }

  /** The match of a parameter element. */
  predicate Yields(m: Match, p: Param) {
    m.name == p.name && m.body == p.value
  }

  lemma MatchYields(p: Param, rest: string)
    ensures Yields(Match(p.name, p.value, rest), p)
  {
  }

  lemma SpaceJoin(a: string, b: string)
    requires AllSpace(a) && AllSpace(b)
    ensures AllSpace(a + b)
  {
    hide IsSpace;
  }

  lemma EmptyScan()
    ensures Scan(ParameterTag, "") == Found([], "")
  {
    if MatchHere(ParameterTag, "").Some? { HeadBegins(ParameterTag, ""); }
  }
  // ---- the whole envelope ---------------------------------------------------------------

  lemma ParamsShape(ps: seq<Laid>)
    requires ParamsOk(ps)
    ensures Trim(WriteParams(ps)) && TrimEnd(WriteParams(ps))
  {
    if ps != [] {
      assert OpenParameter()[0] == '<' && !IsSpace('<') && CloseParameter()[11] == '>' && !IsSpace('>');
      ParamsEnd(ps);
      assert WriteParam(ps[0])[0] == '<';
    }
  }

  lemma {:induction false} ParamsEnd(ps: seq<Laid>)
    requires ps != []
    ensures WriteParams(ps) != "" && WriteParams(ps)[|WriteParams(ps)| - 1] == '>'
  {
    if |ps| == 1 {
      ParamEnd(ps[0]);
    } else {
      ParamsEnd(ps[1..]);
    }
  }

  lemma ParamEnd(p: Laid)
    ensures WriteParam(p) != "" && WriteParam(p)[|WriteParam(p)| - 1] == '>'
  {
    var last := CloseParameter();
    assert last[11] == '>';
    assert WriteParam(p) == (OpenParameter() + (p.param.name + (">" + (p.before + (p.param.value + p.after))))) + last;
  }

  /** An envelope is matched as what was written, up to its own closing. */
  lemma EnvelopeMatched(tool: string, ps: seq<Laid>, lay: Layout, t: string)
    requires LayoutOk(lay) && NameOk(tool) && ParamsOk(ps)
    ensures MatchHere(CallTag, Write(tool, ps, lay) + t) == Some(Match(tool, WriteParams(ps), t))
  {
    hide Head, Tail, NameLength, FirstTail, Quiet, Strip, Opening, Closing, WriteParams, ParamsOk, Trim, TrimEnd, NameChar;
    hide IsSpace;
    var u := Inside(ps, lay) + (Closing(CallTag, lay.closing) + t);
    var named := tool + (">" + u);
    var text := Write(tool, ps, lay) + t;
    assert text == Opening(CallTag, lay.opening) + named;
    OpeningHead(CallTag, lay.opening, named);
    assert named == tool + ">" + u;
    NameTaken(tool, u);
    ClosingTail(CallTag, lay.closing, t);
    QuietInside(ps, lay, Closing(CallTag, lay.closing) + t);
    QuietFirst(CallTag, Inside(ps, lay), Closing(CallTag, lay.closing) + t);
    ParamsShape(ps);
    assert Inside(ps, lay) == lay.head + WriteParams(ps) + lay.foot;
    StripBetween(lay.head, WriteParams(ps), lay.foot);
    assert named[|tool| + 1..] == u && named[..|tool|] == tool && named[|tool|] == '>';
  }

  /** An envelope begins with its opening tag. */
  lemma EnvelopeBegins(tool: string, ps: seq<Laid>, lay: Layout, t: string)
    ensures OpenTool() <= Write(tool, ps, lay) + t && Write(tool, ps, lay) + t != ""
    ensures Boundary(Write(tool, ps, lay) + t) && Trim(Write(tool, ps, lay) + t)
  {
    hide OpenTool, OpenFunction, WriteParams, Closing;
    TagShapes();
    assert Write(tool, ps, lay) + t
        == OpenTool() + (lay.opening + (OpenFunction() + ((tool + (">" + (Inside(ps, lay) + Closing(CallTag, lay.closing)))) + t)));
    TagBoundary(OpenTool(), lay.opening + (OpenFunction() + ((tool + (">" + (Inside(ps, lay) + Closing(CallTag, lay.closing)))) + t)));
  }

  /** No match begins in a prefix without the opening tag. */
  lemma PrefixSkipped(prefix: string, t: string)
    requires !Has(prefix, OpenTool()) && Boundary(t)
    ensures Scan(CallTag, prefix + t).matches == Scan(CallTag, t).matches
  {
    hide Head, FirstTail, Has, OpenTool, Boundary, Scan;
    TagShapes();
    forall k | 0 <= k < |prefix|
      ensures MatchHere(CallTag, prefix[k..] + t).None?
    {
      if Head(CallTag, prefix[k..] + t).Some? {
        HeadBegins(CallTag, prefix[k..] + t);
        NoStraddle(OpenTool(), prefix[k..], t);
        HasAt(prefix, OpenTool(), k);
      }
    }
    ScanSkips(CallTag, prefix, t);
  }

  lemma {:induction false} LongerTag(text: string, tag: string, start: string)
    requires start <= tag && Has(text, tag)
    ensures Has(text, start)
  {
    if !(tag <= text) {
      LongerTag(text[1..], tag, start);
    }
  }

  /** A text without markup has no match. */
  lemma NoMarkupNoMatch(text: string)
    requires !HasMarkup(text)
    ensures Scan(CallTag, text).matches == []
  {
    hide Scan, Has, OpenTool;
    assert !Has(text, OpenTool()) by {
      assert Markers()[0] == "<tool_call";
      MarkerTool();
      if Has(text, OpenTool()) { LongerTag(text, OpenTool(), "<tool_call"); }
    }
    PrefixSkipped(text, "");
    assert text + "" == text;
    assert Scan(CallTag, "").matches == [] by { EmptyCalls(); }
  }

  lemma MarkerTool()
    ensures "<tool_call" <= OpenTool()
  {
  }

  lemma EmptyCalls()
    ensures Scan(CallTag, "").matches == []
  {
    if MatchHere(CallTag, "").Some? { HeadBegins(CallTag, ""); }
  }

  /** Exactly a text with none of the six markers, and not only white space, is taken as plain text, trimmed. */
  lemma PlainTextMeaning(dec: Decoders, specs: map<string, Dict>, text: string)
    ensures var r := Meaning(dec, specs, text);
      && (r.PlainText? ==> r.content == Strip(text))
      && (r.PlainText? <==>
            && !Has(text, "<tool_call") && !Has(text, "</tool_call") && !Has(text, "<function=") && !Has(text, "</function")
            && !Has(text, "<parameter=") && !Has(text, "</parameter") && Strip(text) != "")
  {
    hide Scan, HasMarkup, Has, Strip, Interpret;
    MarkupMeaning(text);
    if !HasMarkup(text) { NoMarkupNoMatch(text); }
    CallIsNoText(dec, specs, text);
  }

  lemma CallIsNoText(dec: Decoders, specs: map<string, Dict>, text: string)
    ensures Scan(CallTag, text).matches != [] ==> !Meaning(dec, specs, text).PlainText?
  {
    hide Scan, HasMarkup, Strip, Gather, RequiredPresent;
  }

  /** Markup is not lost by stripping white space. */
  lemma {:induction false} MarkupBeyondSpace(g: string, text: string, tag: string)
    requires AllSpace(g) && tag != "" && !IsSpace(tag[0]) && Has(g + text, tag)
    ensures Has(text, tag)
  {
    hide IsSpace;
    if g == "" {
      assert g + text == text;
    } else {
      assert (g + text)[1..] == g[1..] + text;
      MarkupBeyondSpace(g[1..], text, tag);
    }
  }

  lemma {:induction false} MarkupBeforeSpace(text: string, g: string, tag: string)
    requires AllSpace(g) && tag != "" && (forall i | 0 <= i < |tag| :: !IsSpace(tag[i])) && Has(text + g, tag)
    ensures Has(text, tag)
  {
    hide IsSpace;
    if text == "" {
      assert text + g == g && g + "" == g;
      MarkupBeyondSpace(g, "", tag);
    } else if tag <= text + g {
      var u := text + g;
      assert g != "" ==> u[|text|] == g[0];
      assert forall i | 0 <= i < |tag| :: tag[i] == u[i];
    } else {
      assert (text + g)[1..] == text[1..] + g;
      MarkupBeforeSpace(text[1..], g, tag);
    }
  }

  lemma StripKeepsMarkup(text: string)
    requires HasMarkup(text)
    ensures HasMarkup(Strip(text))
  {
    hide Has, IsSpace, Strip;
    var i :| 0 <= i < |Markers()| && Has(text, Markers()[i]);
    var tag := Markers()[i];
    MarkersSolid(i);
    StripParts(text);
    var g, g' :| AllSpace(g) && AllSpace(g') && text == g + Strip(text) + g';
    assert text == g + (Strip(text) + g');
    MarkupBeyondSpace(g, Strip(text) + g', tag);
    MarkupBeforeSpace(Strip(text), g', tag);
  }

  lemma MarkersSolid(i: nat)
    requires i < |Markers()|
    ensures Markers()[i] != "" && forall k | 0 <= k < |Markers()[i]| :: !IsSpace(Markers()[i][k])
  {
  }

  // ---- what it says ---------------------------------------------------------------------

  /** Parsing inverts writing: the envelope of any tool name and any parameters, with any white space
      between its parts, after a prefix without an opening tag and before a suffix without markup,
      means exactly that tool called with those parameters. */
  lemma ParseInvertsWrite(dec: Decoders, specs: map<string, Dict>, prefix: string, tool: string, ps: seq<Laid>,
                          lay: Layout, suffix: string)
    requires LayoutOk(lay) && NameOk(tool) && ParamsOk(ps) && !Has(prefix, OpenTool()) && !HasMarkup(suffix)
    ensures Meaning(dec, specs, prefix + (Write(tool, ps, lay) + suffix)) == Interpret(dec, specs, tool, Plain(ps))
  {
    hide Scan, MatchHere, HasMarkup, IsSpace, Interpret, Write, WriteParams, Has, OpenTool, Strip;
    var text := Write(tool, ps, lay) + suffix;
    EnvelopeBegins(tool, ps, lay, suffix);
    PrefixSkipped(prefix, text);
    EnvelopeMatched(tool, ps, lay, suffix);
    ScanMatch(CallTag, text);
    NoMarkupNoMatch(suffix);
    var found := Scan(ParameterTag, WriteParams(ps));
    ParamsScanned(ps);
    SuffixClean(suffix);
    assert Strip(found.residue) == "" by {
      StripBetween(found.residue, "", "");
      assert found.residue + "" + "" == found.residue;
    }
    assert Strip(tool) == tool by {
      StripBetween("", tool, "");
      assert "" + tool + "" == tool;
    }
    forall i | 0 <= i < |ps|
      ensures Params(found.matches)[i] == ps[i].param
    {
      assert LaidOk(ps[i]) && Yields(found.matches[i], ps[i].param);
      StripBetween("", ps[i].param.name, "");
      assert "" + ps[i].param.name + "" == ps[i].param.name;
    }
    assert Params(found.matches) == Plain(ps);
  }

  lemma SuffixClean(suffix: string)
    requires !HasMarkup(suffix)
    ensures !HasMarkup(Strip(suffix))
  {
    hide Has, Strip;
    StripParts(suffix);
    var g, g' :| AllSpace(g) && AllSpace(g') && suffix == g + Strip(suffix) + g';
    if HasMarkup(Strip(suffix)) {
      var i :| 0 <= i < |Markers()| && Has(Strip(suffix), Markers()[i]);
      HasInside(g, Strip(suffix), g', Markers()[i]);
    }
  }

  lemma {:induction false} HasInside(a: string, text: string, b: string, tag: string)
    requires Has(text, tag)
    ensures Has(a + text + b, tag)
  {
    if a != "" {
      assert (a + text + b)[1..] == a[1..] + text + b;
      HasInside(a[1..], text, b, tag);
    } else if tag <= text {
      assert tag <= a + text + b;
    } else {
      assert (a + text + b)[1..] == text[1..] + b && "" + text[1..] + b == text[1..] + b;
      HasInside("", text[1..], b, tag);
    }
  }

  /** A known tool with distinct, coercible parameters, every required one among them. */
  predicate Callable(dec: Decoders, specs: map<string, Dict>, tool: string, ps: seq<Param>) {
    && tool in specs && ParametersOf(specs[tool]).Obj?
    && var schema := ParametersOf(specs[tool]).fields;
       var properties := GetOr(schema, "properties", Obj(map[]));
       var required := GetOr(schema, "required", Arr([]));
       && properties.Obj? && DistinctNames(ps) && AllCoerced(dec, schema, properties.fields, ps)
       && StringArray(required) && forall i | 0 <= i < |required.items| :: Named(ps, required.items[i].s)
  }

  /** Exactly a callable call is accepted; its arguments map each parameter to its coerced value, and
      nothing else. */
  lemma CalledMeaning(dec: Decoders, specs: map<string, Dict>, tool: string, ps: seq<Param>)
    ensures Interpret(dec, specs, tool, ps).Called? <==> Callable(dec, specs, tool, ps)
    ensures Interpret(dec, specs, tool, ps).Called? ==>
      var schema := ParametersOf(specs[tool]).fields;
      var properties := GetOr(schema, "properties", Obj(map[]));
      && Interpret(dec, specs, tool, ps).name == tool
      && Assigns(dec, schema, properties.fields, ps, Interpret(dec, specs, tool, ps).arguments)
      && RequiredPresent(schema, Interpret(dec, specs, tool, ps).arguments)
  {
    hide Assigns, DistinctNames, AllCoerced, Named, StringArray, RequiredPresent;
    if tool in specs && ParametersOf(specs[tool]).Obj? {
      var schema := ParametersOf(specs[tool]).fields;
      var properties := GetOr(schema, "properties", Obj(map[]));
      if properties.Obj? {
        GatherMeaning(dec, schema, properties.fields, ps);
        var gathered := Gather(dec, schema, properties.fields, ps);
        if gathered.Gathered? {
          forall name
            ensures name in gathered.arguments <==> Named(ps, name)
          {
            AssignsNames(dec, schema, properties.fields, ps, gathered.arguments, name);
          }
          RequiredNamed(schema, gathered.arguments, ps);
        }
      }
    }
  }

  lemma RequiredNamed(schema: Dict, arguments: Dict, ps: seq<Param>)
    requires forall name :: name in arguments <==> Named(ps, name)
    ensures var required := GetOr(schema, "required", Arr([]));
      RequiredPresent(schema, arguments) <==>
        StringArray(required) && forall i | 0 <= i < |required.items| :: Named(ps, required.items[i].s)
  {
    hide Named, GetOr;
  }

  /** Hence the envelope of a known tool with distinct, coercible parameters and all required ones is
      parsed as the call of that tool with the coerced map, and any other envelope is not a call. */
  lemma KnownToolCalled(dec: Decoders, specs: map<string, Dict>, prefix: string, tool: string, ps: seq<Laid>,
                        lay: Layout, suffix: string)
    requires LayoutOk(lay) && NameOk(tool) && ParamsOk(ps) && !Has(prefix, OpenTool()) && !HasMarkup(suffix)
    ensures var r := Meaning(dec, specs, prefix + (Write(tool, ps, lay) + suffix));
      && (r.Called? <==> Callable(dec, specs, tool, Plain(ps)))
      && (r.Called? ==>
            var schema := ParametersOf(specs[tool]).fields;
            && r.name == tool
            && Assigns(dec, schema, GetOr(schema, "properties", Obj(map[])).fields, Plain(ps), r.arguments))
  {
    hide Meaning, Interpret, Assigns, Write, HasMarkup, DistinctNames, AllCoerced, RequiredPresent;
    ParseInvertsWrite(dec, specs, prefix, tool, ps, lay, suffix);
    CalledMeaning(dec, specs, tool, Plain(ps));
  }

  // ---- anything before an envelope ------------------------------------------------------

  lemma {:induction false} StripLeftBefore(a: string, b: string)
    requires b != "" && Trim(b)
    ensures StripLeft(a + b) == StripLeft(a) + b
  {
    hide IsSpace;
    if a == "" {
      assert a + b == b;
    } else {
      assert (a + b)[1..] == a[1..] + b;
      StripLeftBefore(a[1..], b);
    }
  }

  /** `t` begins with an opening tag of an envelope. */
  predicate Enveloped(t: string) {
    OpenTool() <= t && Boundary(t) && Trim(t) && t != ""
  }

  /** A tag other than the first of the envelope that begins before it ends before it. */
  lemma TagInside(tag: string, a: string, t: string)
    requires TagShape(tag) && Enveloped(t) && tag <= a + t && (a == "" ==> Apart(tag, OpenTool()))
    ensures tag <= a && (a + t)[|tag|..] == a[|tag|..] + t
  {
    hide IsSpace, OpenTool, Boundary, Apart, TagShape;
    if a == "" {
      assert a + t == t;
      Clash(tag, OpenTool(), t);
    } else {
      NoStraddle(tag, a, t);
    }
  }

  /** An opening that begins before an envelope ends before it. */
  lemma HeadInside(x: string, t: string) returns (x1: string)
    requires x != "" && Enveloped(t) && Head(CallTag, x + t).Some?
    ensures Head(CallTag, x + t).value == x1 + t && |x1| < |x|
  {
    hide IsSpace, OpenTool, OpenFunction, Boundary, Apart, TagShape, StripLeft;
    TagShapes();
    TagsApart();
    TagInside(OpenTool(), x, t);
    var y := x[|OpenTool()|..];
    StripLeftBefore(y, t);
    StripLeftSplits(y);
    TagInside(OpenFunction(), StripLeft(y), t);
    x1 := StripLeft(y)[|OpenFunction()|..];
    TagNotEmpty();
  }

  lemma TagNotEmpty()
    ensures |OpenTool()| == 11
  {
  }

  /** So does a closing. */
  lemma TailInside(y: string, t: string) returns (y1: string)
    requires y != "" && Enveloped(t) && Tail(CallTag, y + t).Some?
    ensures Tail(CallTag, y + t).value == y1 + t
  {
    hide IsSpace, OpenTool, CloseTool, CloseFunction, Boundary, Apart, TagShape, StripLeft;
    TagShapes();
    TagsApart();
    TagInside(CloseFunction(), y, t);
    var z := y[|CloseFunction()|..];
    StripLeftBefore(z, t);
    TagInside(CloseTool(), StripLeft(z), t);
    y1 := StripLeft(z)[|CloseTool()|..];
  }

  lemma {:induction false} NameBeyond(x: string, t: string)
    ensures NameLength(x + t) < |x| || NameLength(x + t) == |x| + NameLength(t)
  {
    if x == "" {
      assert x + t == t;
    } else {
      assert (x + t)[1..] == x[1..] + t;
      NameBeyond(x[1..], t);
    }
  }

  /** An envelope up to its closing, without its first tag. */
  function Front(tool: string, ps: seq<Laid>, lay: Layout): string {
    lay.opening + (OpenFunction() + (tool + (">" + Inside(ps, lay))))
  }

  lemma WriteFront(tool: string, ps: seq<Laid>, lay: Layout, z: string)
    ensures Write(tool, ps, lay) + z == (OpenTool() + Front(tool, ps, lay)) + (Closing(CallTag, lay.closing) + z)
  {
    hide OpenTool, OpenFunction, Inside, CloseTool, CloseFunction;
    assert Write(tool, ps, lay)
        == (OpenTool() + lay.opening + OpenFunction()) + (tool + (">" + (Inside(ps, lay) + Closing(CallTag, lay.closing))));
  }

  /** What follows a tool's name is not an outer closing tag. */
  lemma NoOuterInside(ps: seq<Laid>, lay: Layout, z: string)
    requires LayoutOk(lay)
    ensures !(CloseTool() <= StripLeft(Inside(ps, lay) + (Closing(CallTag, lay.closing) + z)))
  {
    hide AllSpace, CloseTool, CloseFunction, OpenParameter, CloseParameter, StripLeft, Apart, TagShape;
    TagShapes();
    TagsApart();
    var last := lay.closing + (CloseTool() + z);
    var t := CloseFunction() + last;
    assert Closing(CallTag, lay.closing) + z == t by { Regroup(CloseFunction(), lay.closing, CloseTool(), z); }
    Regroup(lay.head, WriteParams(ps), lay.foot, t);
    if ps == [] {
      assert "" + (lay.foot + t) == lay.foot + t;
      StripLeftSkips(lay.head, lay.foot + t);
      OtherTagFirst(lay.foot, CloseFunction(), last);
    } else {
      var more := ParamsBegin(ps);
      assert (OpenParameter() + more) + (lay.foot + t) == OpenParameter() + (more + (lay.foot + t));
      OtherTagFirst(lay.head, OpenParameter(), more + (lay.foot + t));
    }
  }

  lemma Regroup(a: string, b: string, c: string, d: string)
    ensures a + (b + c) + d == a + (b + (c + d)) && a + b + c + d == a + (b + (c + d))
  {
  }

  /** After white space another tag comes first. */
  lemma OtherTagFirst(gap: string, tag: string, t: string)
    requires AllSpace(gap) && TagShape(tag) && Apart(CloseTool(), tag)
    ensures !(CloseTool() <= StripLeft(gap + (tag + t)))
  {
    hide AllSpace, CloseTool, StripLeft, Apart, TagShape;
    StripLeftSkips(gap, tag + t);
    TagBoundary(tag, t);
    StripLeftTrim(tag + t);
    Dropped(tag, t);
    Clash(CloseTool(), tag, tag + t);
  }

  lemma ParamsBegin(ps: seq<Laid>) returns (more: string)
    requires ps != []
    ensures WriteParams(ps) == OpenParameter() + more
  {
    hide OpenParameter, CloseParameter;
    var p := ps[0];
    var body := p.param.name + (">" + (p.before + (p.param.value + (p.after + CloseParameter()))));
    more := body + if |ps| == 1 then "" else p.next + WriteParams(ps[1..]);
  }

  /** No call closes inside an envelope before its own closing. */
  lemma QuietFront(tool: string, ps: seq<Laid>, lay: Layout, z: string)
    requires LayoutOk(lay) && NameOk(tool) && ParamsOk(ps)
    ensures Quiet(CallTag, Front(tool, ps, lay), Closing(CallTag, lay.closing) + z)
    ensures Quiet(CallTag, OpenTool() + Front(tool, ps, lay), Closing(CallTag, lay.closing) + z)
  {
    hide Quiet, IsSpace, OpenTool, OpenFunction, CloseTool, CloseFunction, Inside, ParamsOk, TagShape, Apart, Closing;
    TagShapes();
    TagsApart();
    var t := Closing(CallTag, lay.closing) + z;
    var inside := Inside(ps, lay);
    var s1 := ">" + inside;
    var s2 := tool + s1;
    var s3 := OpenFunction() + s2;
    QuietInside(ps, lay, t);
    QuietMark(inside + t);
    QuietJoin(CallTag, ">", inside, t);
    NoOuterInside(ps, lay, z);
    assert s1 + t == ">" + (inside + t);
    QuietName(tool, inside + t);
    QuietJoin(CallTag, tool, s1, t);
    QuietTag(CallTag, OpenFunction(), s2 + t);
    QuietJoin(CallTag, OpenFunction(), s2, t);
    QuietSpace(CallTag, lay.opening, s3 + t);
    QuietJoin(CallTag, lay.opening, s3, t);
    QuietTag(CallTag, OpenTool(), Front(tool, ps, lay) + t);
    QuietJoin(CallTag, OpenTool(), Front(tool, ps, lay), t);
  }

  /** A match that begins before an envelope ends before it, or with it. */
  lemma MatchBefore(x: string, tool: string, ps: seq<Laid>, lay: Layout, z: string) returns (y: string)
    requires LayoutOk(lay) && NameOk(tool) && ParamsOk(ps) && x != ""
    requires MatchHere(CallTag, x + (Write(tool, ps, lay) + z)).Some?
    ensures var rest := MatchHere(CallTag, x + (Write(tool, ps, lay) + z)).value.rest;
      rest == z || (rest == y + (Write(tool, ps, lay) + z) && |y| < |x|)
  {
    hide Head, Tail, FirstTail, Quiet, Strip, Opening, Closing, Write, Front, ParamsOk, NameOk, IsSpace, OpenTool, NameLength;
    var t := Write(tool, ps, lay) + z;
    EnvelopeBegins(tool, ps, lay, z);
    WriteFront(tool, ps, lay, z);
    QuietFront(tool, ps, lay, z);
    ClosingTail(CallTag, lay.closing, z);
    MatchShortens(CallTag, x + t);
    var closing := Closing(CallTag, lay.closing) + z;
    var front := OpenTool() + Front(tool, ps, lay);
    var x1 := HeadInside(x, t);
    var n := NameLength(x1 + t);
    NameBeyond(x1, t);
    y := "";
    if n < |x1| {
      var x2 := x1[n + 1..];
      assert (x1 + t)[n + 1..] == x2 + t;
      y := TailBefore(x2, front, closing, z, t);
    } else {
      NameEnvelope(Front(tool, ps, lay) + closing);
      assert t == OpenTool() + (Front(tool, ps, lay) + closing);
      assert (x1 + t)[n + 1..] == Front(tool, ps, lay) + closing by { TagNotEmpty(); }
      QuietFirst(CallTag, Front(tool, ps, lay), closing);
    }
  }

  lemma NameEnvelope(t: string)
    ensures NameLength(OpenTool() + t) == 10
  {
    assert OpenTool() + t == "<tool_call" + ">" + t;
    NameTaken("<tool_call", t);
  }

  /** The first closing of a body that runs into an envelope. */
  lemma TailBefore(x: string, front: string, closing: string, z: string, t: string) returns (y: string)
    requires t == front + closing && Enveloped(t) && Quiet(CallTag, front, closing) && Tail(CallTag, closing) == Some(z)
    ensures FirstTail(CallTag, x + t).Some?
    ensures var rest := FirstTail(CallTag, x + t).value.rest; rest == z || rest == y + t
  {
    hide Tail, FirstTail, Enveloped;
    var u := x + t;
    var k := |x| + |front|;
    assert u[k..] == closing;
    FirstTailFinds(CallTag, u, k);
    FirstTailCuts(CallTag, u);
    var j := |FirstTail(CallTag, u).value.raw|;
    y := "";
    if j < |x| {
      assert u[j..] == x[j..] + t;
      y := TailInside(x[j..], t);
    } else if j < k {
      QuietAt(x, front, closing, j);
    }
  }

  lemma QuietAt(x: string, s: string, t: string, j: nat)
    requires Quiet(CallTag, s, t) && |x| <= j < |x| + |s|
    ensures Tail(CallTag, (x + (s + t))[j..]).None?
  {
    hide Tail;
    assert (x + (s + t))[j..] == s[j - |x|..] + t;
  }

  /** Whatever comes before an envelope, there is one match more than after it; a single match ends
      with the envelope. */
  lemma {:induction false} OneMore(x: string, tool: string, ps: seq<Laid>, lay: Layout, z: string)
    requires LayoutOk(lay) && NameOk(tool) && ParamsOk(ps)
    ensures var matches := Scan(CallTag, x + (Write(tool, ps, lay) + z)).matches;
      |matches| >= 1 + |Scan(CallTag, z).matches| && (|matches| == 1 ==> matches[0].rest == z)
    decreases |x|
  {
    hide MatchHere, Write, NameOk, ParamsOk, IsSpace;
    var t := Write(tool, ps, lay) + z;
    var text := x + t;
    if x == "" {
      assert text == t;
      EnvelopeMatched(tool, ps, lay, z);
      ScanMatch(CallTag, t);
    } else if MatchHere(CallTag, text).None? {
      assert text[1..] == x[1..] + t;
      OneMore(x[1..], tool, ps, lay, z);
    } else {
      var y := MatchBefore(x, tool, ps, lay, z);
      ScanMatch(CallTag, text);
      if MatchHere(CallTag, text).value.rest != z {
        OneMore(y, tool, ps, lay, z);
      }
    }
  }

  /** Two adjacent envelopes are always rejected, whatever stands before and after them. */
  lemma TwoEnvelopesRejected(dec: Decoders, specs: map<string, Dict>, prefix: string, tool: string, ps: seq<Laid>,
                             lay: Layout, tool': string, ps': seq<Laid>, lay': Layout, suffix: string)
    requires LayoutOk(lay) && NameOk(tool) && ParamsOk(ps) && LayoutOk(lay') && NameOk(tool') && ParamsOk(ps')
    ensures Meaning(dec, specs, prefix + (Write(tool, ps, lay) + (Write(tool', ps', lay') + suffix))) == Rejected
  {
    hide Scan, HasMarkup, IsSpace, Interpret, Write, NameOk, ParamsOk, Strip;
    OneMore(prefix, tool, ps, lay, Write(tool', ps', lay') + suffix);
    OneMore("", tool', ps', lay', suffix);
    assert "" + (Write(tool', ps', lay') + suffix) == Write(tool', ps', lay') + suffix;
  }

  /** Markup after a complete envelope is rejected, whatever stands before it. */
  lemma MarkupInSuffix(dec: Decoders, specs: map<string, Dict>, prefix: string, tool: string, ps: seq<Laid>,
                       lay: Layout, suffix: string)
    requires LayoutOk(lay) && NameOk(tool) && ParamsOk(ps) && HasMarkup(suffix)
    ensures Meaning(dec, specs, prefix + (Write(tool, ps, lay) + suffix)) == Rejected
  {
    hide Scan, HasMarkup, IsSpace, Interpret, Write, NameOk, ParamsOk, Strip;
    OneMore(prefix, tool, ps, lay, suffix);
    StripKeepsMarkup(suffix);
  }
}
