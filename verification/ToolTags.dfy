/** The two regular expressions of `tool_protocol.py` as a left-to-right matcher, proved to find the
    match a backtracking engine prefers among all the ways to read the expression. */
module ToolTags {
  import opened Basics

  // ---- white space ----------------------------------------------------------------------

  predicate AllSpace(s: string) {
    forall i | 0 <= i < |s| :: IsSpace(s[i])
  }

  /** Does not begin with white space. */
  predicate Trim(s: string) {
    s == "" || !IsSpace(s[0])
  }

  lemma {:induction false} StripLeftSkips(g: string, t: string)
    requires AllSpace(g)
    ensures StripLeft(g + t) == StripLeft(t)
  {
    hide IsSpace;
    if g != "" {
      assert (g + t)[1..] == g[1..] + t;
      StripLeftSkips(g[1..], t);
    } else {
      assert g + t == t;
    }
  }

  lemma {:induction false} StripLeftSplits(s: string)
    ensures |StripLeft(s)| <= |s| && Trim(StripLeft(s))
    ensures s == s[..|s| - |StripLeft(s)|] + StripLeft(s) && AllSpace(s[..|s| - |StripLeft(s)|])
  {
    hide IsSpace, Trim;
    var n := SpaceBefore(s);
    assert s == s[..n] + s[n..];
  }

  /** Where the text without its leading white space begins. */
  lemma {:induction false} SpaceBefore(s: string) returns (n: nat)
    ensures n <= |s| && s[n..] == StripLeft(s) && Trim(StripLeft(s))
    ensures forall i | 0 <= i < n :: IsSpace(s[i])
  {
    hide IsSpace;
    n := 0;
    if s != "" && IsSpace(s[0]) {
      var m := SpaceBefore(s[1..]);
      n := m + 1;
      assert s[1..][m..] == s[n..];
      assert forall i | 1 <= i < n :: s[i] == s[1..][i - 1];
    }
  }

  lemma StripLeftTrim(s: string)
    requires Trim(s)
    ensures StripLeft(s) == s
  {
  }

  predicate TrimEnd(s: string) {
    s == "" || !IsSpace(s[|s| - 1])
  }

  lemma {:induction false} StripRightSkips(t: string, g: string)
    requires AllSpace(g)
    ensures StripRight(t + g) == StripRight(t)
  {
    hide IsSpace;
    if g != "" {
      assert (t + g)[..|t + g| - 1] == t + g[..|g| - 1];
      StripRightSkips(t, g[..|g| - 1]);
    } else {
      assert t + g == t;
    }
  }

  lemma {:induction false} StripRightSplits(s: string)
    ensures |StripRight(s)| <= |s| && TrimEnd(StripRight(s))
    ensures s == StripRight(s) + s[|StripRight(s)|..] && AllSpace(s[|StripRight(s)|..])
    ensures Trim(s) ==> Trim(StripRight(s))
  {
    hide IsSpace;
    if s != "" && IsSpace(s[|s| - 1]) {
      var t := s[..|s| - 1];
      StripRightSplits(t);
      var k := |StripRight(t)|;
      assert s[k..] == t[k..] + [s[|s| - 1]];
      assert s == t + [s[|s| - 1]];
    }
  }

  /** A trimmed text between white space is what `strip` returns. */
  lemma StripBetween(g: string, t: string, g': string)
    requires AllSpace(g) && AllSpace(g') && Trim(t) && TrimEnd(t)
    ensures Strip(g + t + g') == t
  {
    hide IsSpace;
    if t == "" {
      assert g + t + g' == g + g' && g + g' == g + g' + "";
      StripLeftSkips(g + g', "");
    } else {
      assert g + t + g' == g + (t + g');
      StripLeftSkips(g, t + g');
      StripLeftTrim(t + g');
      StripRightSkips(t, g');
    }
  }

  lemma StripParts(s: string)
    ensures Trim(Strip(s)) && TrimEnd(Strip(s))
    ensures exists g, g' :: AllSpace(g) && AllSpace(g') && s == g + Strip(s) + g'
  {
    hide IsSpace, Trim, TrimEnd;
    StripLeftSplits(s);
    StripRightSplits(StripLeft(s));
    var g := s[..|s| - |StripLeft(s)|];
    var g' := StripLeft(s)[|Strip(s)|..];
    assert s == g + Strip(s) + g';
  }

  // ---- tags -----------------------------------------------------------------------------

  function OpenTool(): string { "<tool_call>" }
  function OpenFunction(): string { "<function=" }
  function OpenParameter(): string { "<parameter=" }
  function CloseTool(): string { "</tool_call>" }
  function CloseFunction(): string { "</function>" }
  function CloseParameter(): string { "</parameter>" }

  /** A tag: '<' first and only first, no white space. */
  predicate TagShape(tag: string) {
    tag != "" && tag[0] == '<' && forall i | 0 < i < |tag| :: tag[i] != '<' && !IsSpace(tag[i])
  }

  lemma TagShapes()
    ensures TagShape(OpenTool()) && TagShape(OpenFunction()) && TagShape(OpenParameter())
    ensures TagShape(CloseTool()) && TagShape(CloseFunction()) && TagShape(CloseParameter())
  {
  }

  /** No text begins with both. */
  predicate Apart(a: string, b: string) {
    exists i :: 0 <= i < |a| && i < |b| && a[i] != b[i]
  }

  lemma TagsApart()
    ensures Apart(CloseTool(), CloseParameter()) && Apart(CloseFunction(), CloseParameter())
    ensures Apart(CloseTool(), CloseFunction()) && Apart(CloseTool(), OpenParameter())
    ensures Apart(CloseFunction(), OpenParameter()) && Apart(CloseFunction(), OpenFunction())
    ensures Apart(CloseFunction(), OpenTool()) && Apart(CloseTool(), OpenTool()) && Apart(CloseTool(), OpenFunction())
    ensures Apart(OpenFunction(), OpenTool())
  {
    assert CloseTool()[2] == 't' && CloseParameter()[2] == 'p' && CloseFunction()[2] == 'f';
    assert CloseTool()[1] == '/' && CloseFunction()[1] == '/';
    assert OpenParameter()[1] == 'p' && OpenFunction()[1] == 'f' && OpenTool()[1] == 't';
  }

  lemma Clash(a: string, b: string, text: string)
    requires Apart(a, b)
    ensures !(a <= text && b <= text)
  {
  }

  // ---- the matcher ----------------------------------------------------------------------

  datatype Kind = CallTag | ParameterTag

  predicate NameChar(c: char) {
    c != '>' && c != '\r' && c != '\n'
  }

  /** The text after the opening tags. */
  function Head(kind: Kind, text: string): Option<string> {
    match kind
    case ParameterTag =>
      if OpenParameter() <= text then Some(text[|OpenParameter()|..]) else None
    case CallTag =>
      if OpenTool() <= text then
        var inner := StripLeft(text[|OpenTool()|..]);
        if OpenFunction() <= inner then Some(inner[|OpenFunction()|..]) else None
      else None
  }

  /** The text after the closing tags. */
  function Tail(kind: Kind, text: string): Option<string> {
    match kind
    case ParameterTag =>
      if CloseParameter() <= text then Some(text[|CloseParameter()|..]) else None
    case CallTag =>
      if CloseFunction() <= text then
        var outer := StripLeft(text[|CloseFunction()|..]);
        if CloseTool() <= outer then Some(outer[|CloseTool()|..]) else None
      else None
  }

  function NameLength(text: string): (n: nat)
    ensures n <= |text|
  {
    if text != "" && NameChar(text[0]) then 1 + NameLength(text[1..]) else 0
  }

  datatype Cut = Cut(raw: string, rest: string)

  /** Up to the first closing, which is where a lazy group stops. */
  function FirstTail(kind: Kind, text: string): Option<Cut> {
    if Tail(kind, text).Some? then Some(Cut("", Tail(kind, text).value))
    else if text == "" then None
    else match FirstTail(kind, text[1..])
      case None => None
      case Some(cut) => Some(Cut([text[0]] + cut.raw, cut.rest))
  }

  datatype Match = Match(name: string, body: string, rest: string)

  /** The match at the beginning of the text, if there is one. */
  function MatchHere(kind: Kind, text: string): Option<Match> {
    match Head(kind, text)
    case None => None
    case Some(named) =>
      var n := NameLength(named);
      if n == 0 || n == |named| || named[n] != '>' then None
      else match FirstTail(kind, named[n + 1..])
        case None => None
        case Some(cut) => Some(Match(named[..n], Strip(cut.raw), cut.rest))
  }

  // ---- the regular expression as a relation ---------------------------------------------

  /** One way to read a text as: opening, name, '>', w2, body, w3, closing, rest. */
  datatype Parts = Parts(w1: string, name: string, w2: string, body: string, w3: string, w4: string, rest: string)

  function Opening(kind: Kind, w: string): string {
    match kind
    case CallTag => OpenTool() + w + OpenFunction()
    case ParameterTag => OpenParameter()
  }

  function Closing(kind: Kind, w: string): string {
    match kind
    case CallTag => CloseFunction() + w + CloseTool()
    case ParameterTag => CloseParameter()
  }

  function Enclosed(kind: Kind, q: Parts): string {
    q.w2 + q.body + q.w3 + (Closing(kind, q.w4) + q.rest)
  }

  predicate Reads(kind: Kind, text: string, q: Parts) {
    && AllSpace(q.w1) && AllSpace(q.w2) && AllSpace(q.w3) && AllSpace(q.w4)
    && (kind.ParameterTag? ==> q.w1 == "" && q.w4 == "")
    && q.name != "" && (forall i | 0 <= i < |q.name| :: NameChar(q.name[i]))
    && text == Opening(kind, q.w1) + (q.name + ">" + Enclosed(kind, q))
  }

  /** The order in which a backtracking engine tries the readings that share an opening: the longest
      white space before the body first, then the shortest body. */
  predicate Preferred(q: Parts, other: Parts) {
    && q.w1 == other.w1 && q.name == other.name && |q.w2| >= |other.w2|
    && (q.w2 == other.w2 ==> |q.body| <= |other.body|)
    && (q.w2 == other.w2 && q.body == other.body ==> q == other)
  }

  lemma Dropped(a: string, b: string)
    ensures a <= a + b && (a + b)[|a|..] == b
  {
  }

  /** Reading an opening: the matcher is at the name. */
  lemma OpeningHead(kind: Kind, w: string, t: string)
    requires AllSpace(w) && (kind.ParameterTag? ==> w == "")
    ensures Head(kind, Opening(kind, w) + t) == Some(t)
  {
    hide OpenTool, OpenFunction, OpenParameter, IsSpace;
    match kind
    case ParameterTag => Dropped(OpenParameter(), t);
    case CallTag =>
      var text := Opening(kind, w) + t;
      assert text == OpenTool() + (w + (OpenFunction() + t));
      Dropped(OpenTool(), w + (OpenFunction() + t));
      StripLeftSkips(w, OpenFunction() + t);
      assert Trim(OpenFunction() + t) by { TagShapes(); TagTrim(OpenFunction(), t); }
      StripLeftTrim(OpenFunction() + t);
      Dropped(OpenFunction(), t);
  }

  lemma TagTrim(tag: string, t: string)
    requires TagShape(tag)
    ensures Trim(tag + t) && !AllSpace(tag)
  {
    assert (tag + t)[0] == '<' && !IsSpace('<');
  }

  lemma NoSpace()
    ensures AllSpace("")
  {
  }

  /** A head is the rest after an opening. */
  lemma HeadOpening(kind: Kind, text: string) returns (w: string)
    requires Head(kind, text).Some?
    ensures AllSpace(w) && (kind.ParameterTag? ==> w == "")
    ensures text == Opening(kind, w) + Head(kind, text).value
  {
    hide OpenTool, OpenFunction, OpenParameter, StripLeft, AllSpace, Trim;
    w := "";
    assert AllSpace("") by { NoSpace(); }
    match kind
    case ParameterTag =>
    case CallTag =>
      var after := text[|OpenTool()|..];
      StripLeftSplits(after);
      w := after[..|after| - |StripLeft(after)|];
      assert text == OpenTool() + after;
      assert StripLeft(after) == OpenFunction() + Head(kind, text).value;
      assert text == OpenTool() + (w + (OpenFunction() + Head(kind, text).value));
  }

  lemma ClosingTail(kind: Kind, w: string, t: string)
    requires AllSpace(w) && (kind.ParameterTag? ==> w == "")
    ensures Tail(kind, Closing(kind, w) + t) == Some(t)
  {
    hide CloseTool, CloseFunction, CloseParameter, IsSpace;
    match kind
    case ParameterTag => Dropped(CloseParameter(), t);
    case CallTag =>
      var text := Closing(kind, w) + t;
      assert text == CloseFunction() + (w + (CloseTool() + t));
      Dropped(CloseFunction(), w + (CloseTool() + t));
      StripLeftSkips(w, CloseTool() + t);
      assert Trim(CloseTool() + t) by { TagShapes(); TagTrim(CloseTool(), t); }
      StripLeftTrim(CloseTool() + t);
      Dropped(CloseTool(), t);
  }

  lemma TailClosing(kind: Kind, text: string) returns (w: string)
    requires Tail(kind, text).Some?
    ensures AllSpace(w) && (kind.ParameterTag? ==> w == "")
    ensures text == Closing(kind, w) + Tail(kind, text).value
  {
    hide CloseTool, CloseFunction, CloseParameter, StripLeft, AllSpace, Trim;
    w := "";
    assert AllSpace("") by { NoSpace(); }
    match kind
    case ParameterTag =>
    case CallTag =>
      var after := text[|CloseFunction()|..];
      StripLeftSplits(after);
      w := after[..|after| - |StripLeft(after)|];
      assert text == CloseFunction() + after;
      assert StripLeft(after) == CloseTool() + Tail(kind, text).value;
      assert text == CloseFunction() + (w + (CloseTool() + Tail(kind, text).value));
  }

  /** A closing begins with '<'. */
  lemma TailBegins(kind: Kind, text: string)
    requires Tail(kind, text).Some?
    ensures text != "" && text[0] == '<' && !IsSpace(text[0])
  {
    assert CloseFunction()[0] == '<' && CloseParameter()[0] == '<';
  }

  /** The matcher takes the whole name. */
  lemma {:induction false} NameTaken(name: string, t: string)
    requires forall i | 0 <= i < |name| :: NameChar(name[i])
    ensures NameLength(name + ">" + t) == |name|
  {
    if name != "" {
      assert (name + ">" + t)[1..] == name[1..] + ">" + t;
      NameTaken(name[1..], t);
    } else {
      assert (name + ">" + t)[0] == '>';
    }
  }

  lemma {:induction false} NameChars(text: string)
    ensures forall i | 0 <= i < NameLength(text) :: NameChar(text[i])
  {
    if text != "" && NameChar(text[0]) {
      NameChars(text[1..]);
      forall i | 0 <= i < NameLength(text)
        ensures NameChar(text[i])
      {
        if i > 0 { assert text[i] == text[1..][i - 1]; }
      }
    }
  }

  /** What `FirstTail` cuts off, and that nothing closes before it. */
  lemma {:induction false} FirstTailCuts(kind: Kind, text: string)
    requires FirstTail(kind, text).Some?
    ensures var cut := FirstTail(kind, text).value;
      && |cut.raw| <= |text| && text[..|cut.raw|] == cut.raw
      && Tail(kind, text[|cut.raw|..]) == Some(cut.rest)
      && forall k | 0 <= k < |cut.raw| :: Tail(kind, text[k..]).None?
  {
    hide Tail;
    if Tail(kind, text).None? {
      var inner := FirstTail(kind, text[1..]).value;
      FirstTailCuts(kind, text[1..]);
      assert text[1..][|inner.raw|..] == text[|inner.raw| + 1..];
      forall k | 0 <= k < |inner.raw| + 1
        ensures Tail(kind, text[k..]).None?
      {
        if k > 0 { assert text[1..][k - 1..] == text[k..]; } else { assert text[0..] == text; }
      }
    } else {
      assert text[0..] == text;
    }
  }

  /** A closing somewhere is found there or earlier. */
  lemma {:induction false} FirstTailFinds(kind: Kind, text: string, k: nat)
    requires k <= |text| && Tail(kind, text[k..]).Some?
    ensures FirstTail(kind, text).Some? && |FirstTail(kind, text).value.raw| <= k
  {
    hide Tail;
    assert text[0..] == text;
    if Tail(kind, text).None? {
      assert text[1..][k - 1..] == text[k..];
      FirstTailFinds(kind, text[1..], k - 1);
    }
  }

  /** A reading passes through the matcher's stages. */
  lemma ReadingStages(kind: Kind, text: string, q: Parts)
    requires Reads(kind, text, q)
    ensures Head(kind, text) == Some(q.name + ">" + Enclosed(kind, q))
    ensures NameLength(q.name + ">" + Enclosed(kind, q)) == |q.name|
    ensures (q.name + ">" + Enclosed(kind, q))[|q.name| + 1..] == Enclosed(kind, q)
    ensures var u := Enclosed(kind, q); var k := |q.w2 + q.body + q.w3|;
      k <= |u| && u[k..] == Closing(kind, q.w4) + q.rest && Tail(kind, u[k..]) == Some(q.rest)
  {
    hide Head, Tail, NameLength, Opening, Closing, IsSpace;
    OpeningHead(kind, q.w1, q.name + ">" + Enclosed(kind, q));
    NameTaken(q.name, Enclosed(kind, q));
    ClosingTail(kind, q.w4, q.rest);
    Dropped(q.w2 + q.body + q.w3, Closing(kind, q.w4) + q.rest);
  }

  /** The matcher misses nothing: a text with any reading at all is matched. */
  lemma ReadingIsMatched(kind: Kind, text: string, q: Parts)
    requires Reads(kind, text, q)
    ensures MatchHere(kind, text).Some? && MatchHere(kind, text).value.name == q.name
    ensures FirstTail(kind, Enclosed(kind, q)).Some?
    ensures var cut := FirstTail(kind, Enclosed(kind, q)).value;
      MatchHere(kind, text).value == Match(q.name, Strip(cut.raw), cut.rest) && |cut.raw| <= |q.w2 + q.body + q.w3|
  {
    hide Head, Tail, NameLength, Opening, Closing, FirstTail, Enclosed, Strip;
    ReadingStages(kind, text, q);
    FirstTailFinds(kind, Enclosed(kind, q), |q.w2 + q.body + q.w3|);
    var named := q.name + ">" + Enclosed(kind, q);
    assert named[..|q.name|] == q.name;
  }

  /** The reading the matcher takes. */
  lemma MatchReads(kind: Kind, text: string) returns (q: Parts)
    requires MatchHere(kind, text).Some?
    ensures var m := MatchHere(kind, text).value;
      Reads(kind, text, q) && q.name == m.name && q.body == m.body && q.rest == m.rest
    ensures var cut := FirstTail(kind, Enclosed(kind, q));
      cut.Some? && cut.value.raw == q.w2 + q.body + q.w3 && q.body == Strip(cut.value.raw)
      && |q.w2| == |cut.value.raw| - |StripLeft(cut.value.raw)|
  {
    hide Head, Tail, NameLength, FirstTail, Opening, Closing, AllSpace, Trim, TrimEnd, StripLeft, StripRight, NameChar;
    var w1 := HeadOpening(kind, text);
    var named := Head(kind, text).value;
    var n := NameLength(named);
    NameChars(named);
    var u := named[n + 1..];
    assert named == named[..n] + ">" + u;
    FirstTailCuts(kind, u);
    var cut := FirstTail(kind, u).value;
    var w4 := TailClosing(kind, u[|cut.raw|..]);
    StripLeftSplits(cut.raw);
    var w2 := cut.raw[..|cut.raw| - |StripLeft(cut.raw)|];
    StripRightSplits(StripLeft(cut.raw));
    var w3 := StripLeft(cut.raw)[|Strip(cut.raw)|..];
    q := Parts(w1, named[..n], w2, Strip(cut.raw), w3, w4, cut.rest);
    assert cut.raw == w2 + Strip(cut.raw) + w3;
    assert u == Enclosed(kind, q);
  }

  lemma SpaceInside(u: string, i: nat, j: nat, k: nat)
    requires i <= j <= |u| && i <= k < |u| && AllSpace(u[i..j])
    ensures k < j ==> IsSpace(u[k])
  {
    if k < j {
      assert u[k] == u[i..j][k - i];
    }
  }

  /** White space at the front of a prefix of the text. */
  lemma LeadingSpace(raw: string, w: string, u: string)
    requires raw <= u && w <= u && AllSpace(w) && |raw| < |u| && !IsSpace(u[|raw|])
    ensures |w| <= |raw| - |StripLeft(raw)|
  {
    hide IsSpace;
    SpaceInside(u, 0, |w|, |raw|);
    assert raw == w + raw[|w|..];
    StripLeftSkips(w, raw[|w|..]);
    StripLeftSplits(raw[|w|..]);
  }

  /** The matcher takes the reading that a backtracking engine prefers. */
  lemma MatcherIsRegex(kind: Kind, text: string)
    ensures MatchHere(kind, text).None? ==> forall q :: !Reads(kind, text, q)
    ensures MatchHere(kind, text).Some? ==>
      exists q :: Reads(kind, text, q) && MatchHere(kind, text).value == Match(q.name, q.body, q.rest)
                  && forall other | Reads(kind, text, other) :: Preferred(q, other)
  {
    hide MatchHere, Reads, Preferred;
    if MatchHere(kind, text).None? {
      forall q
        ensures !Reads(kind, text, q)
      {
        if Reads(kind, text, q) { ReadingIsMatched(kind, text, q); }
      }
    } else {
      var q := MatchReads(kind, text);
      forall other | Reads(kind, text, other)
        ensures Preferred(q, other)
      {
        PreferredReading(kind, text, q, other);
      }
    }
  }

  /** The two readings enclose the same text. */
  lemma SameEnclosed(kind: Kind, text: string, q: Parts, other: Parts)
    requires Reads(kind, text, q) && Reads(kind, text, other)
    ensures q.name == other.name && Enclosed(kind, q) == Enclosed(kind, other) && q.w1 == other.w1
  {
    hide Head, Tail, NameLength, Closing, Enclosed, IsSpace, OpenTool, OpenFunction, OpenParameter;
    ReadingStages(kind, text, q);
    ReadingStages(kind, text, other);
    var named := q.name + ">" + Enclosed(kind, q);
    assert named == other.name + ">" + Enclosed(kind, other);
    assert q.name == named[..|q.name|] && other.name == named[..|other.name|];
    if kind.CallTag? {
      assert |Opening(kind, q.w1)| == |text| - |named| && |Opening(kind, other.w1)| == |text| - |named|;
      assert q.w1 == text[|OpenTool()|..|OpenTool()| + |q.w1|];
      assert other.w1 == text[|OpenTool()|..|OpenTool()| + |q.w1|];
    }
  }

  lemma PreferredReading(kind: Kind, text: string, q: Parts, other: Parts)
    requires Reads(kind, text, q) && Reads(kind, text, other)
    requires var cut := FirstTail(kind, Enclosed(kind, q));
      cut.Some? && cut.value.raw == q.w2 + q.body + q.w3 && q.body == Strip(cut.value.raw)
      && |q.w2| == |cut.value.raw| - |StripLeft(cut.value.raw)|
    ensures Preferred(q, other)
  {
    hide Head, Tail, NameLength, FirstTail, Opening, IsSpace, StripLeft, StripRight, NameChar, Closing;
    var u := Enclosed(kind, q);
    var raw := q.w2 + q.body + q.w3;
    var k := |other.w2 + other.body + other.w3|;
    SameEnclosed(kind, text, q, other);
    ReadingStages(kind, text, q);
    ReadingStages(kind, text, other);
    FirstTailCuts(kind, u);
    FirstTailFinds(kind, u, k);
    TailBegins(kind, u[|raw|..]);
    assert u[|raw|] == u[|raw|..][0];
    assert other.w2 <= u;
    LeadingSpace(raw, other.w2, u);
    if q.w2 == other.w2 {
      BodyShortest(q, other, u, raw, k);
      if q.body == other.body {
        SameAfterBody(kind, q, other, u, raw, k);
      }
    }
  }

  /** A shorter body would have to end inside the trimmed one. */
  lemma BodyShortest(q: Parts, other: Parts, u: string, raw: string, k: nat)
    requires raw == q.w2 + q.body + q.w3 && raw <= u && |raw| <= k <= |u|
    requires k == |other.w2 + other.body + other.w3| && u[..k] == other.w2 + other.body + other.w3
    requires AllSpace(other.w3) && q.w2 == other.w2 && q.body == Strip(raw)
    ensures |q.body| <= |other.body|
  {
    hide IsSpace, StripLeft, StripRight;
    if q.body != "" {
      var j := |q.w2| + |q.body| - 1;
      assert u[j] == raw[j] && raw[j] == q.body[|q.body| - 1];
      assert u[j] == u[..k][j];
      assert |other.w2 + other.body| <= j ==> IsSpace(u[j]);
      StripRightSplits(StripLeft(raw));
    }
  }

  lemma SameAfterBody(kind: Kind, q: Parts, other: Parts, u: string, raw: string, k: nat)
    requires raw == q.w2 + q.body + q.w3 && |raw| <= k <= |u| && u == Enclosed(kind, q) && u == Enclosed(kind, other)
    requires k == |other.w2 + other.body + other.w3| && q.w2 == other.w2 && q.body == other.body
    requires q.w1 == other.w1 && q.name == other.name && AllSpace(other.w3) && AllSpace(q.w3)
    requires Tail(kind, u[|raw|..]) == Some(q.rest) && Tail(kind, u[k..]) == Some(other.rest)
    requires u[k..] == Closing(kind, other.w4) + other.rest && u[|raw|..] == Closing(kind, q.w4) + q.rest
    requires kind.ParameterTag? ==> q.w4 == "" && other.w4 == ""
    ensures q == other
  {
    hide IsSpace, Tail, CloseFunction, CloseTool, CloseParameter;
    TailBegins(kind, u[|raw|..]);
    assert other.w3 == u[|q.w2 + q.body|..k];
    SpaceInside(u, |q.w2 + q.body|, k, |raw|);
    assert q.w3 == u[|q.w2 + q.body|..k] && other.w3 == u[|q.w2 + q.body|..k];
    if kind.CallTag? {
      var t := u[k..];
      assert |q.w4| == |t| - |q.rest| - |CloseFunction()| - |CloseTool()|;
      assert q.w4 == t[|CloseFunction()|..|CloseFunction()| + |q.w4|];
      assert other.w4 == t[|CloseFunction()|..|CloseFunction()| + |q.w4|];
    }
  }
}
