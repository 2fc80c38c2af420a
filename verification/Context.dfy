/** The `ContextAssembler` class: the required messages, a greedy choice of memory lines, and the
    final trim, under one character budget. */
module ContextBudget {
  import opened Basics

  datatype Turn = Turn(role: string, content: string)

  /** A row of `search_memories`, in search order. */
  datatype Memory = Memory(kind: string, content: string)

  function Join(lines: seq<string>): string {
    if lines == [] then ""
    else if |lines| == 1 then lines[0]
    else lines[0] + "\n" + Join(lines[1..])
  }

  function Contents(messages: seq<Turn>): seq<string> {
    seq(|messages|, i requires 0 <= i < |messages| => messages[i].content)
  }

  /** The sum of the contents and of one separator between neighbours. */
  function Total(messages: seq<Turn>): int {
    if messages == [] then 0
    else if |messages| == 1 then |messages[0].content|
    else Total(messages[..|messages| - 1]) + 1 + |messages[|messages| - 1].content|
  }

  lemma {:induction false} JoinAppend(lines: seq<string>, last: string)
    ensures lines == [] ==> Join(lines + [last]) == last
    ensures lines != [] ==> Join(lines + [last]) == Join(lines) + "\n" + last
  {
    if |lines| > 1 {
      assert (lines + [last])[1..] == lines[1..] + [last];
      JoinAppend(lines[1..], last);
      assert lines[0] + "\n" + (Join(lines[1..]) + "\n" + last) == (lines[0] + "\n" + Join(lines[1..])) + "\n" + last;
    } else if |lines| == 1 {
      assert (lines + [last])[1..] == [last];
    }
  }

  /** The budgeted total is the length of the newline-joined text. */
  lemma {:induction false} TotalIsJoined(messages: seq<Turn>)
    ensures Total(messages) == |Join(Contents(messages))|
  {
    if |messages| > 1 {
      var front, last := messages[..|messages| - 1], messages[|messages| - 1];
      TotalIsJoined(front);
      assert Contents(messages) == Contents(front) + [last.content];
      JoinAppend(Contents(front), last.content);
    }
  }

  // ---- the memory message ---------------------------------------------------------------

  function Header(): string {
    "Relevant durable memory:\n"
  }

  function Line(m: Memory): string {
    "[" + m.kind + "] " + Strip(m.content)
  }

  function Lines(memories: seq<Memory>): seq<string> {
    seq(|memories|, i requires 0 <= i < |memories| => Line(memories[i]))
  }

  function Render(selected: seq<string>): string {
    Header() + Join(selected)
  }

  /** The subsequence of the lines that are kept. */
  function Kept(lines: seq<string>, keep: seq<bool>): seq<string>
    requires |lines| == |keep|
  {
    if lines == [] then []
    else
      var n := |lines| - 1;
      Kept(lines[..n], keep[..n]) + if keep[n] then [lines[n]] else []
  }

  /** Greedy in search order: a line is kept exactly when the message with it still fits the room. */
  ghost predicate Greedy(lines: seq<string>, keep: seq<bool>, room: int) {
    && |keep| == |lines|
    && forall i | 0 <= i < |lines| ::
         keep[i] <==> |Render(Kept(lines[..i], keep[..i]) + [lines[i]])| <= room
  }

  /** There is only one greedy choice. */
  lemma {:induction false} GreedyUnique(lines: seq<string>, a: seq<bool>, b: seq<bool>, room: int)
    requires Greedy(lines, a, room) && Greedy(lines, b, room)
    ensures a == b
  {
    hide Render, Kept;
    if lines != [] {
      var n := |lines| - 1;
      GreedyFront(lines, a, room);
      GreedyFront(lines, b, room);
      GreedyUnique(lines[..n], a[..n], b[..n], room);
      assert a == a[..n] + [a[n]] && b == b[..n] + [b[n]];
    }
  }

  lemma GreedyFront(lines: seq<string>, keep: seq<bool>, room: int)
    requires Greedy(lines, keep, room) && lines != []
    ensures Greedy(lines[..|lines| - 1], keep[..|lines| - 1], room)
  {
    hide Render, Kept;
    var n := |lines| - 1;
    forall i | 0 <= i < n
      ensures keep[..n][i] <==> |Render(Kept(lines[..n][..i], keep[..n][..i]) + [lines[..n][i]])| <= room
    {
      assert lines[..n][..i] == lines[..i] && keep[..n][..i] == keep[..i];
    }
  }

  lemma GreedyMore(lines: seq<string>, keep: seq<bool>, room: int, line: string, take: bool)
    requires Greedy(lines, keep, room)
    requires take <==> |Render(Kept(lines, keep) + [line])| <= room
    ensures Greedy(lines + [line], keep + [take], room)
    ensures Kept(lines + [line], keep + [take]) == Kept(lines, keep) + if take then [line] else []
  {
    hide Render;
    var lines', keep' := lines + [line], keep + [take];
    forall i | 0 <= i < |lines'|
      ensures keep'[i] <==> |Render(Kept(lines'[..i], keep'[..i]) + [lines'[i]])| <= room
    {
      if i < |lines| {
        assert lines'[..i] == lines[..i] && keep'[..i] == keep[..i];
      } else {
        assert lines'[..i] == lines && keep'[..i] == keep;
      }
    }
    assert lines'[..|lines|] == lines && keep'[..|lines|] == keep;
  }

  /** What a further line costs. */
  lemma RenderCost(selected: seq<string>, line: string)
    ensures |Render(selected + [line])|
            == if selected == [] then |Header()| + |line| else |Render(selected)| + |line| + 1
  {
    JoinAppend(selected, line);
  }

  // ---- the result -----------------------------------------------------------------------

  function Required(systemPrompt: string, task: string): seq<Turn> {
    [Turn("system", Strip(systemPrompt)), Turn("user", Strip(task))]
  }

  function WithMemory(required: seq<Turn>, selected: seq<string>): seq<Turn> {
    if selected == [] then required else required + [Turn("system", Render(selected))]
  }

  class ContextAssembler {
    const maxChars: int

    constructor (maxChars: int)
      ensures this.maxChars == maxChars
    {
      this.maxChars := maxChars;
    }

    /** How many characters of the task the system prompt leaves. */
    function Allowance(system: string): nat {
      Max(0, maxChars - |system| - 1)
    }

    /** `_trim_required`: drops messages from the end while there are more than two, then cuts the task. */
    method TrimRequired(messages: seq<Turn>) returns (trimmed: seq<Turn>)
      requires |messages| >= 2
      ensures Total(messages) <= maxChars ==> trimmed == messages
      ensures 2 <= |trimmed| <= |messages| && trimmed[0] == messages[0] && trimmed[2..] == messages[2..|trimmed|]
      ensures |trimmed| < |messages| ==> Total(messages[..|trimmed| + 1]) > maxChars
      ensures trimmed[1] == messages[1]
              || (|trimmed| == 2 && Total(messages[..2]) > maxChars
                  && trimmed[1].role == messages[1].role
                  && trimmed[1].content == messages[1].content[..Min(|messages[1].content|, Allowance(messages[0].content))])
      ensures Total(trimmed) <= Max(maxChars, |messages[0].content| + 1)
    {
      var total := Total(messages);
      if total <= maxChars {
        return messages;
      }
      trimmed := messages;
      while |trimmed| > 2 && total > maxChars
        invariant 2 <= |trimmed| <= |messages| && trimmed == messages[..|trimmed|] && total == Total(trimmed)
        invariant |trimmed| < |messages| ==> Total(messages[..|trimmed| + 1]) > maxChars
        decreases |trimmed|
      {
        var dropped := trimmed[|trimmed| - 1];
        assert messages[..|trimmed|] == trimmed;
        trimmed := trimmed[..|trimmed| - 1];
        total := total - (|dropped.content| + 1);
      }
      if total > maxChars {
        var allowance := Allowance(trimmed[0].content);
        var content := trimmed[1].content;
        assert trimmed == messages[..2];
        trimmed := [trimmed[0], trimmed[1].(content := content[..Min(|content|, allowance)])];
        PairTotal(trimmed);
      }
    }

    /** `build`. The joined result is at most max(max_chars, len(system) + 1) characters; the system
        prompt is whole; the task is whole, or a prefix cut only when the two required messages
        overflow; the memory lines are the greedy choice, and the trim never takes them away. With no
        room left nothing is selected, which is the source's early return. */
    method Build(systemPrompt: string, task: string, memories: seq<Memory>) returns (messages: seq<Turn>, ghost keep: seq<bool>)
      ensures |Join(Contents(messages))| <= Max(maxChars, |Strip(systemPrompt)| + 1)
      ensures var required := Required(systemPrompt, task);
        var lines := Lines(memories);
        && Greedy(lines, keep, Max(0, maxChars - Total(required) - 1))
        && if Total(required) <= maxChars then messages == WithMemory(required, Kept(lines, keep))
           else messages == [required[0], required[1].(content :=
                               required[1].content[..Min(|required[1].content|, Allowance(required[0].content))])]
    {
      hide Strip, Header, Join, Render, Line, Kept, Contents;
      messages := Required(systemPrompt, task);
      ghost var required := messages;
      PairTotal(required);
      var used := |messages[0].content| + |messages[1].content| + 1;
      var remaining := Max(0, maxChars - used - 1);
      ghost var room := remaining;
      var lines := Lines(memories);
      var selected: seq<string> := [];
      keep := [];
      assert Greedy([], [], room);
      assert Kept([], []) == [] by { NothingKept(); }
      assert lines[..0] == [];
      for i := 0 to |lines|
        invariant Greedy(lines[..i], keep, room) && selected == Kept(lines[..i], keep)
        invariant remaining == room - (if selected == [] then 0 else |Render(selected)|) && remaining >= 0
      {
        var line := lines[i];
        var cost := (if selected == [] then |Header()| else 0) + |line| + (if selected == [] then 0 else 1);
        RenderCost(selected, line);
        GreedyMore(lines[..i], keep, room, line, cost <= remaining);
        assert lines[..i + 1] == lines[..i] + [line];
        keep := keep + [cost <= remaining];
        if cost <= remaining {
          selected := selected + [line];
          remaining := remaining - cost;
        }
      }
      assert lines[..|lines|] == lines;
      if selected != [] {
        messages := messages + [Turn("system", Render(selected))];
        RenderRoom(selected);
        assert messages[..2] == required;
      }
      assert messages == WithMemory(required, selected);
      assert Total(required) <= maxChars ==> Total(messages) <= maxChars;
      ghost var before := messages;
      messages := TrimRequired(messages);
      TotalIsJoined(messages);
      if Total(required) > maxChars {
        assert before == required;
        assert messages == [messages[0], messages[1]];
      }
    }
  }

  lemma PairTotal(messages: seq<Turn>)
    requires |messages| == 2
    ensures Total(messages) == |messages[0].content| + 1 + |messages[1].content|
  {
    assert messages[..1] == [messages[0]];
  }

  lemma NothingKept()
    ensures Kept([], []) == []
  {
  }

  lemma RenderRoom(selected: seq<string>)
    ensures |Render(selected)| >= 1
  {
  }
}
