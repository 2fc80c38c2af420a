/** How a model decision is stored, and read back on a retry. */
module StoredDecisions {
  import opened Basics
  import opened JsonValues
  import opened Tables

  /** `_decision_from_response` */
  function DecisionFromResponse(d: Decision): Json {
    match d
    case ToolCall(call) =>
      Obj(map["kind" := Str("tool_call"), "request_id" := Str(call.request), "name" := Str(call.tool),
              "arguments" := call.arguments])
    case FinalText(text) => Obj(map["kind" := Str("final_text"), "final_text" := Str(text)])
  }

  predicate Text(fields: map<string, Json>, key: string) {
    key in fields && fields[key].Str?
  }

  /** `get_run_step_decision` and `_response_from_decision`; `None` is their RuntimeError. Identifiers
      that are not text do not occur in stored decisions and are treated as unreadable. */
  function ResponseFromDecision(stored: Json): Option<Decision> {
    if !stored.Obj? || !Text(stored.fields, "kind") then None
    else
      var fields := stored.fields;
      match fields["kind"].s
      case "tool_call" =>
        if "arguments" in fields && fields["arguments"].Obj? && Text(fields, "request_id") && Text(fields, "name")
        then Some(ToolCall(Call(fields["request_id"].s, fields["name"].s, fields["arguments"])))
        else None
      case "final_text" =>
        if Text(fields, "final_text") then Some(FinalText(fields["final_text"].s)) else None
      case _ => None
  }

  /** A stored decision a retry can act on. */
  predicate Readable(d: Decision) {
    d.ToolCall? ==> d.call.arguments.Obj?
  }

  /** A retry reads back the decision that was stored, exactly when its arguments are an object. */
  lemma DecisionReadBack(d: Decision)
    ensures ResponseFromDecision(DecisionFromResponse(d)) == if Readable(d) then Some(d) else None
  {
  }

  /** Comparing the stored text compares the decisions. */
  lemma StoredOnce(a: Decision, b: Decision)
    requires DecisionFromResponse(a) == DecisionFromResponse(b)
    ensures a == b
  {
    var x, y := DecisionFromResponse(a).fields, DecisionFromResponse(b).fields;
    assert x["kind"] == y["kind"];
    if a.ToolCall? {
      assert x["request_id"] == y["request_id"] && x["name"] == y["name"] && x["arguments"] == y["arguments"];
    } else {
      assert x["final_text"] == y["final_text"];
    }
  }
}
