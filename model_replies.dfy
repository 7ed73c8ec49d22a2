/**
 * How BedrockAgent reads what its language model and its agents send back:
 * markdown-fence stripping, plan extraction, the needs-input / tool-failed
 * verdict with its substring fallback, and the readable message of a result.
 * The model call itself is an input: its reply body, or None when the call
 * throws; Jackson's parser is the function `parse`.
 */
module ModelReplies {
  import opened Wrappers
  import Text
  import opened Json

  const Fence := "```"
  const JsonFence := "```json"

  /** replaceAll("(?s)```json|```", ""): scan left to right, removing either fence. */
  function RemoveFences(s: string): string
    decreases |s|
  {
    if Text.StartsWith(s, JsonFence) then RemoveFences(s[|JsonFence|..])
    else if Text.StartsWith(s, Fence) then RemoveFences(s[|Fence|..])
    else if |s| == 0 then ""
    else [s[0]] + RemoveFences(s[1..])
  }

  /** Trim the body; when it opens with a fence, drop every fence and trim again. */
  function StripFences(body: string): (r: string)
    ensures Text.Trim(r) == r
  {
    var cleaned := Text.Trim(body);
    Text.TrimIdempotent(body);
    if Text.StartsWith(cleaned, Fence) then
      Text.TrimIdempotent(RemoveFences(cleaned));
      Text.Trim(RemoveFences(cleaned))
    else cleaned
  }

  predicate NoBacktick(s: string) {
    forall i :: 0 <= i < |s| ==> s[i] != '`'
  }

  /** A string not opening with a backtick keeps its first character. */
  lemma RemoveFencesStep(s: string)
    requires |s| > 0 && s[0] != '`'
    ensures RemoveFences(s) == [s[0]] + RemoveFences(s[1..])
  {
    assert JsonFence[0] == '`' && Fence[0] == '`';
    if |s| >= |Fence| {
      assert s[..|Fence|][0] == s[0];
    }
    if |s| >= |JsonFence| {
      assert s[..|JsonFence|][0] == s[0];
    }
  }

  lemma {:induction false} RemoveFencesAppend(x: string, y: string)
    requires NoBacktick(x)
    ensures RemoveFences(x + y) == x + RemoveFences(y)
    decreases |x|
  {
    if |x| > 0 {
      var xy := x + y;
      assert xy[0] == x[0];
      assert xy[1..] == x[1..] + y;
      RemoveFencesStep(xy);
      RemoveFencesAppend(x[1..], y);
      assert x == [x[0]] + x[1..];
    } else {
      assert x + y == y;
    }
  }

  /** A fenced JSON reply unwraps to its trimmed body. */
  lemma FencedReplyUnwraps(x: string)
    requires NoBacktick(x)
    ensures StripFences(JsonFence + x + Fence) == Text.Trim(x)
  {
    var whole := JsonFence + x + Fence;
    Text.TrimNoOp(whole);
    assert Text.StartsWith(whole, Fence);
    assert whole[|JsonFence|..] == x + Fence;
    RemoveFencesAppend(x, Fence);
    assert Fence[|Fence|..] == "";
    assert RemoveFences(whole) == x;
  }

  /** An unfenced reply is only trimmed. */
  lemma UnfencedReplyTrimmed(body: string)
    requires NoBacktick(body)
    ensures StripFences(body) == Text.Trim(body)
  {
    var c := Text.Trim(body);
    Text.TrimShape(body);
    var k :| Text.OccursAt(body, c, k);
    if |c| > 0 {
      assert c[0] == body[k];
    }
  }

  /** One plan entry: the `agent` and `action` strings, or an entry the casts reject. */
  datatype Step = Step(agent: Option<string>, action: Option<string>) | Malformed

  type Plan = seq<Step>

  /** `(Map) plan.get(i)`, then `(String) step.get("agent")` and `(String) step.get("action")`. */
  function StepOf(v: Value): Step {
    match v
    case Obj(m) =>
      var agent := AsString(Get(m, "agent"));
      var action := AsString(Get(m, "action"));
      if agent.CastFails? || action.CastFails? then Malformed
      else Step(CastValue(agent), CastValue(action))
    case _ => Malformed
  }

  /**
   * askModelForPlan: the `plan` list of the parsed reply; an empty plan when
   * the call throws, the reply does not parse to an object, or `plan` is not
   * a list.
   */
  function PlanFromReply(reply: Option<string>, parse: string -> Option<Value>): (plan: Plan)
    ensures reply.None? ==> plan == []
    ensures reply.Some? ==>
              match parse(StripFences(reply.value))
              case Some(Obj(m)) =>
                if Get(m, "plan").Arr? then
                  |plan| == |Get(m, "plan").items| &&
                  forall i :: 0 <= i < |plan| ==> plan[i] == StepOf(Get(m, "plan").items[i])
                else plan == []
              case _ => plan == []
  {
    if reply.None? then []
    else match parse(StripFences(reply.value))
      case Some(Obj(m)) =>
        (match Get(m, "plan")
         case Arr(items) => seq(|items|, i requires 0 <= i < |items| => StepOf(items[i]))
         case _ => [])
      case _ => []
  }

  /** The substring fallback for "the agent needs input". */
  predicate AsksForInput(text: string) {
    var t := Text.Lower(text);
    Text.Contains(t, "please provide") || Text.Contains(t, "missing") || Text.Contains(t, "need")
  }

  /** The substring fallback for "the agent's tool failed". */
  predicate ReportsFailure(text: string) {
    var t := Text.Lower(text);
    Text.Contains(t, "failed") || Text.Contains(t, "error") || Text.Contains(t, "exception")
  }

  /** The fallback ignores case. */
  lemma HeuristicIgnoresCase(text: string)
    ensures AsksForInput(Text.Lower(text)) == AsksForInput(text)
    ensures ReportsFailure(Text.Lower(text)) == ReportsFailure(text)
  {
    Text.LowerIdempotent(text);
  }

  /** A flagged text stays flagged whatever is written around it. */
  lemma HeuristicSurvivesContext(a: string, text: string, b: string)
    ensures AsksForInput(text) ==> AsksForInput(a + text + b)
    ensures ReportsFailure(text) ==> ReportsFailure(a + text + b)
  {
    Text.LowerAppend(a, text);
    Text.LowerAppend(a + text, b);
    var l := Text.Lower(text);
    assert Text.Lower(a + text + b) == Text.Lower(a) + l + Text.Lower(b);
    forall w | Text.Contains(l, w)
      ensures Text.Contains(Text.Lower(a + text + b), w)
    {
      Text.ContainsWithin(Text.Lower(a), l, Text.Lower(b), w);
    }
  }

  const DecisionOptions: seq<string> := ["provide_input", "skip", "abort", "retry"]

  /** What askModelForReason returns, as handleAgentResult reads it. */
  datatype Verdict = Verdict(needsUserInput: bool, toolFailed: bool, reason: string, options: seq<string>)

  /** The fallback when the reasoning call fails altogether. */
  function HeuristicVerdict(message: string): (v: Verdict)
    ensures v.needsUserInput == AsksForInput(message) && v.toolFailed == ReportsFailure(message)
    ensures v.options == DecisionOptions
  {
    var needs := AsksForInput(message);
    var failed := ReportsFailure(message);
    Verdict(needs, failed,
            if needs then "User input required" else if failed then "Agent process failed" else "Normal agent message",
            DecisionOptions)
  }

  /**
   * askModelForReason: a field the model gave wins (only a literal `true`
   * counts as true); a missing field falls back to the substring test.
   */
  function VerdictFromFields(parsed: Fields, message: string): (v: Verdict)
    ensures "needsUserInput" in parsed ==> v.needsUserInput == (parsed["needsUserInput"] == Bool(true))
    ensures "needsUserInput" !in parsed ==> v.needsUserInput == AsksForInput(message)
    ensures "toolFailed" in parsed ==> v.toolFailed == (parsed["toolFailed"] == Bool(true))
    ensures "toolFailed" !in parsed ==> v.toolFailed == ReportsFailure(message)
    ensures Get(parsed, "reason") != Null ==> v.reason == ToText(parsed["reason"])
    ensures v.options == DecisionOptions
  {
    var needs := if "needsUserInput" in parsed then parsed["needsUserInput"] == Bool(true)
                 else AsksForInput(message);
    var failed := if "toolFailed" in parsed then parsed["toolFailed"] == Bool(true)
                  else ReportsFailure(message);
    var reason :=
      if Get(parsed, "reason") != Null then ToText(parsed["reason"])
      else if needs then "Agent requested additional input"
      else if failed then "Agent reported a failure"
      else "Normal agent response";
    Verdict(needs, failed, reason, DecisionOptions)
  }

  /**
   * The whole of askModelForReason. A reply that is not a JSON object is
   * kept as {raw, error}, so both flags come from the fallback; a literal
   * `null` reply makes the method throw into its catch-all fallback.
   */
  function ReasonFromReply(reply: Option<string>, parse: string -> Option<Value>, message: string): (v: Verdict)
    ensures v.options == DecisionOptions
  {
    if reply.None? then HeuristicVerdict(message)
    else
      var cleaned := StripFences(reply.value);
      match parse(cleaned)
      case Some(Obj(m)) => VerdictFromFields(m, message)
      case Some(Null) => HeuristicVerdict(message)
      case _ => VerdictFromFields(map["raw" := Str(cleaned), "error" := Str("Could not parse JSON reasoning output.")], message)
  }

  /** Whenever the model's object leaves both flags out, the flags are the substring tests. */
  lemma VerdictFallsBackToHeuristic(reply: Option<string>, parse: string -> Option<Value>, message: string)
    requires reply.Some? ==>
               match parse(StripFences(reply.value))
               case Some(Obj(m)) => "needsUserInput" !in m && "toolFailed" !in m
               case _ => true
    ensures ReasonFromReply(reply, parse, message).needsUserInput == AsksForInput(message)
    ensures ReasonFromReply(reply, parse, message).toolFailed == ReportsFailure(message)
  {
  }

  const NoExplicitMessage := "No explicit message from agent."

  /**
   * extractAgentMessage: the top-level `message` unless blank; else the
   * trimmed `message` of the last audit entry when that entry is a map
   * holding one; else a fixed text.
   */
  function ExtractAgentMessage(result: Fields): (r: string)
    ensures !Text.IsBlank(TextOrDefault(GetOrDefault(result, "message", Str("")), "")) ==>
              r == TextOrDefault(GetOrDefault(result, "message", Str("")), "")
    ensures Text.IsBlank(TextOrDefault(GetOrDefault(result, "message", Str("")), "")) ==>
              (r == NoExplicitMessage ||
               (exists entries: seq<Value> :: "audit" in result && result["audit"] == Arr(entries) &&
                 |entries| > 0 && entries[|entries| - 1].Obj? && "message" in entries[|entries| - 1].fields &&
                 r == Text.Trim(TextOrDefault(entries[|entries| - 1].fields["message"], ""))))
  {
    var msg := TextOrDefault(GetOrDefault(result, "message", Str("")), "");
    if !Text.IsBlank(msg) then msg
    else if "audit" in result && result["audit"].Arr? && |result["audit"].items| > 0 then
      var entries := result["audit"].items;
      var last := entries[|entries| - 1];
      if last.Obj? && "message" in last.fields then Text.Trim(TextOrDefault(last.fields["message"], ""))
      else NoExplicitMessage
    else NoExplicitMessage
  }

  /** A present, non-blank string message is returned unchanged, whatever the audit holds. */
  lemma TopLevelMessageWins(result: Fields, text: string)
    requires "message" in result && result["message"] == Str(text) && !Text.IsBlank(text)
    ensures ExtractAgentMessage(result) == text
  {
  }

  /** With no usable message anywhere, the fixed text comes back. */
  lemma NoMessageAnywhere(result: Fields)
    requires "message" !in result && "audit" !in result
    ensures ExtractAgentMessage(result) == NoExplicitMessage
  {
  }

  /**
   * With the top-level message absent, null or blank, the trimmed message
   * of the last audit entry is returned when that entry is a map holding one.
   */
  lemma AuditMessageUsed(result: Fields, entries: seq<Value>, f: Fields)
    requires "message" !in result || Text.IsBlank(TextOrDefault(result["message"], ""))
    requires "audit" in result && result["audit"] == Arr(entries)
    requires |entries| > 0 && entries[|entries| - 1] == Obj(f) && "message" in f
    ensures ExtractAgentMessage(result) == Text.Trim(TextOrDefault(f["message"], ""))
  {
    assert TextOrDefault(Str(""), "") == "";
  }

  /**
   * With the top-level message absent, null or blank, the fixed text comes
   * back whenever the audit is missing, not a list, empty, or ends in
   * something other than a map holding "message".
   */
  lemma NoAuditMessageGivesFixedText(result: Fields)
    requires "message" !in result || Text.IsBlank(TextOrDefault(result["message"], ""))
    requires "audit" !in result || !result["audit"].Arr? || |result["audit"].items| == 0 ||
             !result["audit"].items[|result["audit"].items| - 1].Obj? ||
             "message" !in result["audit"].items[|result["audit"].items| - 1].fields
    ensures ExtractAgentMessage(result) == NoExplicitMessage
  {
    assert TextOrDefault(Str(""), "") == "";
  }
}
