/** The policy agent: argument validation, a bounded loop in which the model
    may ask for get_policy_snippet, and the decision read from the model's last
    answer or, failing that, computed from the Standard Mortgage thresholds. */
module PolicyAgent {
  import opened Text
  import opened Values
  import opened Models
  import opened Gateway
  import opened Chat
  import opened PolicyTool

  const MaxIterations: nat := 3

  /** The thresholds of the deterministic fallback, whatever the product. */
  const MaxDti: real := 43.0
  const MaxLtv: real := 80.0
  const MinFico: real := 680.0

  const SnippetTool: string := "get_policy_snippet"

  /** The checks on a DTI or LTV percentage, in order: present, a number,
      not negative. `name` is "DTI" or "LTV". */
  function PercentError(v: Value, field: string, name: string): (r: Option<Exception>)
    ensures r.None? <==> IsNumber(v) && AsReal(v) >= 0.0
    ensures r.Some? ==> r.value.ValidationError? && r.value.field == field
  {
    if v.Null? then Some(ValidationError(field, name + " percentage cannot be None"))
    else if !IsNumber(v) then Some(ValidationError(field, "Expected number, got " + TypeName(v)))
    else if AsReal(v) < 0.0 then Some(ValidationError(field, name + " cannot be negative, got " + Show(v)))
    else None
  }

  /** The checks on a FICO score, in order: present, a number, in 300..850. */
  function FicoError(v: Value): (r: Option<Exception>)
    ensures r.None? <==> IsNumber(v) && 300.0 <= AsReal(v) <= 850.0
    ensures r.Some? ==> r.value.ValidationError? && r.value.field == "fico"
  {
    if v.Null? then Some(ValidationError("fico", "FICO score cannot be None"))
    else if !IsNumber(v) then Some(ValidationError("fico", "Expected number, got " + TypeName(v)))
    else if AsReal(v) < 300.0 || AsReal(v) > 850.0 then
      Some(ValidationError("fico", "FICO score must be between 300-850, got " + Show(v)))
    else None
  }

  /** The inputs the fallback can compare with its thresholds. */
  predicate ValidInputs(dti: Value, ltv: Value, fico: Value)
  {
    IsNumber(dti) && AsReal(dti) >= 0.0 && IsNumber(ltv) && AsReal(ltv) >= 0.0 &&
    IsNumber(fico) && 300.0 <= AsReal(fico) <= 850.0
  }

  /** validate_policy_arguments: the first failing check, DTI before LTV
      before FICO. */
  function ValidatePolicyArguments(dti: Value, ltv: Value, fico: Value): (r: Option<Exception>)
    ensures r.None? <==> ValidInputs(dti, ltv, fico)
    ensures r.Some? ==> r.value.ValidationError?
    ensures PercentError(dti, "dti_percent", "DTI").Some? ==> r.value.field == "dti_percent"
    ensures PercentError(dti, "dti_percent", "DTI").None? && PercentError(ltv, "ltv_percent", "LTV").Some? ==>
              r.value.field == "ltv_percent"
    ensures r.Some? && r.value.field == "fico" ==> IsNumber(dti) && IsNumber(ltv) && FicoError(fico).Some?
  {
    if PercentError(dti, "dti_percent", "DTI").Some? then PercentError(dti, "dti_percent", "DTI")
    else if PercentError(ltv, "ltv_percent", "LTV").Some? then PercentError(ltv, "ltv_percent", "LTV")
    else FicoError(fico)
  }

  /** What run_policy_agent returns for arguments that fail validation. */
  function ValidationFailure(e: Exception): PolicyResult
  {
    PolicyResult("FAIL", ["VALIDATION_ERROR"], e.Message())
  }

  /** Where a reason code stands in the fallback's fixed order. */
  function CodeRank(code: string): nat
  {
    if code == "DTI_EXCEEDED" then 0 else if code == "LTV_EXCEEDED" then 1 else 2
  }

  /** The codes of the breached limits, in the order DTI, LTV, FICO. */
  function BreachCodes(dtiOver: bool, ltvOver: bool, ficoUnder: bool): (r: seq<string>)
    ensures "DTI_EXCEEDED" in r <==> dtiOver
    ensures "LTV_EXCEEDED" in r <==> ltvOver
    ensures "FICO_BELOW_MIN" in r <==> ficoUnder
    ensures "ALL_CRITERIA_MET" !in r
    ensures r == [] <==> !dtiOver && !ltvOver && !ficoUnder
    ensures forall i, j :: 0 <= i < j < |r| ==> CodeRank(r[i]) < CodeRank(r[j])
  {
    (if dtiOver then ["DTI_EXCEEDED"] else []) +
    (if ltvOver then ["LTV_EXCEEDED"] else []) +
    (if ficoUnder then ["FICO_BELOW_MIN"] else [])
  }

  function DtiBreach(dti: Value): string
  {
    "DTI of " + Show(dti) + "% exceeds maximum of 43.0%"
  }

  function LtvBreach(ltv: Value): string
  {
    "LTV of " + Show(ltv) + "% exceeds maximum of 80.0%"
  }

  function FicoBreach(fico: Value): string
  {
    "FICO score of " + Show(fico) + " is below minimum of 680"
  }

  function AllMet(dti: Value, ltv: Value, fico: Value): string
  {
    "All criteria met: DTI " + Show(dti) + "% <= 43.0%, LTV " + Show(ltv) + "% <= 80.0%, FICO " + Show(fico) + " >= 680"
  }

  /** The sentence the fallback writes for a breached limit's code. */
  function BreachText(code: string, dti: Value, ltv: Value, fico: Value): string
  {
    if code == "DTI_EXCEEDED" then DtiBreach(dti)
    else if code == "LTV_EXCEEDED" then LtvBreach(ltv)
    else FicoBreach(fico)
  }

  /** The sentences for a list of codes, one per code, in the same order. */
  function BreachTexts(codes: seq<string>, dti: Value, ltv: Value, fico: Value): seq<string>
  {
    seq(|codes|, i requires 0 <= i < |codes| => BreachText(codes[i], dti, ltv, fico))
  }

  /** The deterministic evaluation: one reason code per strict breach, in the
      order DTI, LTV, FICO; FAIL iff there is one, and otherwise PASS with the
      single code ALL_CRITERIA_MET. Neither the product nor the retrieved
      policy text takes part. */
  function Fallback(dti: Value, ltv: Value, fico: Value): (r: PolicyResult)
    requires IsNumber(dti) && IsNumber(ltv) && IsNumber(fico)
    ensures "DTI_EXCEEDED" in r.reasonCodes <==> AsReal(dti) > MaxDti
    ensures "LTV_EXCEEDED" in r.reasonCodes <==> AsReal(ltv) > MaxLtv
    ensures "FICO_BELOW_MIN" in r.reasonCodes <==> AsReal(fico) < MinFico
    ensures r.decision == "PASS" || r.decision == "FAIL"
    ensures r.decision == "PASS" <==> AsReal(dti) <= MaxDti && AsReal(ltv) <= MaxLtv && AsReal(fico) >= MinFico
    ensures r.decision == "PASS" <==> r.reasonCodes == ["ALL_CRITERIA_MET"]
    ensures r.decision == "FAIL" ==> forall i, j :: 0 <= i < j < |r.reasonCodes| ==>
                                       CodeRank(r.reasonCodes[i]) < CodeRank(r.reasonCodes[j])
    // a FAIL carries exactly the breached codes, explained by their sentences
    // joined by "; "; a PASS states every figure against its limit
    ensures r.decision == "FAIL" ==>
              r.reasonCodes == BreachCodes(AsReal(dti) > MaxDti, AsReal(ltv) > MaxLtv, AsReal(fico) < MinFico) &&
              r.explanation == Join("; ", BreachTexts(r.reasonCodes, dti, ltv, fico))
    ensures r.decision == "PASS" ==> r.explanation == AllMet(dti, ltv, fico)
  {
    var codes := BreachCodes(AsReal(dti) > MaxDti, AsReal(ltv) > MaxLtv, AsReal(fico) < MinFico);
    var texts := BreachTexts(codes, dti, ltv, fico);
    if codes == [] then PolicyResult("PASS", ["ALL_CRITERIA_MET"], AllMet(dti, ltv, fico))
    else PolicyResult("FAIL", codes, Join("; ", texts))
  }

  /** The slice from the first "{" through the last "}", when a "{" comes
      before a later "}". */
  function JsonSlice(content: string): (r: Option<string>)
    ensures r.Some? <==> exists i, j :: 0 <= i < j < |content| && content[i] == '{' && content[j] == '}'
    ensures r.Some? ==> |r.value| >= 2 && r.value[0] == '{' && r.value[|r.value| - 1] == '}'
    ensures r.Some? ==> exists i, j :: 0 <= i < j <= |content| && r.value == content[i..j] &&
                                       '{' !in content[..i] && '}' !in content[j..]
  {
    var start := Find(content, '{');
    var end := RFind(content, '}') + 1;
    if start != -1 && end > start then
      assert content[end - 1] == '}' && content[start] == '{';
      assert content[end..] == content[end - 1 + 1..];
      Some(content[start..end])
    else
      None
  }

  /** The "ValidationError" a PolicyResult built from ill-typed fields raises. */
  const PolicyFieldsError: Exception := PythonError("ValidationError", "validation error for PolicyResult")

  /** PolicyResult(decision=..., reason_codes=..., explanation=...): a string,
      a list of strings and a string are required. */
  function MakePolicyResult(decision: Value, codes: Value, explanation: Value): (r: Result<PolicyResult>)
    ensures r.Ok? <==> decision.Str? && codes.List? && explanation.Str? &&
                       forall k :: 0 <= k < |codes.items| ==> codes.items[k].Str?
    ensures r.Ok? ==> r.value.decision == decision.s && r.value.explanation == explanation.s &&
                      |r.value.reasonCodes| == |codes.items| &&
                      forall k :: 0 <= k < |codes.items| ==> codes.items[k] == Str(r.value.reasonCodes[k])
    ensures r.Err? ==> r.error == PolicyFieldsError
  {
    if decision.Str? && codes.List? && explanation.Str? && forall k :: 0 <= k < |codes.items| ==> codes.items[k].Str? then
      Ok(PolicyResult(decision.s, seq(|codes.items|, k requires 0 <= k < |codes.items| && codes.items[k].Str? => codes.items[k].s),
                      explanation.s))
    else Err(PolicyFieldsError)
  }

  /** The decision read from a decoded JSON value: `.get` with the defaults
      "FAIL", [] and the whole content. A value that is not an object has no
      `.get`. */
  function FromJson(data: Value, content: string): (r: Result<PolicyResult>)
    ensures !data.Dict? ==> r.Err? && r.error.PythonError? && r.error.kind == "AttributeError"
    ensures r.Err? ==> r.error.PythonError?
    ensures data.Dict? ==> r == MakePolicyResult(GetOr(data.entries, "decision", Str("FAIL")),
                                                 GetOr(data.entries, "reason_codes", List([])),
                                                 GetOr(data.entries, "explanation", Str(content)))
  {
    if !data.Dict? then Err(PythonError("AttributeError", "'" + TypeName(data) + "' object has no attribute 'get'"))
    else
      MakePolicyResult(GetOr(data.entries, "decision", Str("FAIL")),
                       GetOr(data.entries, "reason_codes", List([])),
                       GetOr(data.entries, "explanation", Str(content)))
  }

  /** parse_policy_response. `decode` stands for json.loads: None when the text
      is not valid JSON. The policy text the source passes in is never read,
      so it is not a parameter here. */
  function ParsePolicyResponse(content: Option<string>, decode: string -> Option<Value>,
                               dti: Value, ltv: Value, fico: Value): (r: Result<PolicyResult>)
    requires IsNumber(dti) && IsNumber(ltv) && IsNumber(fico)
    // no content, no JSON object, or JSON that does not decode: the fallback
    ensures content.None? || content == Some("") ==> r == Ok(Fallback(dti, ltv, fico))
    ensures content.Some? && JsonSlice(content.value).None? ==> r == Ok(Fallback(dti, ltv, fico))
    ensures content.Some? && JsonSlice(content.value).Some? && decode(JsonSlice(content.value).value).None? ==>
              r == Ok(Fallback(dti, ltv, fico))
    // otherwise the decoded value decides, and its errors are not caught
    ensures content.Some? && content.value != "" && JsonSlice(content.value).Some? &&
            decode(JsonSlice(content.value).value).Some? ==>
              r == FromJson(decode(JsonSlice(content.value).value).value, content.value)
  {
    if content.Some? && content.value != "" then
      match JsonSlice(content.value)
      case Some(text) =>
        (match decode(text)
         case Some(data) => FromJson(data, content.value)
         case None => Ok(Fallback(dti, ltv, fico)))
      case None => Ok(Fallback(dti, ltv, fico))
    else Ok(Fallback(dti, ltv, fico))
  }

  /** A well-typed JSON object in the answer is taken as the decision, with the
      whole answer as the explanation when it gives none. */
  lemma ModelDecisionTaken(content: string, decode: string -> Option<Value>, dti: Value, ltv: Value, fico: Value,
                           decision: string, codes: seq<string>)
    requires IsNumber(dti) && IsNumber(ltv) && IsNumber(fico)
    requires JsonSlice(content).Some?
    requires decode(JsonSlice(content).value) ==
             Some(Dict([("decision", Str(decision)), ("reason_codes", List(seq(|codes|, k requires 0 <= k < |codes| => Str(codes[k]))))]))
    ensures ParsePolicyResponse(Some(content), decode, dti, ltv, fico) == Ok(PolicyResult(decision, codes, content))
  {
    var items := seq(|codes|, k requires 0 <= k < |codes| => Str(codes[k]));
    var entries := [("decision", Str(decision)), ("reason_codes", List(items))];
    assert content != "";
    assert Lookup(entries, "decision") == Some(Str(decision));
    assert Lookup(entries, "reason_codes") == Some(List(items)) by {
      assert entries[0].0 != "reason_codes";
      assert entries[1..] == [("reason_codes", List(items))];
    }
    assert GetOr(entries, "explanation", Str(content)) == Str(content) by {
      assert Lookup(entries, "explanation").None? by {
        assert entries[0].0 != "explanation" && entries[1].0 != "explanation";
      }
    }
    var r := MakePolicyResult(Str(decision), List(items), Str(content));
    assert r.value.reasonCodes == codes;
  }

  /** What json.loads guarantees about text that opens with "{": when it
      decodes at all, it decodes to an object. */
  ghost predicate DecodesBracesToObjects(decode: string -> Option<Value>)
  {
    forall t :: |t| > 0 && t[0] == '{' && decode(t).Some? ==> decode(t).value.Dict?
  }

  /** The slice handed to json.loads opens with "{", so the decoded value
      always has `.get`: the only error that can escape the parse is the
      PolicyResult validation error of ill-typed fields. */
  lemma {:induction false} ParseNeverLacksGet(content: Option<string>, decode: string -> Option<Value>,
                                              dti: Value, ltv: Value, fico: Value)
    requires IsNumber(dti) && IsNumber(ltv) && IsNumber(fico)
    requires DecodesBracesToObjects(decode)
    ensures var r := ParsePolicyResponse(content, decode, dti, ltv, fico);
            r.Err? ==> r.error == PolicyFieldsError
  {
    if content.Some? && content.value != "" && JsonSlice(content.value).Some? {
      var text := JsonSlice(content.value).value;
      if decode(text).Some? {
        assert text[0] == '{';
        assert decode(text).value.Dict?;
      }
    }
  }

  /** Everything over every threshold: FAIL with all three codes, in order. */
  lemma FallbackAllBreached()
    ensures Fallback(Int(50), Int(90), Int(650)).decision == "FAIL"
    ensures Fallback(Int(50), Int(90), Int(650)).reasonCodes == ["DTI_EXCEEDED", "LTV_EXCEEDED", "FICO_BELOW_MIN"]
    ensures Fallback(Int(50), Int(90), Int(650)).explanation ==
            DtiBreach(Int(50)) + "; " + LtvBreach(Int(90)) + "; " + FicoBreach(Int(650))
  {
    var texts := [DtiBreach(Int(50)), LtvBreach(Int(90)), FicoBreach(Int(650))];
    assert texts[1..][1..] == [FicoBreach(Int(650))];
    assert Join("; ", texts[1..]) == LtvBreach(Int(90)) + "; " + FicoBreach(Int(650));
    var codes := ["DTI_EXCEEDED", "LTV_EXCEEDED", "FICO_BELOW_MIN"];
    assert Fallback(Int(50), Int(90), Int(650)).reasonCodes == codes;
    assert BreachTexts(codes, Int(50), Int(90), Int(650)) == texts;
  }

  /** Everything within limits: PASS with ALL_CRITERIA_MET. */
  lemma FallbackAllMet()
    ensures Fallback(Int(30), Int(70), Int(720)) == PolicyResult("PASS", ["ALL_CRITERIA_MET"], AllMet(Int(30), Int(70), Int(720)))
  {
  }

  /** The thresholds are strict: figures exactly at the limits pass. */
  lemma FallbackAtLimits()
    ensures Fallback(Float(43.0), Float(80.0), Int(680)).decision == "PASS"
  {
  }

  /** One turn's tool calls that the agent answers. */
  function SnippetCalls(calls: seq<ToolCall>): (r: seq<ToolCall>)
    ensures |r| <= |calls|
  {
    if |calls| == 0 then []
    else
      var last := calls[|calls| - 1];
      assert calls == calls[..|calls| - 1] + [last];
      SnippetCalls(calls[..|calls| - 1]) + (if last.name == SnippetTool then [last] else [])
  }

  /** get_policy_snippet on the call's "product", defaulting to the agent's own. */
  function SnippetOf(call: ToolCall, product: Value): Result<Snippet>
  {
    GetPolicySnippet(GetOr(call.arguments, "product", product))
  }

  /** The tool_results entry of an answered call; a failure becomes the
      `{"error": ..., "policy_text": ""}` record. */
  function SnippetResult(call: ToolCall, product: Value): ToolResult<Snippet>
  {
    match SnippetOf(call, product)
    case Ok(s) => ToolResult(call.id, call.name, Output(s))
    case Err(e) => ToolResult(call.id, call.name, ErrorPayload(e.Message()))
  }

  datatype SnippetBatch = SnippetBatch(results: seq<ToolResult<Snippet>>, policyText: Option<string>)

  /** The inner loop over one turn's calls: one result per get_policy_snippet
      call, in order, and the policy text of the last successful one. */
  function RunSnippets(calls: seq<ToolCall>, product: Value, policyText: Option<string>): (b: SnippetBatch)
    ensures |b.results| == |SnippetCalls(calls)|
    ensures forall i :: 0 <= i < |b.results| ==> b.results[i] == SnippetResult(SnippetCalls(calls)[i], product)
  {
    if |calls| == 0 then SnippetBatch([], policyText)
    else
      var last := calls[|calls| - 1];
      var b := RunSnippets(calls[..|calls| - 1], product, policyText);
      if last.name != SnippetTool then b
      else
        match SnippetOf(last, product)
        case Ok(s) => SnippetBatch(b.results + [SnippetResult(last, product)], Some(s.policyText))
        case Err(_) => SnippetBatch(b.results + [SnippetResult(last, product)], b.policyText)
  }

  /** The policy text is only ever replaced by the guidelines of some product,
      and only by a get_policy_snippet call that succeeded. */
  lemma {:induction false} PolicyTextIsGuideline(calls: seq<ToolCall>, product: Value, policyText: Option<string>)
    ensures var t := RunSnippets(calls, product, policyText).policyText;
            t != policyText ==> t.Some? && t.value in PolicySnippets.Values &&
                                exists i :: 0 <= i < |calls| && calls[i].name == SnippetTool && SnippetOf(calls[i], product).Ok?
  {
    if |calls| > 0 {
      var init := calls[..|calls| - 1];
      PolicyTextIsGuideline(init, product, policyText);
      assert forall i :: 0 <= i < |init| ==> init[i] == calls[i];
    }
  }

  /** The loop over one turn's calls. */
  method ProcessSnippetCalls(calls: seq<ToolCall>, product: Value, policyText: Option<string>)
    returns (results: seq<ToolResult<Snippet>>, policyText': Option<string>)
    ensures SnippetBatch(results, policyText') == RunSnippets(calls, product, policyText)
  {
    results, policyText' := [], policyText;
    for j := 0 to |calls|
      invariant SnippetBatch(results, policyText') == RunSnippets(calls[..j], product, policyText)
    {
      assert calls[..j + 1][..j] == calls[..j];
      var call := calls[j];
      if call.name == SnippetTool {
        var result := GetPolicySnippet(GetOr(call.arguments, "product", product));
        if result.Ok? {
          policyText' := Some(result.value.policyText);
          results := results + [ToolResult(call.id, call.name, Output(result.value))];
        } else {
          results := results + [ToolResult(call.id, call.name, ErrorPayload(result.error.Message()))];
        }
      }
    }
    assert calls[..|calls|] == calls;
  }

  /** A turn with tool calls: answer them, then append the assistant message
      echoing them and one tool message per result. */
  method AnswerCalls(response: Response, product: Value, messages: seq<Message<Snippet>>, policyText: Option<string>)
    returns (messages': seq<Message<Snippet>>, policyText': Option<string>)
    ensures var b := RunSnippets(response.toolCalls, product, policyText);
            messages' == messages + [Assistant(response.content, Echoes(b.results, response.toolCalls))] + ToolMessages(b.results) &&
            policyText' == b.policyText
  {
    var results;
    results, policyText' := ProcessSnippetCalls(response.toolCalls, product, policyText);
    messages' := messages + [Assistant(response.content, Echoes(results, response.toolCalls))];
    messages' := AppendToolMessages(messages', results);
  }

  /** The echo pairs the i-th answered call's id and name with the arguments
      of the model's i-th call, whatever its name. */
  lemma EchoPairsByPosition(calls: seq<ToolCall>, product: Value, policyText: Option<string>)
    ensures var e := Echoes(RunSnippets(calls, product, policyText).results, calls);
            |e| == |SnippetCalls(calls)| &&
            forall i :: 0 <= i < |e| ==> e[i].id == SnippetCalls(calls)[i].id && e[i].arguments == calls[i].arguments
  {
  }

  /** So when a call to another tool comes first, the answered call is echoed
      with that other call's arguments. */
  lemma EchoMisaligned(product: Value)
    ensures var other := ToolCall("call_1", "compute_dti", [("income", Int(100))]);
            var asked := ToolCall("call_2", SnippetTool, [("product", Str("FHA Loan"))]);
            var e := Echoes(RunSnippets([other, asked], product, None).results, [other, asked]);
            |e| == 1 && e[0].id == "call_2" && e[0].name == SnippetTool && e[0].arguments == other.arguments &&
            e[0].arguments != asked.arguments
  {
    var other := ToolCall("call_1", "compute_dti", [("income", Int(100))]);
    var asked := ToolCall("call_2", SnippetTool, [("product", Str("FHA Loan"))]);
    assert [other, asked][..1] == [other];
    assert [other, asked][..1][..0] == [];
    assert other.name != SnippetTool;
    assert SnippetCalls([other, asked]) == [asked];
    assert other.arguments[0].0 != asked.arguments[0].0;
  }

  /** When every call asks for a snippet, each echo carries its own call. */
  lemma EchoAlignedForSnippetCalls(calls: seq<ToolCall>, product: Value, policyText: Option<string>)
    requires forall i :: 0 <= i < |calls| ==> calls[i].name == SnippetTool
    ensures var e := Echoes(RunSnippets(calls, product, policyText).results, calls);
            |e| == |calls| &&
            forall i :: 0 <= i < |calls| ==> e[i].id == calls[i].id && e[i].arguments == calls[i].arguments
  {
    SnippetCallsKeepsAll(calls);
    EchoPairsByPosition(calls, product, policyText);
  }

  lemma {:induction false} SnippetCallsKeepsAll(calls: seq<ToolCall>)
    requires forall i :: 0 <= i < |calls| ==> calls[i].name == SnippetTool
    ensures SnippetCalls(calls) == calls
  {
    if |calls| > 0 {
      SnippetCallsKeepsAll(calls[..|calls| - 1]);
      assert calls == calls[..|calls| - 1] + [calls[|calls| - 1]];
    }
  }

  /** The agent's local variables between turns. `apiError` says the gateway
      raised, which ends the run with the fallback. */
  datatype PolicyState = PolicyState(
    next: nat,
    modelCalls: nat,
    messages: seq<Message<Snippet>>,
    policyText: Option<string>,
    response: Option<Response>,
    done: bool,
    apiError: bool)

  function Start(start: nat): PolicyState
  {
    PolicyState(start, 0, [SystemPrompt, UserPrompt], None, None, false, false)
  }

  /** One pass of the agent loop. */
  function Turn(oracle: Oracle, product: Value, s: PolicyState): (r: PolicyState)
    requires !s.apiError
    ensures r.modelCalls == s.modelCalls + 1
    ensures r.next == s.next + Request(oracle, s.next, MaxRetries).attempts
    // only an API error or an answer without tool calls ends the loop early
    ensures r.done <==> Request(oracle, s.next, MaxRetries).result.Err? ||
                        Request(oracle, s.next, MaxRetries).result.value.toolCalls == []
    ensures r.apiError <==> Request(oracle, s.next, MaxRetries).result.Err?
    ensures |s.messages| <= |r.messages| && r.messages[..|s.messages|] == s.messages
  {
    var g := Request(oracle, s.next, MaxRetries);
    var next := s.next + g.attempts;
    match g.result
    case Err(_) => s.(next := next, modelCalls := s.modelCalls + 1, done := true, apiError := true)
    case Ok(response) =>
      if |response.toolCalls| == 0 then
        s.(next := next, modelCalls := s.modelCalls + 1, response := Some(response), done := true)
      else
        var b := RunSnippets(response.toolCalls, product, s.policyText);
        var m := s.messages + [Assistant(response.content, Echoes(b.results, response.toolCalls))] + ToolMessages(b.results);
        assert m[..|s.messages|] == s.messages;
        PolicyState(next, s.modelCalls + 1, m, b.policyText, Some(response), false, false)
  }

  /** The agent loop from a state on: at most MaxIterations requests. */
  function Loop(oracle: Oracle, product: Value, s: PolicyState): (r: PolicyState)
    requires s.modelCalls <= MaxIterations
    requires s.apiError ==> s.done
    ensures s.modelCalls <= r.modelCalls <= MaxIterations
    ensures r.done || r.modelCalls == MaxIterations
    ensures r.apiError ==> r.done
    ensures s.next <= r.next
    decreases MaxIterations - s.modelCalls
  {
    if s.done || s.modelCalls == MaxIterations then s
    else Loop(oracle, product, Turn(oracle, product, s))
  }

  /** How a run ended and the loop's final state. */
  datatype PolicyRun = PolicyRun(outcome: Result<PolicyResult>, final: PolicyState)

  /** The content the decision is read from: none after an API error,
      otherwise the content of the last answer. */
  function FinalContent(s: PolicyState): Option<string>
  {
    if s.apiError || s.response.None? then None else s.response.value.content
  }

  /** run_policy_agent. */
  function RunPolicy(oracle: Oracle, start: nat, decode: string -> Option<Value>,
                     dti: Value, ltv: Value, fico: Value, product: Value): (r: PolicyRun)
    // invalid arguments: FAIL with VALIDATION_ERROR, and no request is made
    ensures ValidatePolicyArguments(dti, ltv, fico).Some? ==>
              r == PolicyRun(Ok(ValidationFailure(ValidatePolicyArguments(dti, ltv, fico).value)), Start(start))
    ensures ValidatePolicyArguments(dti, ltv, fico).None? ==>
              r.outcome == ParsePolicyResponse(FinalContent(r.final), decode, dti, ltv, fico)
    ensures r.final.modelCalls <= MaxIterations && start <= r.final.next
    // an API error falls back to the deterministic evaluation
    ensures r.final.apiError ==> r.outcome == Ok(Fallback(dti, ltv, fico))
    // what escapes is a built-in exception from reading the answer
    ensures r.outcome.Err? ==> r.outcome.error.PythonError?
  {
    match ValidatePolicyArguments(dti, ltv, fico)
    case Some(e) => PolicyRun(Ok(ValidationFailure(e)), Start(start))
    case None =>
      var final := Loop(oracle, product, Start(start));
      PolicyRun(ParsePolicyResponse(FinalContent(final), decode, dti, ltv, fico), final)
  }

  /** If the gateway fails on the first request, the decision is the fallback
      for every product, FHA included, after one request. */
  lemma FirstRequestFailsFallsBack(oracle: Oracle, start: nat, decode: string -> Option<Value>,
                                   dti: Value, ltv: Value, fico: Value, product: Value)
    requires ValidInputs(dti, ltv, fico)
    requires Request(oracle, start, MaxRetries).result.Err?
    ensures RunPolicy(oracle, start, decode, dti, ltv, fico, product).outcome == Ok(Fallback(dti, ltv, fico))
    ensures RunPolicy(oracle, start, decode, dti, ltv, fico, product).final.modelCalls == 1
  {
    var t := Turn(oracle, product, Start(start));
    assert Loop(oracle, product, Start(start)) == Loop(oracle, product, t) == t;
  }

  /** The agent loop of run_policy_agent, from the first user message on. */
  method PolicyLoop(oracle: Oracle, start: nat, product: Value) returns (final: PolicyState)
    ensures final == Loop(oracle, product, Start(start))
  {
    var messages: seq<Message<Snippet>> := [SystemPrompt, UserPrompt];
    var policyText: Option<string> := None;
    var response: Option<Response> := None;
    var next := start;
    var modelCalls := 0;
    var apiError := false;
    var stopped := false;
    while modelCalls < MaxIterations
      invariant modelCalls <= MaxIterations
      invariant Loop(oracle, product, PolicyState(next, modelCalls, messages, policyText, response, false, false)) ==
                Loop(oracle, product, Start(start))
    {
      ghost var before := PolicyState(next, modelCalls, messages, policyText, response, false, false);
      var result, attempts, _ := CallWithTools(oracle, next, MaxRetries);
      next := next + attempts;
      modelCalls := modelCalls + 1;
      if result.Err? {
        // the source returns the fallback from inside the loop
        apiError, stopped := true, true;
        assert PolicyState(next, modelCalls, messages, policyText, response, true, true) == Turn(oracle, product, before);
        break;
      }
      response := Some(result.value);
      if |result.value.toolCalls| == 0 {
        stopped := true;
        assert PolicyState(next, modelCalls, messages, policyText, response, true, false) == Turn(oracle, product, before);
        break;
      }
      messages, policyText := AnswerCalls(result.value, product, messages, policyText);
      assert PolicyState(next, modelCalls, messages, policyText, response, false, false) == Turn(oracle, product, before);
    }
    final := PolicyState(next, modelCalls, messages, policyText, response, stopped, apiError);
  }

  /** run_policy_agent: validation, the loop, and the decision. Returns the
      result, the conversation, the number of gateway requests and the number
      of the next endpoint attempt. */
  method RunPolicyAgent(oracle: Oracle, start: nat, decode: string -> Option<Value>,
                        dti: Value, ltv: Value, fico: Value, product: Value)
    returns (outcome: Result<PolicyResult>, messages: seq<Message<Snippet>>, modelCalls: nat, next: nat)
    ensures var run := RunPolicy(oracle, start, decode, dti, ltv, fico, product);
            outcome == run.outcome && messages == run.final.messages &&
            modelCalls == run.final.modelCalls && next == run.final.next
  {
    var invalid := ValidatePolicyArguments(dti, ltv, fico);
    if invalid.Some? {
      return Ok(ValidationFailure(invalid.value)), Start(start).messages, 0, start;
    }
    var final := PolicyLoop(oracle, start, product);
    assert final == RunPolicy(oracle, start, decode, dti, ltv, fico, product).final;
    if final.apiError {
      outcome := Ok(Fallback(dti, ltv, fico));
    } else {
      var content := if final.response.Some? then final.response.value.content else None;
      outcome := ParsePolicyResponse(content, decode, dti, ltv, fico);
    }
    messages, modelCalls, next := final.messages, final.modelCalls, final.next;
  }
}
