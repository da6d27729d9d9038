/** The orchestrator: a bounded tool-calling loop whose tools are the two
    sub-agents and the underwriter summary. Every call is traced and answered,
    failures are recorded without stopping the loop, later results replace
    earlier ones, and the loop ends only on a turn without tool calls. */
module Orchestrator {
  import opened Text
  import opened Values
  import opened Models
  import opened Gateway
  import opened Chat
  import opened Prompts
  import VerificationAgent
  import PolicyAgent

  const MaxIterations: nat := 10

  /** The application fields the context message uses, in order; the debts
      are printed and then summed. */
  const ContextFields: seq<Field> :=
    [Money("income"), Plain("debts"), Summed("debts"), Money("loan_amount"), Money("property_value"),
     Plain("fico"), Plain("uploaded_docs")]

  const PassMark: string := "\U{2713} PASS"
  const FailMark: string := "\U{2717} FAIL"

  /** d.get(key, default) on a value that must be a dict. */
  function Get(d: Value, key: string, default: Value): Value
    requires d.Dict?
  {
    GetOr(d.entries, key, default)
  }

  /** `.get` on a value that is not a dict. */
  function NoGet(v: Value): Exception
  {
    PythonError("AttributeError", "'" + TypeName(v) + "' object has no attribute 'get'")
  }

  /** An ordering comparison between a non-number and a threshold. */
  function ComparisonError(v: Value, op: string, other: string): Exception
  {
    PythonError("TypeError", "'" + op + "' not supported between instances of '" + TypeName(v) + "' and '" + other + "'")
  }

  function Mark(pass: bool): (r: string)
    ensures EndsWith(r, PassMark) <==> pass
  {
    if pass then PassMark else FailMark
  }

  /** The position of the first item that is not a str, or |items|. */
  function FirstNonStr(items: seq<Value>): (r: nat)
    ensures r <= |items|
    ensures forall k :: 0 <= k < r ==> items[k].Str?
    ensures r < |items| ==> !items[r].Str?
  {
    if |items| == 0 || !items[0].Str? then 0
    else
      var r := FirstNonStr(items[1..]);
      assert forall k :: 1 <= k < |items| ==> items[k] == items[1..][k - 1];
      r + 1
  }

  function Strings(items: seq<Value>): (r: seq<string>)
    requires forall k :: 0 <= k < |items| ==> items[k].Str?
    ensures |r| == |items| && forall k :: 0 <= k < |items| ==> items[k] == Str(r[k])
  {
    seq(|items|, k requires 0 <= k < |items| => items[k].s)
  }

  /** sep.join(v): v must be iterable and every item a str. */
  function PyJoin(sep: string, v: Value): (r: Result<string>)
    ensures r.Ok? <==> Iterate(v).Some? && forall k :: 0 <= k < |Iterate(v).value| ==> Iterate(v).value[k].Str?
    ensures r.Ok? ==> r.value == Join(sep, Strings(Iterate(v).value))
    ensures r.Err? ==> r.error.PythonError? && r.error.kind == "TypeError"
  {
    match Iterate(v)
    case None => Err(PythonError("TypeError", "can only join an iterable"))
    case Some(items) =>
      var i := FirstNonStr(items);
      if i < |items| then
        Err(PythonError("TypeError", "sequence item " + NatText(i) + ": expected str instance, " + TypeName(items[i]) + " found"))
      else Ok(Join(sep, Strings(items)))
  }

  /** One "Missing: <doc>" per missing document in the order given, or the
      single all-present line when nothing is missing. */
  function DocConditions(missing: Value): (r: Result<seq<string>>)
    ensures !Truthy(missing) ==> r == Ok(["All required documents present"])
    ensures Truthy(missing) ==> (r.Ok? <==> Iterate(missing).Some?)
    ensures Truthy(missing) && r.Ok? ==>
              |r.value| == |Iterate(missing).value| &&
              forall i :: 0 <= i < |r.value| ==> r.value[i] == "Missing: " + Show(Iterate(missing).value[i])
    ensures r.Err? ==> r.error.PythonError? && r.error.kind == "TypeError"
  {
    if !Truthy(missing) then Ok(["All required documents present"])
    else
      match Iterate(missing)
      case None => Err(NotIterable(missing))
      case Some(items) => Ok(seq(|items|, i requires 0 <= i < |items| => "Missing: " + Show(items[i])))
  }

  const ApprovalNote: string :=
    "Application meets all policy criteria. Recommend approval pending standard verification."

  function ConditionalNote(docs: string): string
  {
    "Application meets financial criteria but requires additional documentation: " + docs +
    ". Conditional approval recommended."
  }

  function ReviewNote(codes: string): string
  {
    "Application does not meet policy criteria. Issues: " + codes + ". Manual review required."
  }

  /** The underwriter note: approval for PASS with nothing missing, conditional
      approval naming the missing documents for PASS otherwise, and manual
      review listing the reason codes for any other decision. */
  function UnderwriterNote(decision: Value, missing: Value, policy: Value): (r: Result<string>)
    requires policy.Dict?
    ensures decision == Str("PASS") && !Truthy(missing) ==> r == Ok(ApprovalNote)
    ensures decision == Str("PASS") && Truthy(missing) ==>
              (r.Ok? <==> PyJoin(", ", missing).Ok?) &&
              (r.Ok? ==> r.value == ConditionalNote(PyJoin(", ", missing).value))
    ensures decision != Str("PASS") ==>
              (r.Ok? <==> PyJoin(", ", Get(policy, "reason_codes", List([]))).Ok?) &&
              (r.Ok? ==> r.value == ReviewNote(PyJoin(", ", Get(policy, "reason_codes", List([]))).value))
    ensures r.Err? ==> r.error.PythonError?
  {
    if decision == Str("PASS") && !Truthy(missing) then Ok(ApprovalNote)
    else if decision == Str("PASS") then
      match PyJoin(", ", missing)
      case Ok(docs) => Ok(ConditionalNote(docs))
      case Err(e) => Err(e)
    else
      match PyJoin(", ", Get(policy, "reason_codes", List([])))
      case Ok(codes) => Ok(ReviewNote(codes))
      case Err(e) => Err(e)
  }

  /** summarize_for_underwriter on the model's arguments. The three figures
      are compared with the Standard Mortgage limits, each inclusive; missing
      figures read as 0 and missing documents as []. */
  function SummarizeForUnderwriter(verification: Value, policy: Value, fico: Value): (r: Result<UnderwriterSummary>)
    ensures !verification.Dict? ==> r == Err(NoGet(verification))
    // a summary is produced exactly when every look-up, comparison and join succeeds
    ensures r.Ok? <==> verification.Dict? &&
                       IsNumber(Get(verification, "dti_percent", Int(0))) && IsNumber(Get(verification, "ltv_percent", Int(0))) &&
                       IsNumber(fico) && DocConditions(Get(verification, "missing_docs", List([]))).Ok? &&
                       policy.Dict? &&
                       UnderwriterNote(Get(policy, "decision", Str("UNKNOWN")), Get(verification, "missing_docs", List([])), policy).Ok?
    ensures r.Ok? ==>
              (EndsWith(r.value.dtiSummary, PassMark) <==> AsReal(Get(verification, "dti_percent", Int(0))) <= 43.0) &&
              (EndsWith(r.value.ltvSummary, PassMark) <==> AsReal(Get(verification, "ltv_percent", Int(0))) <= 80.0) &&
              (EndsWith(r.value.ficoSummary, PassMark) <==> AsReal(fico) >= 680.0)
    ensures r.Ok? ==> DocConditions(Get(verification, "missing_docs", List([]))) == Ok(r.value.docConditions)
    ensures r.Ok? ==>
              var decision := Get(policy, "decision", Str("UNKNOWN"));
              r.value.policyDecision == Show(decision) + ": " + Show(Get(policy, "explanation", Str(""))) &&
              UnderwriterNote(decision, Get(verification, "missing_docs", List([])), policy) == Ok(r.value.underwriterNote)
    ensures r.Err? ==> r.error.PythonError?
  {
    if !verification.Dict? then Err(NoGet(verification))
    else
      var dti := Get(verification, "dti_percent", Int(0));
      var ltv := Get(verification, "ltv_percent", Int(0));
      var missing := Get(verification, "missing_docs", List([]));
      if !IsNumber(dti) then Err(ComparisonError(dti, "<=", "float"))
      else if !IsNumber(ltv) then Err(ComparisonError(ltv, "<=", "float"))
      else if !IsNumber(fico) then Err(ComparisonError(fico, ">=", "int"))
      else
        var dtiSummary := "DTI: " + Show(dti) + "% (max 43.0%) - " + Mark(AsReal(dti) <= 43.0);
        var ltvSummary := "LTV: " + Show(ltv) + "% (max 80.0%) - " + Mark(AsReal(ltv) <= 80.0);
        var ficoSummary := "FICO: " + Show(fico) + " (min 680) - " + Mark(AsReal(fico) >= 680.0);
        assert EndsWith(dtiSummary, Mark(AsReal(dti) <= 43.0)) by { SuffixOfConcat("DTI: " + Show(dti) + "% (max 43.0%) - ", Mark(AsReal(dti) <= 43.0)); }
        assert EndsWith(ltvSummary, Mark(AsReal(ltv) <= 80.0)) by { SuffixOfConcat("LTV: " + Show(ltv) + "% (max 80.0%) - ", Mark(AsReal(ltv) <= 80.0)); }
        assert EndsWith(ficoSummary, Mark(AsReal(fico) >= 680.0)) by { SuffixOfConcat("FICO: " + Show(fico) + " (min 680) - ", Mark(AsReal(fico) >= 680.0)); }
        match DocConditions(missing)
        case Err(e) => Err(e)
        case Ok(conditions) =>
          if !policy.Dict? then Err(NoGet(policy))
          else
            var decision := Get(policy, "decision", Str("UNKNOWN"));
            var explanation := Get(policy, "explanation", Str(""));
            match UnderwriterNote(decision, missing, policy)
            case Err(e) => Err(e)
            case Ok(note) =>
              Ok(UnderwriterSummary(dtiSummary, ltvSummary, ficoSummary, conditions,
                                    Show(decision) + ": " + Show(explanation), note))
  }

  /** The status is the end of the line: a line ending in one mark does not end
      in the other. */
  lemma SuffixOfConcat(prefix: string, mark: string)
    requires mark == PassMark || mark == FailMark
    ensures EndsWith(prefix + mark, mark)
    ensures EndsWith(prefix + mark, PassMark) <==> mark == PassMark
  {
    var s := prefix + mark;
    assert s[|s| - |mark|..] == mark;
    if mark == FailMark {
      assert s[|s| - |PassMark|..][0] == FailMark[0];
    }
  }

  /** Figures exactly at the limits pass. */
  lemma ThresholdsInclusive(policy: Value)
    requires policy.Dict?
    requires Get(policy, "decision", Str("UNKNOWN")) == Str("PASS") || PyJoin(", ", Get(policy, "reason_codes", List([]))).Ok?
    ensures var r := SummarizeForUnderwriter(Dict([("dti_percent", Float(43.0)), ("ltv_percent", Float(80.0))]), policy, Int(680));
            r.Ok? && EndsWith(r.value.dtiSummary, PassMark) && EndsWith(r.value.ltvSummary, PassMark) &&
            EndsWith(r.value.ficoSummary, PassMark)
  {
    var v := Dict([("dti_percent", Float(43.0)), ("ltv_percent", Float(80.0))]);
    AtLimits();
    assert !Truthy(List([]));
    assert UnderwriterNote(Get(policy, "decision", Str("UNKNOWN")), List([]), policy).Ok?;
    var r := SummarizeForUnderwriter(v, policy, Int(680));
    assert r.Ok?;
    assert AsReal(Float(43.0)) <= 43.0 && AsReal(Float(80.0)) <= 80.0 && AsReal(Int(680)) >= 680.0;
  }

  /** The look-ups in the verification result with both figures at their limits. */
  lemma AtLimits()
    ensures var v := Dict([("dti_percent", Float(43.0)), ("ltv_percent", Float(80.0))]);
            Get(v, "dti_percent", Int(0)) == Float(43.0) && Get(v, "ltv_percent", Int(0)) == Float(80.0) &&
            Get(v, "missing_docs", List([])) == List([]) && DocConditions(List([])).Ok?
  {
    var v := Dict([("dti_percent", Float(43.0)), ("ltv_percent", Float(80.0))]);
    assert Get(v, "dti_percent", Int(0)) == Float(43.0);
    assert Get(v, "ltv_percent", Int(0)) == Float(80.0) by {
      assert v.entries[0].0 != "ltv_percent";
    }
    assert Get(v, "missing_docs", List([])) == List([]) by {
      assert v.entries[0].0 != "missing_docs" && v.entries[1].0 != "missing_docs";
    }
  }

  /** A PASS with missing documents names every one of them, in order,
      separated by ", ". */
  lemma ConditionalNoteNamesMissingDocs(docs: seq<string>, policy: Value)
    requires policy.Dict? && docs != []
    ensures UnderwriterNote(Str("PASS"), StrList(docs), policy) == Ok(ConditionalNote(Join(", ", docs)))
  {
    JoinOfStrings(", ", docs);
  }

  /** ", ".join of a list of str joins the strings themselves. */
  lemma JoinOfStrings(sep: string, strs: seq<string>)
    ensures PyJoin(sep, StrList(strs)) == Ok(Join(sep, strs))
  {
    assert Strings(StrList(strs).items) == strs;
  }

  /** Without a decision the note asks for manual review: the decision reads
      as "UNKNOWN", which is not PASS, and there are no reason codes. */
  lemma MissingDecisionMeansReview(verification: Value, fico: Value)
    requires verification.Dict? && IsNumber(fico)
    requires IsNumber(Get(verification, "dti_percent", Int(0))) && IsNumber(Get(verification, "ltv_percent", Int(0)))
    requires DocConditions(Get(verification, "missing_docs", List([]))).Ok?
    ensures var r := SummarizeForUnderwriter(verification, Dict([]), fico);
            r.Ok? && r.value.underwriterNote == ReviewNote("")
  {
    EmptyPolicyNote(Get(verification, "missing_docs", List([])));
  }

  /** Without a decision or an explanation the decision line is "UNKNOWN: ". */
  lemma MissingDecisionReadsUnknown(verification: Value, fico: Value)
    requires verification.Dict? && IsNumber(fico)
    requires IsNumber(Get(verification, "dti_percent", Int(0))) && IsNumber(Get(verification, "ltv_percent", Int(0)))
    requires DocConditions(Get(verification, "missing_docs", List([]))).Ok?
    ensures var r := SummarizeForUnderwriter(verification, Dict([]), fico);
            r.Ok? && r.value.policyDecision == "UNKNOWN" + ": "
  {
    EmptyPolicyNote(Get(verification, "missing_docs", List([])));
    var r := SummarizeForUnderwriter(verification, Dict([]), fico);
    assert r.Ok?;
    UnknownDecisionLine();
  }

  /** The decision line of an empty policy result. */
  lemma UnknownDecisionLine()
    ensures Show(Get(Dict([]), "decision", Str("UNKNOWN"))) + ": " + Show(Get(Dict([]), "explanation", Str(""))) ==
            "UNKNOWN" + ": "
  {
    assert Get(Dict([]), "decision", Str("UNKNOWN")) == Str("UNKNOWN");
    assert Get(Dict([]), "explanation", Str("")) == Str("");
    assert "UNKNOWN" + ": " + "" == "UNKNOWN" + ": ";
  }

  /** An empty policy result reads as decision UNKNOWN and gets the review
      note with no codes. */
  lemma EmptyPolicyNote(missing: Value)
    ensures Get(Dict([]), "decision", Str("UNKNOWN")) == Str("UNKNOWN")
    ensures UnderwriterNote(Str("UNKNOWN"), missing, Dict([])) == Ok(ReviewNote(""))
  {
    assert Get(Dict([]), "reason_codes", List([])) == List([]);
    assert Strings([]) == [];
    assert PyJoin(", ", List([])) == Ok("");
  }

  /** The arguments each orchestrator tool requires, in the order checked. */
  const OrchestratorRequiredArgs: map<string, seq<string>> :=
    map["run_verification_agent" := ["income", "debts", "loan_amount", "property_value", "uploaded_docs"],
        "run_policy_agent" := ["dti_percent", "ltv_percent", "fico"],
        "summarize_for_underwriter" := ["verification_result", "policy_result", "fico"]]

  /** The position of the first required argument that is absent, or |required|. */
  function FirstAbsent(required: seq<string>, args: Args): (r: nat)
    ensures r <= |required|
    ensures forall j :: 0 <= j < r ==> Lookup(args, required[j]).Some?
    ensures r < |required| ==> Lookup(args, required[r]).None?
  {
    if |required| == 0 || Lookup(args, required[0]).None? then 0
    else
      var r := FirstAbsent(required[1..], args);
      assert forall j :: 1 <= j < |required| ==> required[j] == required[1..][j - 1];
      r + 1
  }

  /** validate_orchestrator_arguments: presence only (None is accepted), and
      any arguments for a name it does not know. */
  function ValidateOrchestratorArguments(name: string, args: Args): (r: Option<Exception>)
    ensures name !in OrchestratorRequiredArgs ==> r.None?
    ensures name in OrchestratorRequiredArgs ==>
              (r.None? <==> forall k :: 0 <= k < |OrchestratorRequiredArgs[name]| ==>
                                          Lookup(args, OrchestratorRequiredArgs[name][k]).Some?)
    ensures r.Some? ==> name in OrchestratorRequiredArgs && r.value.ValidationError? &&
                        r.value.field == OrchestratorRequiredArgs[name][FirstAbsent(OrchestratorRequiredArgs[name], args)]
  {
    if name !in OrchestratorRequiredArgs then None
    else
      var required := OrchestratorRequiredArgs[name];
      var i := FirstAbsent(required, args);
      if i == |required| then None
      else Some(ValidationError(required[i], "Required argument '" + required[i] + "' missing"))
  }

  /** What an orchestrator tool returns. */
  datatype OrchOutput =
    | VerificationOut(verification: VerificationResult)
    | PolicyOut(policy: PolicyResult)
    | SummaryOut(summary: UnderwriterSummary)

  /** A tool's result and the number of the next endpoint attempt: the
      sub-agents make their own requests to the same endpoint. */
  datatype ToolRun = ToolRun(result: Result<OrchOutput>, next: nat)

  /** The exceptions execute_orchestrator_tool lets through unchanged are the
      AgentError ones; anything else becomes a ToolExecutionError. */
  function Reraise(name: string, e: Exception): (r: Exception)
    ensures e.PythonError? ==> r == ToolExecutionError(name, e.Message())
    ensures !e.PythonError? ==> r == e
  {
    if e.IsAgentError() then e else ToolExecutionError(name, e.Message())
  }

  /** execute_orchestrator_tool, with the application data of the source
      unused. `next` is the number of the next endpoint attempt and `decode`
      stands for json.loads. */
  function ToolOutcome(oracle: Oracle, next: nat, decode: string -> Option<Value>, name: string, args: Args): (r: ToolRun)
    ensures next <= r.next
    // every failure reaches the loop as a ToolExecutionError naming the tool
    ensures r.result.Err? ==> r.result.error.ToolExecutionError? && r.result.error.toolName == name
    ensures r.result.Ok? ==> (r.result.value.VerificationOut? <==> name == "run_verification_agent") &&
                             (r.result.value.PolicyOut? <==> name == "run_policy_agent") &&
                             (r.result.value.SummaryOut? <==> name == "summarize_for_underwriter")
    ensures ValidateOrchestratorArguments(name, args).Some? ==>
              r == ToolRun(Err(ToolExecutionError(name, ValidateOrchestratorArguments(name, args).value.Message())), next)
    ensures name !in OrchestratorRequiredArgs ==> r == ToolRun(Err(ToolExecutionError(name, "Unknown tool: " + name)), next)
    // only the sub-agents make requests
    ensures name != "run_verification_agent" && name != "run_policy_agent" ==> r.next == next
  {
    match ValidateOrchestratorArguments(name, args)
    case Some(e) => ToolRun(Err(ToolExecutionError(name, e.Message())), next)
    case None =>
      if name == "run_verification_agent" then VerificationTool(oracle, next, args)
      else if name == "run_policy_agent" then PolicyTool(oracle, next, decode, args)
      else if name == "summarize_for_underwriter" then SummaryTool(next, args)
      else ToolRun(Err(ToolExecutionError(name, "Unknown tool: " + name)), next)
  }

  /** The run_verification_agent branch: the sub-agent's failures are
      re-raised under the tool's name. */
  function VerificationTool(oracle: Oracle, next: nat, args: Args): (r: ToolRun)
    ensures next <= r.next
    ensures r.result.Err? ==> r.result.error.ToolExecutionError? && r.result.error.toolName == "run_verification_agent"
    ensures r.result.Ok? ==> r.result.value.VerificationOut?
  {
    var run := VerificationAgent.RunVerification(oracle, next, args);
    match run.outcome
    case Ok(v) => ToolRun(Ok(VerificationOut(v)), run.final.next)
    case Err(e) => ToolRun(Err(Reraise("run_verification_agent", e)), run.final.next)
  }

  /** The run_policy_agent branch; a missing product reads as the Standard
      Mortgage. */
  function PolicyTool(oracle: Oracle, next: nat, decode: string -> Option<Value>, args: Args): (r: ToolRun)
    ensures next <= r.next
    ensures r.result.Err? ==> r.result.error.ToolExecutionError? && r.result.error.toolName == "run_policy_agent"
    ensures r.result.Ok? ==> r.result.value.PolicyOut?
  {
    var run := PolicyAgent.RunPolicy(oracle, next, decode, GetOr(args, "dti_percent", Null), GetOr(args, "ltv_percent", Null),
                                     GetOr(args, "fico", Null), GetOr(args, "product", Str(StandardMortgage)));
    match run.outcome
    case Ok(p) => ToolRun(Ok(PolicyOut(p)), run.final.next)
    case Err(e) => ToolRun(Err(Reraise("run_policy_agent", e)), run.final.next)
  }

  /** The summarize_for_underwriter branch, which makes no request. */
  function SummaryTool(next: nat, args: Args): (r: ToolRun)
    ensures r.next == next
    ensures r.result.Err? ==> r.result.error.ToolExecutionError? && r.result.error.toolName == "summarize_for_underwriter"
    ensures r.result.Ok? ==> r.result.value.SummaryOut?
  {
    match SummarizeForUnderwriter(GetOr(args, "verification_result", Null), GetOr(args, "policy_result", Null),
                                  GetOr(args, "fico", Null))
    case Ok(s) => ToolRun(Ok(SummaryOut(s)), next)
    case Err(e) => ToolRun(Err(Reraise("summarize_for_underwriter", e)), next)
  }

  /** execute_orchestrator_tool. */
  method ExecuteOrchestratorTool(oracle: Oracle, next: nat, decode: string -> Option<Value>, name: string, args: Args)
    returns (result: Result<OrchOutput>, next': nat)
    ensures ToolRun(result, next') == ToolOutcome(oracle, next, decode, name, args)
  {
    var invalid := ValidateOrchestratorArguments(name, args);
    if invalid.Some? {
      return Err(ToolExecutionError(name, invalid.value.Message())), next;
    }
    next' := next;
    if name == "run_verification_agent" {
      var outcome, vMessages, vCalls, n := VerificationAgent.RunVerificationAgent(oracle, next, args);
      result, next' := if outcome.Ok? then Ok(VerificationOut(outcome.value)) else Err(Reraise(name, outcome.error)), n;
    } else if name == "run_policy_agent" {
      var outcome, pMessages, pCalls, n := PolicyAgent.RunPolicyAgent(oracle, next, decode, GetOr(args, "dti_percent", Null),
                                                         GetOr(args, "ltv_percent", Null), GetOr(args, "fico", Null),
                                                         GetOr(args, "product", Str(StandardMortgage)));
      result, next' := if outcome.Ok? then Ok(PolicyOut(outcome.value)) else Err(Reraise(name, outcome.error)), n;
    } else if name == "summarize_for_underwriter" {
      var summary := SummarizeForUnderwriter(GetOr(args, "verification_result", Null), GetOr(args, "policy_result", Null),
                                             GetOr(args, "fico", Null));
      result := if summary.Ok? then Ok(SummaryOut(summary.value)) else Err(Reraise(name, summary.error));
    } else {
      result := Err(ToolExecutionError(name, "Unknown tool: " + name));
    }
  }

  /** How each call of a turn is answered, from a given endpoint position.
      The inner loop below is stated for any such answer; the orchestrator
      uses execute_orchestrator_tool's. */
  type Executor = (nat, ToolCall) -> ToolRun

  function Execute(oracle: Oracle, decode: string -> Option<Value>): Executor
  {
    (next: nat, call: ToolCall) => ToolOutcome(oracle, next, decode, call.name, call.arguments)
  }

  /** One tool_calls_trace entry: the tool, its arguments and its result. */
  datatype TraceEntry = TraceEntry(tool: string, arguments: Args, payload: Payload<OrchOutput>)

  /** The last successful result of each of the three tools, kept under the
      name of the tool that was called. */
  datatype Captured = Captured(
    verification: Option<OrchOutput>,
    policy: Option<OrchOutput>,
    summary: Option<OrchOutput>)

  /** The names under which results are kept. */
  const Slots: set<string> := {"run_verification_agent", "run_policy_agent", "summarize_for_underwriter"}

  /** The result kept under a tool name. */
  function Slot(c: Captured, name: string): (r: Option<OrchOutput>)
    ensures name !in Slots ==> r.None?
  {
    if name == "run_verification_agent" then c.verification
    else if name == "run_policy_agent" then c.policy
    else if name == "summarize_for_underwriter" then c.summary
    else None
  }

  /** Keeps a successful result under the name of the tool that was called;
      the other tools' results are untouched. */
  function Keep(c: Captured, name: string, out: OrchOutput): (r: Captured)
    ensures forall other :: other != name ==> Slot(r, other) == Slot(c, other)
    ensures name in Slots ==> Slot(r, name) == Some(out)
  {
    if name == "run_verification_agent" then c.(verification := Some(out))
    else if name == "run_policy_agent" then c.(policy := Some(out))
    else if name == "summarize_for_underwriter" then c.(summary := Some(out))
    else c
  }

  function PayloadOf(r: Result<OrchOutput>): Payload<OrchOutput>
  {
    match r
    case Ok(out) => Output(out)
    case Err(e) => ErrorPayload(e.Message())
  }

  /** The state one turn's calls build up. */
  datatype Batch = Batch(
    results: seq<ToolResult<OrchOutput>>,
    trace: seq<TraceEntry>,
    captured: Captured,
    errors: seq<string>,
    next: nat)

  function CallStep(exec: Executor, b: Batch, call: ToolCall): Batch
  {
    var run := exec(b.next, call);
    var payload := PayloadOf(run.result);
    Batch(b.results + [ToolResult(call.id, call.name, payload)],
          b.trace + [TraceEntry(call.name, call.arguments, payload)],
          if run.result.Ok? then Keep(b.captured, call.name, run.result.value) else b.captured,
          if run.result.Err? then b.errors + [run.result.error.Message()] else b.errors,
          run.next)
  }

  /** The texts of the failed results, in order. */
  function ErrorTexts(results: seq<ToolResult<OrchOutput>>): (r: seq<string>)
    ensures |r| <= |results|
    ensures r == [] <==> forall i :: 0 <= i < |results| ==> results[i].payload.Output?
  {
    if |results| == 0 then []
    else
      var init := results[..|results| - 1];
      assert forall i :: 0 <= i < |init| ==> init[i] == results[i];
      ErrorTexts(init) + (if results[|results| - 1].payload.ErrorPayload? then [results[|results| - 1].payload.text] else [])
  }

  /** The inner loop over one turn's tool calls: one result and one trace
      entry per call, in order, with the call's id, name and arguments; the
      failures' texts are recorded in order and the later calls still run. */
  function RunCalls(exec: Executor, calls: seq<ToolCall>, next: nat, captured: Captured, errors: seq<string>): (b: Batch)
    ensures |b.results| == |calls| && |b.trace| == |calls|
    ensures forall i :: 0 <= i < |calls| ==>
              b.results[i].callId == calls[i].id && b.results[i].name == calls[i].name &&
              b.trace[i] == TraceEntry(calls[i].name, calls[i].arguments, b.results[i].payload)
  {
    if |calls| == 0 then Batch([], [], captured, errors, next)
    else
      var init := calls[..|calls| - 1];
      var prev := RunCalls(exec, init, next, captured, errors);
      CallStep(exec, prev, calls[|calls| - 1])
  }

  /** The errors after a turn's calls are the earlier ones followed by the
      failed calls' texts, in order; no error is recorded when every call
      succeeded. */
  lemma {:induction false} RunCallsErrors(exec: Executor, calls: seq<ToolCall>, next: nat, captured: Captured, errors: seq<string>)
    ensures var b := RunCalls(exec, calls, next, captured, errors);
            b.errors == errors + ErrorTexts(b.results)
  {
    if |calls| > 0 {
      var init := calls[..|calls| - 1];
      RunCallsErrors(exec, init, next, captured, errors);
      var prev := RunCalls(exec, init, next, captured, errors);
      var b := RunCalls(exec, calls, next, captured, errors);
      var run := exec(prev.next, calls[|calls| - 1]);
      assert b == CallStep(exec, prev, calls[|calls| - 1]);
      assert b.results[..|b.results| - 1] == prev.results;
      if run.result.Err? {
        var m := run.result.error.Message();
        assert ErrorTexts(b.results) == ErrorTexts(prev.results) + [m];
        AppendAssociates(errors, ErrorTexts(prev.results), [m]);
      } else {
        assert ErrorTexts(b.results) == ErrorTexts(prev.results);
      }
    }
  }

  lemma AppendAssociates<T>(a: seq<T>, b: seq<T>, c: seq<T>)
    ensures a + (b + c) == (a + b) + c
  {
  }

  /** The output of the last successful call to a tool among the results. */
  function LastOutput(results: seq<ToolResult<OrchOutput>>, name: string): (r: Option<OrchOutput>)
    ensures r.Some? ==> exists i :: 0 <= i < |results| && results[i].name == name && results[i].payload == Output(r.value)
    ensures r.None? ==> forall i :: 0 <= i < |results| && results[i].name == name ==> results[i].payload.ErrorPayload?
  {
    if |results| == 0 then None
    else
      var last := results[|results| - 1];
      if last.name == name && last.payload.Output? then Some(last.payload.value)
      else
        var r := LastOutput(results[..|results| - 1], name);
        assert forall i :: 0 <= i < |results| - 1 ==> results[..|results| - 1][i] == results[i];
        r
  }

  /** After the calls, each tool's kept result is the output of its last
      successful call, or the one kept before when every call to it failed
      or there was none. */
  lemma {:induction false} KeptIsLastOutput(exec: Executor, calls: seq<ToolCall>, next: nat, captured: Captured,
                                            errors: seq<string>, name: string)
    requires name in Slots
    ensures var b := RunCalls(exec, calls, next, captured, errors);
            Slot(b.captured, name) ==
              if LastOutput(b.results, name).Some? then LastOutput(b.results, name) else Slot(captured, name)
  {
    if |calls| > 0 {
      var init := calls[..|calls| - 1];
      var prev := RunCalls(exec, init, next, captured, errors);
      var b := RunCalls(exec, calls, next, captured, errors);
      KeptIsLastOutput(exec, init, next, captured, errors, name);
      assert b == CallStep(exec, prev, calls[|calls| - 1]);
      assert b.results[..|calls| - 1] == prev.results;
    }
  }

  /** The orchestrator's local variables between turns. */
  datatype OrchState = OrchState(
    next: nat,
    modelCalls: nat,
    messages: seq<Message<OrchOutput>>,
    trace: seq<TraceEntry>,
    captured: Captured,
    errors: seq<string>,
    response: Option<Response>,
    done: bool)

  function Start(start: nat): OrchState
  {
    OrchState(start, 0, [SystemPrompt, UserPrompt], [], Captured(None, None, None), [], None, false)
  }

  /** One pass of the orchestrator loop. */
  function Turn(exec: Executor, oracle: Oracle, s: OrchState): (r: OrchState)
    ensures r.modelCalls == s.modelCalls + 1
    // no early stop: only an API error or an answer without tool calls ends the loop
    ensures r.done <==> Request(oracle, s.next, MaxRetries).result.Err? ||
                        Request(oracle, s.next, MaxRetries).result.value.toolCalls == []
    ensures Request(oracle, s.next, MaxRetries).result.Ok? ==>
              |r.trace| == |s.trace| + |Request(oracle, s.next, MaxRetries).result.value.toolCalls|
  {
    AfterRequest(exec, s, Request(oracle, s.next, MaxRetries))
  }

  /** The rest of a pass once the request has ended: an API error is recorded
      and ends the loop, an answer without tool calls ends it, and an answer
      with tool calls is answered. */
  function AfterRequest(exec: Executor, s: OrchState, g: GatewayRun): (r: OrchState)
    ensures r.modelCalls == s.modelCalls + 1
    ensures r.done <==> g.result.Err? || g.result.value.toolCalls == []
    ensures g.result.Ok? ==> |r.trace| == |s.trace| + |g.result.value.toolCalls|
  {
    var next := s.next + g.attempts;
    match g.result
    case Err(e) => s.(next := next, modelCalls := s.modelCalls + 1, errors := s.errors + [e.Message()], done := true)
    case Ok(response) =>
      if |response.toolCalls| == 0 then
        s.(next := next, modelCalls := s.modelCalls + 1, response := Some(response), done := true)
      else Answered(exec, s, response, next)
  }

  /** A turn whose answer asks for tools: every call is run, traced and
      answered, and the loop goes on. */
  function Answered(exec: Executor, s: OrchState, response: Response, next: nat): (r: OrchState)
    ensures |r.trace| == |s.trace| + |response.toolCalls|
    ensures r.modelCalls == s.modelCalls + 1 && r.response == Some(response) && !r.done
  {
    var b := RunCalls(exec, response.toolCalls, next, s.captured, s.errors);
    OrchState(
      b.next, s.modelCalls + 1,
      s.messages + [Assistant(response.content, Echoes(b.results, response.toolCalls))] + ToolMessages(b.results),
      s.trace + b.trace, b.captured, b.errors, Some(response), false)
  }

  /** An answer with tool calls makes the rest of the pass an answered turn. */
  lemma AnsweredAfterRequest(exec: Executor, s: OrchState, g: GatewayRun, response: Response, next: nat)
    requires g.result == Ok(response) && response.toolCalls != [] && next == s.next + g.attempts
    ensures AfterRequest(exec, s, g) == Answered(exec, s, response, next)
  {
  }

  /** An answered turn appends one assistant message echoing every call with
      its own id, name and arguments, then one tool message per call with the
      same id and that call's result, in order. */
  lemma AnsweredMessages(exec: Executor, s: OrchState, response: Response, next: nat)
    requires response.toolCalls != []
    ensures var calls := response.toolCalls;
            var b := RunCalls(exec, calls, next, s.captured, s.errors);
            var m := Answered(exec, s, response, next).messages;
            var n := |s.messages|;
            |m| == n + 1 + |calls| && m[..n] == s.messages &&
            m[n] == Assistant(response.content,
                              seq(|calls|, i requires 0 <= i < |calls| => Echo(calls[i].id, calls[i].name, calls[i].arguments))) &&
            forall i :: 0 <= i < |calls| ==> m[n + 1 + i] == Tool(calls[i].id, b.results[i].payload)
  {
    var b := RunCalls(exec, response.toolCalls, next, s.captured, s.errors);
    TurnLayout(s.messages, response.content, response.toolCalls, b.results);
  }

  /** The loop from a state on: at most MaxIterations requests. */
  function Loop(exec: Executor, oracle: Oracle, s: OrchState): (r: OrchState)
    requires s.modelCalls <= MaxIterations
    ensures s.modelCalls <= r.modelCalls <= MaxIterations
    ensures r.done || r.modelCalls == MaxIterations
    ensures |s.trace| <= |r.trace|
    decreases MaxIterations - s.modelCalls
  {
    if s.done || s.modelCalls == MaxIterations then s
    else Loop(exec, oracle, Turn(exec, oracle, s))
  }

  /** A running loop below the limit takes one more turn. */
  lemma LoopStep(exec: Executor, oracle: Oracle, s: OrchState)
    requires !s.done && s.modelCalls < MaxIterations
    ensures Loop(exec, oracle, s) == Loop(exec, oracle, Turn(exec, oracle, s))
  {
  }

  /** An endpoint that always answers with tool calls whose arguments all
      decode. */
  ghost predicate AlwaysCallsTools(oracle: Oracle)
  {
    forall n :: oracle(n).Reply? && oracle(n).toolCalls != [] &&
                forall k :: 0 <= k < |oracle(n).toolCalls| ==> oracle(n).toolCalls[k].arguments.Decoded?
  }

  /** Nothing but an answer without tool calls stops the orchestrator: against
      an endpoint that always asks for tools it makes all ten requests, even
      once every result and the summary have been captured. */
  lemma {:induction false} NeverStopsEarly(exec: Executor, oracle: Oracle, s: OrchState)
    requires AlwaysCallsTools(oracle)
    requires s.modelCalls <= MaxIterations && !s.done
    ensures Loop(exec, oracle, s).modelCalls == MaxIterations
    decreases MaxIterations - s.modelCalls
  {
    if s.modelCalls < MaxIterations {
      var a := oracle(s.next);
      assert a.Reply?;
      assert ParsedCalls(a.toolCalls).Ok?;
      assert Request(oracle, s.next, MaxRetries) == GatewayFrom(oracle, IsRetryable, s.next, MaxRetries, 0);
      assert AttemptOutcome(a).Ok?;
      NeverStopsEarly(exec, oracle, Turn(exec, oracle, s));
    }
  }

  /** The warning block listing every error, one bullet per line. */
  function ErrorBlock(errors: seq<string>): string
  {
    "\n\n\U{26A0}\U{FE0F} Errors encountered during processing:\n" +
    Join("\n", seq(|errors|, i requires 0 <= i < |errors| => "\U{2022} " + errors[i]))
  }

  const Rule: string := "=================================================="

  /** One indented bullet line per item, in order. */
  function Bullets(items: seq<string>): (r: seq<string>)
    ensures |r| == |items|
    ensures forall i :: 0 <= i < |items| ==> r[i] == "  \U{2022} " + items[i]
  {
    seq(|items|, i requires 0 <= i < |items| => "  \U{2022} " + items[i])
  }

  function SummaryHead(s: UnderwriterSummary): seq<string>
  {
    [Rule, "UNDERWRITER SUMMARY", Rule, "", "FINANCIAL METRICS:",
     "  \U{2022} " + s.dtiSummary, "  \U{2022} " + s.ltvSummary, "  \U{2022} " + s.ficoSummary,
     "", "DOCUMENTATION STATUS:"]
  }

  function SummaryTail(s: UnderwriterSummary): seq<string>
  {
    ["", "POLICY DECISION:", "  " + s.policyDecision, "", "UNDERWRITER NOTE:", "  " + s.underwriterNote, Rule]
  }

  /** The lines of format_summary: ten fixed lines, one bullet per document
      condition, then seven fixed lines, framed by rules of 50 '='. */
  function SummaryLines(s: UnderwriterSummary): (r: seq<string>)
    ensures |r| == 17 + |s.docConditions|
    ensures r[0] == Rule && r[1] == "UNDERWRITER SUMMARY" && r[|r| - 1] == Rule
    ensures r[..10] == SummaryHead(s)
    ensures forall i :: 0 <= i < |s.docConditions| ==> r[10 + i] == "  \U{2022} " + s.docConditions[i]
    ensures r[10 + |s.docConditions|..] == SummaryTail(s)
  {
    assert (SummaryHead(s) + Bullets(s.docConditions) + SummaryTail(s))[..10] == SummaryHead(s);
    assert (SummaryHead(s) + Bullets(s.docConditions) + SummaryTail(s))[10 + |s.docConditions|..] == SummaryTail(s);
    SummaryHead(s) + Bullets(s.docConditions) + SummaryTail(s)
  }

  /** format_summary: the lines joined by newlines. The text opens with the
      rule and the title line and closes with a newline and the rule. */
  function FormatSummary(s: UnderwriterSummary): (r: string)
    ensures StartsWith(r, Rule + "\n" + "UNDERWRITER SUMMARY\n")
    ensures EndsWith(r, "\n" + Rule)
  {
    var lines := SummaryLines(s);
    var r := Join("\n", lines);
    assert r == Rule + "\n" + ("UNDERWRITER SUMMARY" + "\n" + Join("\n", lines[2..])) by {
      assert lines[1..][1..] == lines[2..];
      assert r == lines[0] + "\n" + Join("\n", lines[1..]);
      assert Join("\n", lines[1..]) == lines[1] + "\n" + Join("\n", lines[2..]);
    }
    assert r[..|Rule + "\n" + "UNDERWRITER SUMMARY\n"|] == Rule + "\n" + "UNDERWRITER SUMMARY\n";
    JoinLast("\n", lines);
    assert r[|r| - |"\n" + Rule|..] == "\n" + Rule;
    r
  }

  /** When no line holds a newline, splitting the summary text on newlines
      gives back exactly its lines: ten fixed lines, one bullet per document
      condition and seven fixed lines. */
  lemma FormatSummaryLines(s: UnderwriterSummary)
    requires forall k :: 0 <= k < |SummaryLines(s)| ==> '\n' !in SummaryLines(s)[k]
    ensures Split(FormatSummary(s), '\n') == SummaryLines(s)
  {
    SplitJoin(SummaryLines(s), '\n');
  }

  /** The response text: the last answer's content ("" when there was no
      answer), replaced by the formatted summary when it is empty and a summary
      exists, then followed by the error block when errors occurred. */
  function FinalResponse(response: Option<Response>, summary: Option<UnderwriterSummary>, errors: seq<string>): (r: Option<string>)
    ensures var base := if response.Some? then response.value.content else Some("");
            var text := if summary.Some? && (base.None? || base.value == "") then Some(FormatSummary(summary.value)) else base;
            (errors == [] ==> r == text) &&
            (errors != [] && text.Some? && text.value != "" ==> r == Some(text.value + ErrorBlock(errors))) &&
            (errors != [] && !(text.Some? && text.value != "") ==> r == Some(ErrorBlock(errors)))
    ensures errors != [] ==> r.Some? && EndsWith(r.value, ErrorBlock(errors))
    ensures summary.Some? ==> r.Some? && r.value != ""
  {
    var base := if response.Some? then response.value.content else Some("");
    var text := if summary.Some? && (base.None? || base.value == "") then Some(FormatSummary(summary.value)) else base;
    if errors == [] then text
    else if text.Some? && text.value != "" then
      var r := text.value + ErrorBlock(errors);
      assert r[|r| - |ErrorBlock(errors)|..] == ErrorBlock(errors);
      Some(r)
    else
      assert ErrorBlock(errors)[|ErrorBlock(errors)| - |ErrorBlock(errors)|..] == ErrorBlock(errors);
      Some(ErrorBlock(errors))
  }

  /** The summary kept under summarize_for_underwriter, if it is one. */
  function SummaryOf(kept: Option<OrchOutput>): (r: Option<UnderwriterSummary>)
    ensures r.Some? <==> kept.Some? && kept.value.SummaryOut?
    ensures r.Some? ==> kept.value == SummaryOut(r.value)
  {
    if kept.Some? && kept.value.SummaryOut? then Some(kept.value.summary) else None
  }

  /** The dictionary run_orchestrator returns. */
  datatype OrchestratorResult = OrchestratorResult(
    response: Option<string>,
    trace: seq<TraceEntry>,
    verification: Option<OrchOutput>,
    policy: Option<OrchOutput>,
    summary: Option<OrchOutput>,
    errors: Option<seq<string>>)

  /** The result dictionary: errors only when there were any, and the last
      result of each tool. */
  function Assemble(s: OrchState): (r: OrchestratorResult)
    ensures r.errors.None? <==> s.errors == []
    ensures r.errors.Some? ==> r.errors.value == s.errors
    ensures r.response == FinalResponse(s.response, SummaryOf(s.captured.summary), s.errors)
    ensures r.trace == s.trace
    ensures r.verification == s.captured.verification && r.policy == s.captured.policy && r.summary == s.captured.summary
  {
    OrchestratorResult(FinalResponse(s.response, SummaryOf(s.captured.summary), s.errors), s.trace,
                       s.captured.verification, s.captured.policy, s.captured.summary,
                       if s.errors == [] then None else Some(s.errors))
  }

  datatype OrchRun = OrchRun(outcome: Result<OrchestratorResult>, final: OrchState)

  /** run_orchestrator: a failing look-up while writing the context message
      raises before any request; otherwise the loop runs and its state is
      assembled. */
  function RunOrchestrator(oracle: Oracle, start: nat, decode: string -> Option<Value>, appData: Args): (r: OrchRun)
    ensures FirstFieldError(appData, ContextFields).Some? ==>
              r == OrchRun(Err(FirstFieldError(appData, ContextFields).value), Start(start))
    ensures FirstFieldError(appData, ContextFields).None? ==> r.outcome == Ok(Assemble(r.final))
    ensures r.final.modelCalls <= MaxIterations
  {
    match FirstFieldError(appData, ContextFields)
    case Some(e) => OrchRun(Err(e), Start(start))
    case None =>
      var final := Loop(Execute(oracle, decode), oracle, Start(start));
      OrchRun(Ok(Assemble(final)), final)
  }

  /** The loop over one turn's tool calls, each answered by `exec`. */
  method ProcessToolCalls(exec: Executor, calls: seq<ToolCall>, next: nat, captured: Captured, errors: seq<string>)
    returns (b: Batch)
    ensures b == RunCalls(exec, calls, next, captured, errors)
  {
    var results: seq<ToolResult<OrchOutput>> := [];
    var trace: seq<TraceEntry> := [];
    var captured', errors', next' := captured, errors, next;
    for j := 0 to |calls|
      invariant Batch(results, trace, captured', errors', next') == RunCalls(exec, calls[..j], next, captured, errors)
    {
      assert calls[..j + 1][..j] == calls[..j];
      var call := calls[j];
      var run := exec(next', call);
      next' := run.next;
      var payload: Payload<OrchOutput>;
      if run.result.Ok? {
        var out := run.result.value;
        if call.name == "run_verification_agent" {
          captured' := captured'.(verification := Some(out));
        } else if call.name == "run_policy_agent" {
          captured' := captured'.(policy := Some(out));
        } else if call.name == "summarize_for_underwriter" {
          captured' := captured'.(summary := Some(out));
        }
        payload := Output(out);
      } else {
        errors' := errors' + [run.result.error.Message()];
        payload := ErrorPayload(run.result.error.Message());
      }
      results := results + [ToolResult(call.id, call.name, payload)];
      trace := trace + [TraceEntry(call.name, call.arguments, payload)];
    }
    assert calls[..|calls|] == calls;
    b := Batch(results, trace, captured', errors', next');
  }

  /** Answers one turn's tool calls: runs them, then appends the assistant
      message and the tool messages. */
  method AnswerCalls(exec: Executor, s: OrchState, response: Response, next: nat) returns (s': OrchState)
    ensures s' == Answered(exec, s, response, next)
  {
    var b := ProcessToolCalls(exec, response.toolCalls, next, s.captured, s.errors);
    var messages := s.messages + [Assistant(response.content, Echoes(b.results, response.toolCalls))];
    messages := AppendToolMessages(messages, b.results);
    s' := OrchState(b.next, s.modelCalls + 1, messages, s.trace + b.trace, b.captured, b.errors, Some(response), false);
  }

  /** One pass of the loop: one request, then either the end of the loop or
      the answered tool calls. */
  method TakeTurn(exec: Executor, oracle: Oracle, s: OrchState) returns (s': OrchState)
    ensures s' == Turn(exec, oracle, s)
  {
    var result, attempts, _ := CallWithTools(oracle, s.next, MaxRetries);
    ghost var g := GatewayRun(result, attempts);
    var next := s.next + attempts;
    if result.Err? {
      return s.(next := next, modelCalls := s.modelCalls + 1, errors := s.errors + [result.error.Message()], done := true);
    }
    if |result.value.toolCalls| == 0 {
      return s.(next := next, modelCalls := s.modelCalls + 1, response := Some(result.value), done := true);
    }
    s' := AnswerCalls(exec, s, result.value, next);
    AnsweredAfterRequest(exec, s, g, result.value, next);
  }

  /** The orchestrator loop, from the context message on, with each tool call
      answered by `exec`. */
  method OrchestratorLoop(exec: Executor, oracle: Oracle, start: nat) returns (final: OrchState)
    ensures final == Loop(exec, oracle, Start(start))
  {
    final := Start(start);
    while !final.done && final.modelCalls < MaxIterations
      invariant final.modelCalls <= MaxIterations
      invariant Loop(exec, oracle, final) == Loop(exec, oracle, Start(start))
      decreases MaxIterations - final.modelCalls
    {
      LoopStep(exec, oracle, final);
      final := TakeTurn(exec, oracle, final);
    }
  }

  /** run_orchestrator, with every tool call answered by
      execute_orchestrator_tool. Returns the result and the number of the next
      endpoint attempt. */
  method RunOrchestratorAgent(oracle: Oracle, start: nat, decode: string -> Option<Value>, appData: Args)
    returns (outcome: Result<OrchestratorResult>, next: nat)
    ensures var run := RunOrchestrator(oracle, start, decode, appData);
            outcome == run.outcome && next == run.final.next
  {
    var contextError := FirstFieldError(appData, ContextFields);
    if contextError.Some? {
      return Err(contextError.value), start;
    }
    var final := OrchestratorLoop(Execute(oracle, decode), oracle, start);
    var response := FinalResponse(final.response, SummaryOf(final.captured.summary), final.errors);
    outcome := Ok(OrchestratorResult(response, final.trace, final.captured.verification, final.captured.policy,
                                     final.captured.summary, if final.errors == [] then None else Some(final.errors)));
    next := final.next;
  }
}
