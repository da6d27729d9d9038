/** The verification agent: a bounded tool-calling loop in which the model asks
    for compute_dti, compute_ltv and check_doc_completeness, every call is
    validated and run, failures are recorded without stopping the loop, and
    the captured results are assembled with defaults. */
module VerificationAgent {
  import opened Text
  import opened Values
  import opened Models
  import opened Calculations
  import opened Gateway
  import opened Chat
  import opened Prompts

  const MaxIterations: nat := 5

  /** The arguments each tool requires, in the order they are checked. They
      are also the tool's only parameters. */
  const ToolRequiredArgs: map<string, seq<string>> :=
    map["compute_dti" := ["income", "debts"],
        "compute_ltv" := ["loan_amount", "property_value"],
        "check_doc_completeness" := ["uploaded_docs"]]

  /** The application fields the first user message uses, in order. */
  const PromptFields: seq<Field> :=
    [Money("income"), Plain("debts"), Money("loan_amount"), Money("property_value"), Plain("uploaded_docs")]

  /** The position of the first required argument that is absent or None,
      or |required| when there is none. */
  function FirstUnusable(required: seq<string>, args: Args): (r: nat)
    ensures r <= |required|
    ensures forall j :: 0 <= j < r ==> Usable(args, required[j])
    ensures r < |required| ==> !Usable(args, required[r])
  {
    if |required| == 0 || !Usable(args, required[0]) then 0
    else
      var r := FirstUnusable(required[1..], args);
      assert forall j :: 1 <= j < |required| ==> required[j] == required[1..][j - 1];
      r + 1
  }

  /** validate_tool_arguments: None when the call may run, else what it raises. */
  function ValidateToolArguments(name: string, args: Args): (r: Option<Exception>)
    ensures name !in ToolRequiredArgs ==> r == Some(ToolExecutionError(name, "Unknown tool: " + name))
    ensures name in ToolRequiredArgs ==>
              (r.None? <==> forall k :: 0 <= k < |ToolRequiredArgs[name]| ==> Usable(args, ToolRequiredArgs[name][k]))
    ensures name in ToolRequiredArgs && r.Some? ==>
              var i := FirstUnusable(ToolRequiredArgs[name], args);
              i < |ToolRequiredArgs[name]| && r.value.ValidationError? && r.value.field == ToolRequiredArgs[name][i]
  {
    if name !in ToolRequiredArgs then Some(ToolExecutionError(name, "Unknown tool: " + name))
    else
      var required := ToolRequiredArgs[name];
      var i := FirstUnusable(required, args);
      if i == |required| then None
      else if Lookup(args, required[i]).None? then
        Some(ValidationError(required[i], "Required argument '" + required[i] + "' missing for tool '" + name + "'"))
      else
        Some(ValidationError(required[i], "Argument '" + required[i] + "' cannot be None"))
  }

  /** The first keyword argument, in the order given, that is not one of the
      parameters. */
  function FirstUnexpected(args: Args, params: seq<string>): (r: Option<string>)
    ensures r.None? <==> forall k :: 0 <= k < |args| ==> args[k].0 in params
    ensures r.Some? ==> r.value !in params && exists k :: 0 <= k < |args| && args[k].0 == r.value
  {
    if |args| == 0 then None
    else if args[0].0 !in params then Some(args[0].0)
    else
      assert forall k :: 1 <= k < |args| ==> args[k] == args[1..][k - 1];
      FirstUnexpected(args[1..], params)
  }

  /** What a verification tool returns. */
  datatype Output = DtiOut(dti: DtiResult) | LtvOut(ltv: LtvResult) | DocOut(doc: DocResult)

  /** The exceptions execute_tool lets through: its own two kinds unchanged,
      anything else as a ToolExecutionError naming the tool. */
  function Rethrow(name: string, e: Exception): (r: Exception)
    ensures r.ValidationError? || r.ToolExecutionError?
    ensures e.ValidationError? || e.ToolExecutionError? ==> r == e
  {
    if e.ValidationError? || e.ToolExecutionError? then e else ToolExecutionError(name, e.Message())
  }

  /** The implementation called with the arguments as keywords. */
  function Invoke(name: string, args: Args): Result<Output>
  {
    if name == "compute_dti" then
      match ComputeDti(GetOr(args, "income", Null), GetOr(args, "debts", Null))
      case Ok(d) => Ok(DtiOut(d))
      case Err(e) => Err(e)
    else if name == "compute_ltv" then
      match ComputeLtv(GetOr(args, "loan_amount", Null), GetOr(args, "property_value", Null))
      case Ok(d) => Ok(LtvOut(d))
      case Err(e) => Err(e)
    else
      match CheckDocCompleteness(GetOr(args, "uploaded_docs", Null))
      case Ok(d) => Ok(DocOut(d))
      case Err(e) => Err(e)
  }

  /** The TypeError a Python call raises for a keyword the function does not
      take, wrapped by execute_tool. */
  function UnexpectedKeyword(name: string, k: string): Exception
  {
    ToolExecutionError(name, name + "() got an unexpected keyword argument '" + k + "'")
  }

  /** execute_tool: validate, call the implementation with the arguments as
      keywords, and convert foreign exceptions. */
  function ExecuteTool(name: string, args: Args): (r: Result<Output>)
    // whatever fails is caught by the loop's handler
    ensures r.Err? ==> r.error.ValidationError? || r.error.ToolExecutionError?
  {
    match ValidateToolArguments(name, args)
    case Some(e) => Err(e)
    case None =>
      match FirstUnexpected(args, ToolRequiredArgs[name])
      case Some(k) => Err(UnexpectedKeyword(name, k))
      case None =>
        match Invoke(name, args)
        case Ok(out) => Ok(out)
        case Err(e) => Err(Rethrow(name, e))
  }

  /** What execute_tool promises: validation comes first, an unexpected
      keyword is refused before the implementation runs, and a successful call
      returns the output of the tool named, computed from the arguments given. */
  lemma ExecuteToolSpec(name: string, args: Args)
    ensures ValidateToolArguments(name, args).Some? ==>
              ExecuteTool(name, args) == Err(ValidateToolArguments(name, args).value)
    ensures ValidateToolArguments(name, args).None? && FirstUnexpected(args, ToolRequiredArgs[name]).Some? ==>
              ExecuteTool(name, args).Err? && ExecuteTool(name, args).error.ToolExecutionError?
    ensures ExecuteTool(name, args).Ok? ==>
              ValidateToolArguments(name, args).None? && FirstUnexpected(args, ToolRequiredArgs[name]).None?
    ensures ExecuteTool(name, args).Ok? && name == "compute_dti" ==>
              ComputeDti(GetOr(args, "income", Null), GetOr(args, "debts", Null)) == Ok(ExecuteTool(name, args).value.dti)
    ensures ExecuteTool(name, args).Ok? && name == "compute_ltv" ==>
              ComputeLtv(GetOr(args, "loan_amount", Null), GetOr(args, "property_value", Null)) == Ok(ExecuteTool(name, args).value.ltv)
    ensures ExecuteTool(name, args).Ok? && name == "check_doc_completeness" ==>
              CheckDocCompleteness(GetOr(args, "uploaded_docs", Null)) == Ok(ExecuteTool(name, args).value.doc)
  {
  }

  /** A successful call returns the kind of output of the tool it names. */
  lemma OutputMatchesName(name: string, args: Args)
    ensures ExecuteTool(name, args).Ok? ==>
              (ExecuteTool(name, args).value.DtiOut? <==> name == "compute_dti") &&
              (ExecuteTool(name, args).value.LtvOut? <==> name == "compute_ltv") &&
              (ExecuteTool(name, args).value.DocOut? <==> name == "check_doc_completeness")
  {
  }

  /** A built-in exception inside a tool reaches the loop as a
      ToolExecutionError naming the tool and carrying the exception's text. */
  lemma DocCheckOnNumberIsWrapped(n: int)
    ensures ExecuteTool("check_doc_completeness", [("uploaded_docs", Int(n))]) ==
            Err(ToolExecutionError("check_doc_completeness", NotIterable(Int(n)).Message()))
  {
    var args := [("uploaded_docs", Int(n))];
    assert Usable(args, "uploaded_docs");
    assert ToolRequiredArgs["check_doc_completeness"] == ["uploaded_docs"];
    assert FirstUnusable(["uploaded_docs"], args) == 1;
    assert ValidateToolArguments("check_doc_completeness", args).None?;
    assert FirstUnexpected(args, ["uploaded_docs"]).None?;
    assert GetOr(args, "uploaded_docs", Null) == Int(n);
  }

  /** An extra keyword makes the call fail even though every required
      argument is present. */
  lemma ExtraKeywordIsRejected()
    ensures ExecuteTool("compute_dti", [("income", Int(100)), ("debts", List([])), ("fico", Int(700))]) ==
            Err(UnexpectedKeyword("compute_dti", "fico"))
  {
    var args := [("income", Int(100)), ("debts", List([])), ("fico", Int(700))];
    assert Usable(args, "income") && Usable(args, "debts");
    assert ToolRequiredArgs["compute_dti"] == ["income", "debts"];
    assert FirstUnusable(["income", "debts"], args) == 2;
    assert ValidateToolArguments("compute_dti", args).None?;
    assert args[1..][1..] == [("fico", Int(700))];
    assert "fico" !in ["income", "debts"];
    assert FirstUnexpected(args, ["income", "debts"]) == Some("fico");
  }

  /** The results captured so far: the last successful output of each tool. */
  datatype Captured = Captured(dti: Option<DtiResult>, ltv: Option<LtvResult>, doc: Option<DocResult>)

  function Store(c: Captured, out: Output): Captured
  {
    match out
    case DtiOut(d) => c.(dti := Some(d))
    case LtvOut(d) => c.(ltv := Some(d))
    case DocOut(d) => c.(doc := Some(d))
  }

  predicate AllCaptured(c: Captured)
  {
    c.dti.Some? && c.ltv.Some? && c.doc.Some?
  }

  /** How each call of a turn is answered. The inner loop below is stated for
      any such answer; the agent uses execute_tool's. */
  type Executor = ToolCall -> Result<Output>

  const Execute: Executor := (call: ToolCall) => ExecuteTool(call.name, call.arguments)

  /** The tool_results entry of one call: its result, or the error's text. */
  function ResultOf(exec: Executor, call: ToolCall): ToolResult<Output>
  {
    match exec(call)
    case Ok(out) => ToolResult(call.id, call.name, Output(out))
    case Err(e) => ToolResult(call.id, call.name, ErrorPayload(e.Message()))
  }

  /** The texts of the failed calls, in order. */
  function Failures(exec: Executor, calls: seq<ToolCall>): (r: seq<string>)
    ensures |r| <= |calls|
    ensures r == [] <==> forall k :: 0 <= k < |calls| ==> exec(calls[k]).Ok?
  {
    if |calls| == 0 then []
    else
      var init := calls[..|calls| - 1];
      var last := calls[|calls| - 1];
      assert forall k :: 0 <= k < |init| ==> init[k] == calls[k];
      match exec(last)
      case Ok(_) => Failures(exec, init)
      case Err(e) => Failures(exec, init) + [e.Message()]
  }

  /** Some call of the list produced this output. */
  predicate Produced(exec: Executor, calls: seq<ToolCall>, out: Output)
  {
    exists i :: 0 <= i < |calls| && exec(calls[i]) == Ok(out)
  }

  /** The state one turn's calls build up. */
  datatype Batch = Batch(results: seq<ToolResult<Output>>, captured: Captured, errors: seq<string>)

  function CallStep(exec: Executor, b: Batch, call: ToolCall): Batch
  {
    match exec(call)
    case Ok(out) => Batch(b.results + [ToolResult(call.id, call.name, Output(out))], Store(b.captured, out), b.errors)
    case Err(e) => Batch(b.results + [ToolResult(call.id, call.name, ErrorPayload(e.Message()))], b.captured, b.errors + [e.Message()])
  }

  /** The inner loop over one turn's tool calls: one result per call. */
  function RunCalls(exec: Executor, calls: seq<ToolCall>, captured: Captured, errors: seq<string>): (b: Batch)
    ensures |b.results| == |calls|
    decreases |calls|
  {
    if |calls| == 0 then Batch([], captured, errors)
    else CallStep(exec, RunCalls(exec, calls[..|calls| - 1], captured, errors), calls[|calls| - 1])
  }

  /** Every call is answered, in order and with its own id, by its result or
      its error's text. */
  lemma {:induction false} RunCallsResults(exec: Executor, calls: seq<ToolCall>, captured: Captured, errors: seq<string>)
    ensures var b := RunCalls(exec, calls, captured, errors);
            forall i :: 0 <= i < |calls| ==> b.results[i] == ResultOf(exec, calls[i])
    decreases |calls|
  {
    if |calls| > 0 {
      var init := calls[..|calls| - 1];
      RunCallsResults(exec, init, captured, errors);
      assert forall k :: 0 <= k < |init| ==> init[k] == calls[k];
    }
  }

  /** A failure is recorded, in order, while the later calls still run. */
  lemma {:induction false} RunCallsFailures(exec: Executor, calls: seq<ToolCall>, captured: Captured, errors: seq<string>)
    ensures RunCalls(exec, calls, captured, errors).errors == errors + Failures(exec, calls)
    decreases |calls|
  {
    if |calls| > 0 {
      RunCallsFailures(exec, calls[..|calls| - 1], captured, errors);
    }
  }

  /** The captured results hold an output of this kind. */
  predicate Holds(c: Captured, out: Output)
  {
    match out
    case DtiOut(_) => c.dti.Some?
    case LtvOut(_) => c.ltv.Some?
    case DocOut(_) => c.doc.Some?
  }

  /** The captured results hold exactly this output. */
  predicate Has(c: Captured, out: Output)
  {
    match out
    case DtiOut(d) => c.dti == Some(d)
    case LtvOut(d) => c.ltv == Some(d)
    case DocOut(d) => c.doc == Some(d)
  }

  /** A result captured after the calls is either the one held before or the
      output of one of the calls. */
  lemma {:induction false} CapturedFromCalls(exec: Executor, calls: seq<ToolCall>, captured: Captured, errors: seq<string>)
    ensures forall o :: Has(RunCalls(exec, calls, captured, errors).captured, o) ==> Has(captured, o) || Produced(exec, calls, o)
    decreases |calls|
  {
    if |calls| > 0 {
      var init := calls[..|calls| - 1];
      var last := calls[|calls| - 1];
      var prev := RunCalls(exec, init, captured, errors);
      CapturedFromCalls(exec, init, captured, errors);
      ProducedByPrefix(exec, init, calls);
      assert RunCalls(exec, calls, captured, errors) == CallStep(exec, prev, last);
      forall o | Has(RunCalls(exec, calls, captured, errors).captured, o)
        ensures Has(captured, o) || Produced(exec, calls, o)
      {
        if exec(last).Ok? && o.DtiOut? == exec(last).value.DtiOut? && o.LtvOut? == exec(last).value.LtvOut? {
          assert o == exec(last).value;
          assert exec(calls[|calls| - 1]) == Ok(o);
        } else if exec(last).Ok? {
          assert Has(prev.captured, o);
        }
      }
    }
  }

  /** The three figures the agent reports. */
  datatype Kind = DtiKind | LtvKind | DocKind

  function KindOf(out: Output): Kind
  {
    match out
    case DtiOut(_) => DtiKind
    case LtvOut(_) => LtvKind
    case DocOut(_) => DocKind
  }

  /** The captured result of one kind, as an output. */
  function Slot(c: Captured, k: Kind): (r: Option<Output>)
    ensures r.Some? ==> KindOf(r.value) == k && Has(c, r.value)
  {
    match k
    case DtiKind => if c.dti.Some? then Some(DtiOut(c.dti.value)) else None
    case LtvKind => if c.ltv.Some? then Some(LtvOut(c.ltv.value)) else None
    case DocKind => if c.doc.Some? then Some(DocOut(c.doc.value)) else None
  }

  /** The output of the last successful result of one kind: no later result
      carries an output of that kind. */
  function LastOfKind(results: seq<ToolResult<Output>>, k: Kind): (r: Option<Output>)
    ensures r.Some? ==> KindOf(r.value) == k &&
                        exists i :: 0 <= i < |results| && results[i].payload == Output(r.value) &&
                                    forall j :: i < j < |results| && results[j].payload.Output? ==>
                                                  KindOf(results[j].payload.value) != k
    ensures r.None? ==> forall i :: 0 <= i < |results| && results[i].payload.Output? ==>
                                      KindOf(results[i].payload.value) != k
  {
    if |results| == 0 then None
    else
      var last := results[|results| - 1];
      if last.payload.Output? && KindOf(last.payload.value) == k then Some(last.payload.value)
      else
        var r := LastOfKind(results[..|results| - 1], k);
        assert forall i :: 0 <= i < |results| - 1 ==> results[..|results| - 1][i] == results[i];
        r
  }

  /** The calls overwrite: after them, each figure is the output of the last
      call that produced one of its kind, or the one held before when no call
      did. */
  lemma {:induction false} KeptIsLastOutput(exec: Executor, calls: seq<ToolCall>, captured: Captured,
                                            errors: seq<string>, k: Kind)
    ensures var b := RunCalls(exec, calls, captured, errors);
            Slot(b.captured, k) ==
              if LastOfKind(b.results, k).Some? then LastOfKind(b.results, k) else Slot(captured, k)
    decreases |calls|
  {
    if |calls| > 0 {
      var init := calls[..|calls| - 1];
      var prev := RunCalls(exec, init, captured, errors);
      var b := RunCalls(exec, calls, captured, errors);
      var last := calls[|calls| - 1];
      KeptIsLastOutput(exec, init, captured, errors, k);
      assert b == CallStep(exec, prev, last);
      assert b.results[..|calls| - 1] == prev.results;
      if exec(last).Ok? {
        SlotStore(prev.captured, exec(last).value, k);
      }
    }
  }

  lemma SlotStore(c: Captured, out: Output, k: Kind)
    ensures Slot(Store(c, out), k) == if KindOf(out) == k then Some(out) else Slot(c, k)
  {
  }

  /** An output produced by a prefix of the calls is produced by the calls. */
  lemma ProducedByPrefix(exec: Executor, init: seq<ToolCall>, calls: seq<ToolCall>)
    requires init <= calls
    ensures forall o :: Produced(exec, init, o) ==> Produced(exec, calls, o)
  {
    forall o | Produced(exec, init, o)
      ensures Produced(exec, calls, o)
    {
      var i :| 0 <= i < |init| && exec(init[i]) == Ok(o);
      assert calls[i] == init[i];
    }
  }

  /** Every kind of output some call produced is captured after the calls. */
  lemma {:induction false} EveryOutputCaptured(exec: Executor, calls: seq<ToolCall>, captured: Captured, errors: seq<string>)
    ensures forall i :: 0 <= i < |calls| && exec(calls[i]).Ok? ==>
              Holds(RunCalls(exec, calls, captured, errors).captured, exec(calls[i]).value)
    decreases |calls|
  {
    if |calls| > 0 {
      var init := calls[..|calls| - 1];
      EveryOutputCaptured(exec, init, captured, errors);
      assert forall k :: 0 <= k < |init| ==> init[k] == calls[k];
    }
  }

  /** Stores a successful result under the name of the tool that was called. */
  method StoreByName(c: Captured, name: string, out: Output) returns (c': Captured)
    requires out.DtiOut? <==> name == "compute_dti"
    requires out.LtvOut? <==> name == "compute_ltv"
    requires out.DocOut? <==> name == "check_doc_completeness"
    ensures c' == Store(c, out)
  {
    c' := c;
    if name == "compute_dti" {
      c' := c'.(dti := Some(out.dti));
    } else if name == "compute_ltv" {
      c' := c'.(ltv := Some(out.ltv));
    } else if name == "check_doc_completeness" {
      c' := c'.(doc := Some(out.doc));
    }
  }

  /** The loop over one turn's tool calls. */
  method ProcessToolCalls(calls: seq<ToolCall>, captured: Captured, errors: seq<string>)
    returns (results: seq<ToolResult<Output>>, captured': Captured, errors': seq<string>)
    ensures Batch(results, captured', errors') == RunCalls(Execute, calls, captured, errors)
  {
    results, captured', errors' := [], captured, errors;
    for j := 0 to |calls|
      invariant Batch(results, captured', errors') == RunCalls(Execute, calls[..j], captured, errors)
    {
      assert calls[..j + 1][..j] == calls[..j];
      var call := calls[j];
      var result := ExecuteTool(call.name, call.arguments);
      OutputMatchesName(call.name, call.arguments);
      if result.Ok? {
        captured' := StoreByName(captured', call.name, result.value);
        results := results + [ToolResult(call.id, call.name, Output(result.value))];
      } else {
        errors' := errors' + [result.error.Message()];
        results := results + [ToolResult(call.id, call.name, ErrorPayload(result.error.Message()))];
      }
    }
    assert calls[..|calls|] == calls;
  }

  /** The agent's local variables between turns. `next` is the number of the
      next endpoint attempt, `modelCalls` the number of gateway requests made,
      and `done` says the loop has exited. */
  datatype VerificationState = VerificationState(
    next: nat,
    modelCalls: nat,
    messages: seq<Message<Output>>,
    captured: Captured,
    errors: seq<string>,
    response: Option<Response>,
    done: bool)

  function Start(start: nat): VerificationState
  {
    VerificationState(start, 0, [SystemPrompt, UserPrompt], Captured(None, None, None), [], None, false)
  }

  /** One pass of the agent loop. */
  function Turn(exec: Executor, oracle: Oracle, s: VerificationState): (r: VerificationState)
    ensures r.modelCalls == s.modelCalls + 1
    ensures r.next == s.next + Request(oracle, s.next, MaxRetries).attempts
    // the loop exits on an API error, on a reply without tool calls, or once
    // all three results are captured
    ensures r.done <==> Request(oracle, s.next, MaxRetries).result.Err? ||
                        Request(oracle, s.next, MaxRetries).result.value.toolCalls == [] ||
                        AllCaptured(r.captured)
  {
    AfterRequest(exec, s, Request(oracle, s.next, MaxRetries))
  }

  /** The rest of a pass once the request has ended: an API error is recorded
      and ends the loop, an answer without tool calls ends it, and an answer
      with tool calls is answered. */
  function AfterRequest(exec: Executor, s: VerificationState, g: GatewayRun): (r: VerificationState)
    ensures r.modelCalls == s.modelCalls + 1 && r.next == s.next + g.attempts
    ensures r.done <==> g.result.Err? || g.result.value.toolCalls == [] || AllCaptured(r.captured)
  {
    var next := s.next + g.attempts;
    match g.result
    case Err(e) =>
      s.(next := next, modelCalls := s.modelCalls + 1, errors := s.errors + [e.Message()], done := true)
    case Ok(response) =>
      if |response.toolCalls| == 0 then
        s.(next := next, modelCalls := s.modelCalls + 1, response := Some(response), done := true)
      else Answered(exec, s, response, next)
  }

  /** A turn whose answer asks for tools: every call is run and answered, and
      the loop ends once all three results are captured. */
  function Answered(exec: Executor, s: VerificationState, response: Response, next: nat): (r: VerificationState)
    ensures r.modelCalls == s.modelCalls + 1 && r.next == next && r.response == Some(response)
    ensures r.done <==> AllCaptured(r.captured)
  {
    var b := RunCalls(exec, response.toolCalls, s.captured, s.errors);
    VerificationState(
      next, s.modelCalls + 1,
      s.messages + [Assistant(response.content, Echoes(b.results, response.toolCalls))] + ToolMessages(b.results),
      b.captured, b.errors, Some(response), AllCaptured(b.captured))
  }

  /** An answer with tool calls makes the rest of the pass an answered turn. */
  lemma AnsweredAfterRequest(exec: Executor, s: VerificationState, g: GatewayRun, response: Response)
    requires g.result == Ok(response) && response.toolCalls != []
    ensures AfterRequest(exec, s, g) == Answered(exec, s, response, s.next + g.attempts)
  {
  }

  /** An answered turn appends one assistant message echoing every call's id,
      name and arguments in order, then one tool message per call carrying the
      same id and that call's result. */
  lemma AnsweredMessages(exec: Executor, s: VerificationState, response: Response, next: nat)
    requires response.toolCalls != []
    ensures var calls := response.toolCalls;
            var m := Answered(exec, s, response, next).messages;
            var n := |s.messages|;
            |m| == n + 1 + |calls| && m[..n] == s.messages &&
            m[n] == Assistant(response.content,
                              seq(|calls|, i requires 0 <= i < |calls| => Echo(calls[i].id, calls[i].name, calls[i].arguments))) &&
            forall i :: 0 <= i < |calls| ==> m[n + 1 + i] == Tool(calls[i].id, ResultOf(exec, calls[i]).payload)
  {
    var b := RunCalls(exec, response.toolCalls, s.captured, s.errors);
    RunCallsResults(exec, response.toolCalls, s.captured, s.errors);
    TurnLayout(s.messages, response.content, response.toolCalls, b.results);
  }

  /** The agent loop from a state on: at most MaxIterations requests in all,
      and messages are only ever appended. */
  function Loop(exec: Executor, oracle: Oracle, s: VerificationState): (r: VerificationState)
    requires s.modelCalls <= MaxIterations
    ensures s.modelCalls <= r.modelCalls <= MaxIterations
    ensures s.next <= r.next
    ensures |s.messages| <= |r.messages| && r.messages[..|s.messages|] == s.messages
    ensures r.done || r.modelCalls == MaxIterations
    decreases MaxIterations - s.modelCalls
  {
    if s.done || s.modelCalls == MaxIterations then s
    else
      var t := Turn(exec, oracle, s);
      assert t.messages[..|s.messages|] == s.messages;
      Loop(exec, oracle, t)
  }

  /** "Errors encountered: " and the recorded errors joined by "; ". */
  function ErrorNote(errors: seq<string>): string
  {
    "Errors encountered: " + Join("; ", errors)
  }

  /** The notes: the last response's content, with the error note appended
      after a blank line, or standing alone when there is no content. */
  function Notes(response: Option<Response>, errors: seq<string>): (r: Option<string>)
    ensures errors == [] ==> r == (if response.Some? then response.value.content else None)
    ensures errors != [] ==> r.Some? && EndsWith(r.value, ErrorNote(errors))
    ensures errors != [] && response.Some? && response.value.content.Some? && response.value.content.value != "" ==>
              r == Some(response.value.content.value + "\n\n" + ErrorNote(errors))
    ensures errors != [] && !(response.Some? && response.value.content.Some? && response.value.content.value != "") ==>
              r == Some(ErrorNote(errors))
  {
    var content := if response.Some? then response.value.content else None;
    if errors == [] then content
    else if content.Some? && content.value != "" then
      var r := content.value + "\n\n" + ErrorNote(errors);
      assert r[|r| - |ErrorNote(errors)|..] == ErrorNote(errors);
      Some(r)
    else
      assert ErrorNote(errors)[|ErrorNote(errors)| - |ErrorNote(errors)|..] == ErrorNote(errors);
      Some(ErrorNote(errors))
  }

  /** The VerificationResult built from whatever was captured: a missing DTI
      or LTV reads 0.0 and missing documents read as an empty list. */
  function Assemble(s: VerificationState): (r: VerificationResult)
    ensures r.dtiPercent == (if s.captured.dti.Some? then s.captured.dti.value.percent else 0.0)
    ensures r.ltvPercent == (if s.captured.ltv.Some? then s.captured.ltv.value.percent else 0.0)
    ensures r.missingDocs == (if s.captured.doc.Some? then s.captured.doc.value.missingDocs else [])
    ensures r.notes == Notes(s.response, s.errors)
  {
    VerificationResult(
      if s.captured.dti.Some? then s.captured.dti.value.percent else 0.0,
      if s.captured.ltv.Some? then s.captured.ltv.value.percent else 0.0,
      if s.captured.doc.Some? then s.captured.doc.value.missingDocs else [],
      Notes(s.response, s.errors))
  }

  /** How a run of the agent ended, and the loop's final state. */
  datatype VerificationRun = VerificationRun(outcome: Result<VerificationResult>, final: VerificationState)

  /** run_verification_agent: a failing look-up while writing the prompt raises
      before any request; otherwise the loop runs and its state is assembled. */
  function RunVerification(oracle: Oracle, start: nat, appData: Args): (r: VerificationRun)
    ensures FirstFieldError(appData, PromptFields).Some? ==>
              r == VerificationRun(Err(FirstFieldError(appData, PromptFields).value), Start(start))
    ensures FirstFieldError(appData, PromptFields).None? ==> r.outcome == Ok(Assemble(r.final))
    ensures r.final.modelCalls <= MaxIterations && start <= r.final.next
    ensures r.outcome.Err? ==> r.outcome.error.PythonError?
  {
    match FirstFieldError(appData, PromptFields)
    case Some(e) => VerificationRun(Err(e), Start(start))
    case None =>
      var final := Loop(Execute, oracle, Start(start));
      VerificationRun(Ok(Assemble(final)), final)
  }

  /** One pass of the loop: one request, then either the end of the loop or
      the answered tool calls, ending the loop once all three results are in. */
  method TakeTurn(oracle: Oracle, s: VerificationState) returns (s': VerificationState)
    ensures s' == Turn(Execute, oracle, s)
  {
    var result, attempts, _ := CallWithTools(oracle, s.next, MaxRetries);
    ghost var g := GatewayRun(result, attempts);
    var next := s.next + attempts;
    if result.Err? {
      return s.(next := next, modelCalls := s.modelCalls + 1, errors := s.errors + [result.error.Message()], done := true);
    }
    if |result.value.toolCalls| == 0 {
      return s.(next := next, modelCalls := s.modelCalls + 1, response := Some(result.value), done := true);
    }
    s' := AnswerCalls(s, result.value, next);
    AnsweredAfterRequest(Execute, s, g, result.value);
  }

  /** Answers one turn's tool calls: runs them, then appends the assistant
      message and the tool messages. */
  method AnswerCalls(s: VerificationState, response: Response, next: nat) returns (s': VerificationState)
    ensures s' == Answered(Execute, s, response, next)
  {
    var results, captured, errors := ProcessToolCalls(response.toolCalls, s.captured, s.errors);
    var messages := s.messages + [Assistant(response.content, Echoes(results, response.toolCalls))];
    messages := AppendToolMessages(messages, results);
    s' := VerificationState(next, s.modelCalls + 1, messages, captured, errors, Some(response), AllCaptured(captured));
  }

  /** A running loop below the limit takes one more turn. */
  lemma LoopStep(exec: Executor, oracle: Oracle, s: VerificationState)
    requires !s.done && s.modelCalls < MaxIterations
    ensures Loop(exec, oracle, s) == Loop(exec, oracle, Turn(exec, oracle, s))
  {
  }

  /** The agent loop, from the first user message on. */
  method VerificationLoop(oracle: Oracle, start: nat) returns (final: VerificationState)
    ensures final == Loop(Execute, oracle, Start(start))
  {
    final := Start(start);
    while !final.done && final.modelCalls < MaxIterations
      invariant final.modelCalls <= MaxIterations
      invariant Loop(Execute, oracle, final) == Loop(Execute, oracle, Start(start))
      decreases MaxIterations - final.modelCalls
    {
      LoopStep(Execute, oracle, final);
      final := TakeTurn(oracle, final);
    }
  }

  /** run_verification_agent. Returns the result, the conversation, the number
      of gateway requests and the number of the next endpoint attempt. */
  method RunVerificationAgent(oracle: Oracle, start: nat, appData: Args)
    returns (outcome: Result<VerificationResult>, messages: seq<Message<Output>>, modelCalls: nat, next: nat)
    ensures var run := RunVerification(oracle, start, appData);
            outcome == run.outcome && messages == run.final.messages &&
            modelCalls == run.final.modelCalls && next == run.final.next
  {
    var promptError := FirstFieldError(appData, PromptFields);
    if promptError.Some? {
      return Err(promptError.value), Start(start).messages, 0, start;
    }
    var final := VerificationLoop(oracle, start);
    outcome := Ok(VerificationResult(
      if final.captured.dti.Some? then final.captured.dti.value.percent else 0.0,
      if final.captured.ltv.Some? then final.captured.ltv.value.percent else 0.0,
      if final.captured.doc.Some? then final.captured.doc.value.missingDocs else [],
      Notes(final.response, final.errors)));
    messages, modelCalls, next := final.messages, final.modelCalls, final.next;
  }

  /** run_verification_agent makes at most five gateway requests. */
  lemma CallBound(oracle: Oracle, start: nat, appData: Args)
    ensures RunVerification(oracle, start, appData).final.modelCalls <= 5
  {
  }

  /** With no tool ever succeeding, every figure takes its default. */
  lemma DefaultsWhenNothingCaptured(s: VerificationState)
    requires s.captured == Captured(None, None, None)
    ensures Assemble(s).dtiPercent == 0.0 && Assemble(s).ltvPercent == 0.0 && Assemble(s).missingDocs == []
  {
  }
}
