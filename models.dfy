/** The exception classes and the records that the agents exchange. */
module Models {
  import opened Text
  import opened Values

  /** Every exception the agents raise or catch. The first three are the
      AgentError subclasses; PythonError stands for any built-in exception
      (TypeError, AttributeError, ValueError, a record-validation failure)
      by its class name and its str() text. */
  datatype Exception =
    | ToolExecutionError(toolName: string, detail: string)
    | FireworksAPIError(detail: string, retries: nat := 0)
    | ValidationError(field: string, detail: string)
    | PythonError(kind: string, text: string)
  {
    /** isinstance(e, AgentError) */
    predicate IsAgentError()
    {
      !PythonError?
    }

    /** str(e) */
    function Message(): string
    {
      match this
      case ToolExecutionError(name, detail) => "Tool '" + name + "' failed: " + detail
      case FireworksAPIError(detail, retries) =>
        "Fireworks API error after " + NatText(retries) + " retries: " + detail
      case ValidationError(field, detail) => "Validation error for '" + field + "': " + detail
      case PythonError(_, text) => text
    }
  }

  datatype Result<T> = Ok(value: T) | Err(error: Exception)

  /** The TypeError of iterating over a value that is not iterable. */
  function NotIterable(v: Value): Exception
  {
    PythonError("TypeError", "'" + TypeName(v) + "' object is not iterable")
  }

  /** A handler `except AgentError` catches each of the three subclasses and
      nothing else. */
  lemma AgentErrorSubclasses(e: Exception)
    ensures e.IsAgentError() <==> (e.ToolExecutionError? || e.FireworksAPIError? || e.ValidationError?)
    ensures FireworksAPIError("x").retries == 0
  {
  }

  /** In a text made of a head free of c followed by a rest starting with c,
      the first c sits right after the head. */
  lemma FirstSeparator(a: string, r: string, c: char)
    requires c !in a && |r| > 0 && r[0] == c
    ensures Find(a + r, c) == |a|
  {
    var s := a + r;
    assert s[|a|] == c;
    assert s[..|a|] == a;
  }

  /** Two texts that agree and that each consist of a head free of c followed
      by a rest starting with c have equal heads and equal rests. */
  lemma HeadsAgree(a: string, b: string, r1: string, r2: string, c: char)
    requires a + r1 == b + r2
    requires c !in a && c !in b
    requires |r1| > 0 && r1[0] == c && |r2| > 0 && r2[0] == c
    ensures a == b && r1 == r2
  {
    FirstSeparator(a, r1, c);
    FirstSeparator(b, r2, c);
    assert a == (a + r1)[..|a|] == (b + r2)[..|b|] == b;
    assert r1 == (a + r1)[|a|..] == (b + r2)[|b|..] == r2;
  }

  lemma Regroup(a: string, b: string, c: string, d: string)
    ensures a + b + c + d == a + (b + (c + d))
  {
  }

  lemma DropPrefix(p: string, x: string, y: string)
    requires p + x == p + y
    ensures x == y
  {
    assert x == (p + x)[|p|..] == (p + y)[|p|..] == y;
  }

  function FirstLetter(e: Exception): char
    requires e.IsAgentError()
    ensures e.Message()[0] == FirstLetter(e)
  {
    match e
    case ToolExecutionError(_, _) => 'T'
    case FireworksAPIError(_, _) => 'F'
    case ValidationError(_, _) => 'V'
  }

  /** str(e) keeps everything each AgentError stores: two agent errors with the
      same message are the same error, provided tool names and field names
      contain no quote character. In particular the class, the tool name, the
      field name and the retry count can all be read back from the text. */
  lemma AgentMessageDetermines(e1: Exception, e2: Exception)
    requires e1.IsAgentError() && e2.IsAgentError()
    requires e1.ToolExecutionError? ==> '\'' !in e1.toolName
    requires e2.ToolExecutionError? ==> '\'' !in e2.toolName
    requires e1.ValidationError? ==> '\'' !in e1.field
    requires e2.ValidationError? ==> '\'' !in e2.field
    requires e1.Message() == e2.Message()
    ensures e1 == e2
  {
    var m := e1.Message();
    assert m[0] == e2.Message()[0];
    assert m[0] == FirstLetter(e1) && e2.Message()[0] == FirstLetter(e2);
    assert e1.ToolExecutionError? ==> e2.ToolExecutionError?;
    assert e1.FireworksAPIError? ==> e2.FireworksAPIError?;
    assert e1.ValidationError? ==> e2.ValidationError?;
    match e1
    case ToolExecutionError(n1, d1) =>
      var n2, d2 := e2.toolName, e2.detail;
      Regroup("Tool '", n1, "' failed: ", d1);
      Regroup("Tool '", n2, "' failed: ", d2);
      assert "Tool '" + (n1 + ("' failed: " + d1)) == "Tool '" + (n2 + ("' failed: " + d2));
      DropPrefix("Tool '", n1 + ("' failed: " + d1), n2 + ("' failed: " + d2));
      HeadsAgree(n1, n2, "' failed: " + d1, "' failed: " + d2, '\'');
      DropPrefix("' failed: ", d1, d2);
    case FireworksAPIError(d1, k1) =>
      var d2, k2 := e2.detail, e2.retries;
      var p := "Fireworks API error after ";
      Regroup(p, NatText(k1), " retries: ", d1);
      Regroup(p, NatText(k2), " retries: ", d2);
      assert p + (NatText(k1) + (" retries: " + d1)) == p + (NatText(k2) + (" retries: " + d2));
      DropPrefix(p, NatText(k1) + (" retries: " + d1), NatText(k2) + (" retries: " + d2));
      HeadsAgree(NatText(k1), NatText(k2), " retries: " + d1, " retries: " + d2, ' ');
      NatTextInjective(k1, k2);
      DropPrefix(" retries: ", d1, d2);
    case ValidationError(f1, d1) =>
      var f2, d2 := e2.field, e2.detail;
      var p := "Validation error for '";
      Regroup(p, f1, "': ", d1);
      Regroup(p, f2, "': ", d2);
      assert p + (f1 + ("': " + d1)) == p + (f2 + ("': " + d2));
      DropPrefix(p, f1 + ("': " + d1), f2 + ("': " + d2));
      HeadsAgree(f1, f2, "': " + d1, "': " + d2, '\'');
      DropPrefix("': ", d1, d2);
  }

  const StandardMortgage: string := "Standard Mortgage"

  /** A loan application; monthly income and debt payments. */
  datatype ApplicationData = ApplicationData(
    income: real,
    debts: seq<real>,
    loanAmount: real,
    propertyValue: real,
    fico: int,
    uploadedDocs: seq<string>,
    product: string := StandardMortgage)

  datatype VerificationResult = VerificationResult(
    dtiPercent: real,
    ltvPercent: real,
    missingDocs: seq<string>,
    notes: Option<string> := None)

  /** decision is "PASS" or "FAIL". */
  datatype PolicyResult = PolicyResult(decision: string, reasonCodes: seq<string>, explanation: string)

  datatype UnderwriterSummary = UnderwriterSummary(
    dtiSummary: string,
    ltvSummary: string,
    ficoSummary: string,
    docConditions: seq<string>,
    policyDecision: string,
    underwriterNote: string)

  /** The demonstration application: the bank statement is deliberately not uploaded. */
  const SampleApplication: ApplicationData := ApplicationData(
    income := 8000.0,
    debts := [2000.0, 400.0, 200.0],
    loanAmount := 400000.0,
    propertyValue := 500000.0,
    fico := 710,
    uploadedDocs := ["PAYSTUB", "ID"],
    product := StandardMortgage)

  lemma ApplicationProductDefault(income: real, debts: seq<real>, loan: real, value: real, fico: int, docs: seq<string>)
    ensures ApplicationData(income, debts, loan, value, fico, docs).product == "Standard Mortgage"
  {
  }
}
