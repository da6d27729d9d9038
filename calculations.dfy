/** The deterministic verification tools: positive-number validation, the
    debt-to-income and loan-to-value ratios, and the document checklist. */
module Calculations {
  import opened Text
  import opened Values
  import opened Models

  datatype DtiResult = DtiResult(ratio: real, percent: real)
  datatype LtvResult = LtvResult(ratio: real, percent: real)
  datatype DocResult = DocResult(missingDocs: seq<string>, complete: bool)

  /** The documents every application needs. */
  const RequiredDocs: seq<string> := ["PAYSTUB", "BANK_STATEMENT", "ID"]

  /** validate_positive_number: None when the value passes, else the
      ValidationError it raises. */
  function ValidatePositiveNumber(value: Value, field: string): (r: Option<Exception>)
    ensures r.None? <==> IsNumber(value) && AsReal(value) > 0.0
    ensures r.Some? ==> r.value.ValidationError? && r.value.field == field
  {
    if value.Null? then Some(ValidationError(field, "Value cannot be None"))
    else if !IsNumber(value) then Some(ValidationError(field, "Expected number, got " + TypeName(value)))
    else if AsReal(value) <= 0.0 then Some(ValidationError(field, "Value must be positive, got " + Show(value)))
    else None
  }

  /** The mathematical sum of a sequence of numbers. */
  function Total(items: seq<Value>): real
    requires forall k :: 0 <= k < |items| ==> IsNumber(items[k])
  {
    if |items| == 0 then 0.0 else Total(items[..|items| - 1]) + AsReal(items[|items| - 1])
  }

  /** `a + b` for a running int/float total a. */
  function AddTo(acc: Value, b: Value): (r: Result<Value>)
    requires acc.Int? || acc.Float?
    ensures r.Err? <==> !IsNumber(b)
    ensures r.Err? ==> r.error.PythonError?
  {
    if !IsNumber(b) then
      Err(PythonError("TypeError", "unsupported operand type(s) for +: '" + TypeName(acc) + "' and '" + TypeName(b) + "'"))
    else if acc.Float? || b.Float? then Ok(Float(AsReal(acc) + AsReal(b)))
    else Ok(Int(AsReal(acc).Floor + AsReal(b).Floor))
  }

  /** Python's sum(items), which starts from the int 0 and adds from the left. */
  function PySum(items: seq<Value>): (r: Result<Value>)
    ensures r.Ok? ==> r.value.Int? || r.value.Float?
    ensures r.Err? ==> r.error.PythonError?
  {
    if |items| == 0 then Ok(Int(0))
    else
      match PySum(items[..|items| - 1])
      case Err(e) => Err(e)
      case Ok(acc) => AddTo(acc, items[|items| - 1])
  }

  /** sum() succeeds exactly on sequences of numbers, and then it is their total. */
  lemma {:induction false} PySumIsTotal(items: seq<Value>)
    ensures PySum(items).Ok? <==> forall k :: 0 <= k < |items| ==> IsNumber(items[k])
    ensures PySum(items).Ok? ==> AsReal(PySum(items).value) == Total(items)
  {
    if |items| > 0 {
      var init := items[..|items| - 1];
      PySumIsTotal(init);
      assert forall k :: 0 <= k < |init| ==> init[k] == items[k];
      if PySum(init).Ok? {
        var acc := PySum(init).value;
        if IsNumber(items[|items| - 1]) && (acc.Int? && !items[|items| - 1].Float?) {
          assert AsReal(acc) == AsReal(acc).Floor as real;
          assert AsReal(items[|items| - 1]) == AsReal(items[|items| - 1]).Floor as real;
        }
      }
    }
  }

  /** round(x, 1): the nearest multiple of 0.1, ties to the even multiple. */
  function Round1(x: real): (r: real)
    ensures -0.05 <= r - x <= 0.05
    ensures (r * 10.0).Floor as real == r * 10.0
  {
    var y := x * 10.0;
    var f := y.Floor;
    var d := y - f as real;
    var n := if d < 0.5 then f else if d > 0.5 then f + 1 else if f % 2 == 0 then f else f + 1;
    n as real / 10.0
  }

  /** compute_dti */
  function ComputeDti(income: Value, debts: Value): (r: Result<DtiResult>)
    // an invalid income fails on field "income", whatever the debts are
    ensures ValidatePositiveNumber(income, "income").Some? ==>
              r == Err(ValidatePositiveNumber(income, "income").value)
    ensures r.Err? ==> (r.error.ValidationError? && r.error.field == "income") ||
                       (r.error.ToolExecutionError? && r.error.toolName == "compute_dti")
    // debts=None is read as no debts
    ensures ValidatePositiveNumber(income, "income").None? && debts.Null? ==>
              r == Ok(DtiResult(0.0, 0.0))
  {
    match ValidatePositiveNumber(income, "income")
    case Some(e) => Err(e)
    case None =>
      var owed := if debts.Null? then List([]) else debts;
      match Iterate(owed)
      case None => Err(ToolExecutionError("compute_dti", NotIterable(owed).Message()))
      case Some(items) =>
        match PySum(items)
        case Err(e) => Err(ToolExecutionError("compute_dti", e.Message()))
        case Ok(total) => Ok(DtiOf(AsReal(total), AsReal(income)))
  }

  /** The ratio of debt to income, and its percentage rounded to one decimal. */
  function DtiOf(total: real, income: real): (r: DtiResult)
    requires income > 0.0
    // the ratio scaled by the income gives back the total debt
    ensures r.ratio * income == total
    // the percent is within 0.05 of the exact percentage and has one decimal
    ensures -0.05 <= r.percent - 100.0 * total / income <= 0.05
    ensures (r.percent * 10.0).Floor as real == r.percent * 10.0
    ensures r.ratio == total / income && r.percent == Round1(100.0 * r.ratio)
  {
    var ratio := total / income;
    assert 100.0 * ratio == 100.0 * total / income;
    DtiResult(ratio, Round1(100.0 * ratio))
  }

  /** With a positive income and a list of debts, compute_dti succeeds exactly
      when every debt is a number. */
  lemma ComputeDtiOnList(income: Value, debts: seq<Value>)
    requires IsNumber(income) && AsReal(income) > 0.0
    ensures ComputeDti(income, List(debts)).Ok? <==> forall k :: 0 <= k < |debts| ==> IsNumber(debts[k])
  {
    PySumIsTotal(debts);
  }

  /** On a positive income and a list of numbers, the ratio is total debt
      over income and the percentage is 100 times the ratio rounded to one
      decimal. */
  lemma ComputeDtiRatio(income: Value, debts: seq<Value>)
    requires IsNumber(income) && AsReal(income) > 0.0
    requires forall k :: 0 <= k < |debts| ==> IsNumber(debts[k])
    ensures ComputeDti(income, List(debts)) == Ok(DtiOf(Total(debts), AsReal(income)))
  {
    PySumIsTotal(debts);
  }

  /** compute_ltv */
  function ComputeLtv(loanAmount: Value, propertyValue: Value): (r: Result<LtvResult>)
    // property_value is checked first, so it is named when both are invalid
    ensures ValidatePositiveNumber(propertyValue, "property_value").Some? ==>
              r == Err(ValidatePositiveNumber(propertyValue, "property_value").value)
    ensures r.Ok? <==> ValidatePositiveNumber(propertyValue, "property_value").None? &&
                       IsNumber(loanAmount) && AsReal(loanAmount) >= 0.0
    ensures r.Ok? ==> r.value.ratio == AsReal(loanAmount) / AsReal(propertyValue) &&
                      r.value.percent == Round1(100.0 * r.value.ratio)
    ensures r.Err? ==> (r.error.ValidationError? && r.error.field in {"property_value", "loan_amount"}) ||
                       (r.error.ToolExecutionError? && r.error.toolName == "compute_ltv")
    ensures ValidatePositiveNumber(propertyValue, "property_value").None? && loanAmount.Null? ==>
              r.Err? && r.error.ValidationError? && r.error.field == "loan_amount"
  {
    match ValidatePositiveNumber(propertyValue, "property_value")
    case Some(e) => Err(e)
    case None =>
      if loanAmount.Null? then
        Err(ValidationError("loan_amount", "Loan amount must be non-negative, got None"))
      else if !IsNumber(loanAmount) then
        Err(ToolExecutionError("compute_ltv", "'<' not supported between instances of '" + TypeName(loanAmount) + "' and 'int'"))
      else if AsReal(loanAmount) < 0.0 then
        Err(ValidationError("loan_amount", "Loan amount must be non-negative, got " + Show(loanAmount)))
      else
        var ratio := AsReal(loanAmount) / AsReal(propertyValue);
        Ok(LtvResult(ratio, Round1(100.0 * ratio)))
  }

  /** The upper-cased names of the uploaded documents. */
  function UploadedSet(uploaded: seq<string>): set<string>
  {
    set k | 0 <= k < |uploaded| :: Upper(uploaded[k])
  }

  /** The entries of required, in order, that are not in have. */
  function MissingFrom(required: seq<string>, have: set<string>): (r: seq<string>)
    ensures forall d :: d in r <==> d in required && d !in have
    ensures |r| <= |required|
  {
    if |required| == 0 then []
    else
      var rest := MissingFrom(required[1..], have);
      if required[0] in have then rest else [required[0]] + rest
  }

  /** A sequence without repeated entries. */
  predicate Distinct(s: seq<string>)
  {
    forall i, j :: 0 <= i < j < |s| ==> s[i] != s[j]
  }

  lemma {:induction false} MissingFromDistinct(required: seq<string>, have: set<string>)
    requires Distinct(required)
    ensures Distinct(MissingFrom(required, have))
  {
    if |required| > 0 {
      assert Distinct(required[1..]) by {
        forall i, j | 0 <= i < j < |required[1..]| ensures required[1..][i] != required[1..][j] {
          assert required[1..][i] == required[i + 1] && required[1..][j] == required[j + 1];
        }
      }
      MissingFromDistinct(required[1..], have);
      assert required[0] !in required[1..] by {
        forall k | 0 <= k < |required[1..]| ensures required[1..][k] != required[0] {
          assert required[1..][k] == required[k + 1];
        }
      }
    }
  }

  /** The list of required documents missing from the upload. The source turns
      a set into a list, whose order Python leaves to string hashing; the model
      lists them in the order of RequiredDocs. */
  function MissingDocs(uploaded: seq<string>): (r: seq<string>)
    ensures forall d :: d in r <==> d in RequiredDocs && d !in UploadedSet(uploaded)
    ensures Distinct(r)
  {
    MissingFromDistinct(RequiredDocs, UploadedSet(uploaded));
    MissingFrom(RequiredDocs, UploadedSet(uploaded))
  }

  /** The document names as strings, or the AttributeError that `doc.upper()`
      raises on the first entry that is not a string. */
  function DocNames(items: seq<Value>): (r: Result<seq<string>>)
    ensures r.Ok? <==> forall k :: 0 <= k < |items| ==> items[k].Str?
    ensures r.Ok? ==> |r.value| == |items| && forall k :: 0 <= k < |items| ==> items[k] == Str(r.value[k])
    ensures r.Err? ==> r.error.PythonError?
  {
    if |items| == 0 then Ok([])
    else if !items[0].Str? then
      Err(PythonError("AttributeError", "'" + TypeName(items[0]) + "' object has no attribute 'upper'"))
    else
      match DocNames(items[1..])
      case Err(e) => Err(e)
      case Ok(rest) =>
        assert forall k :: 1 <= k < |items| ==> items[k] == items[1..][k - 1];
        Ok([items[0].s] + rest)
  }

  /** check_doc_completeness */
  function CheckDocCompleteness(uploadedDocs: Value): (r: Result<DocResult>)
    ensures r.Ok? <==> Iterate(uploadedDocs).Some? && DocNames(Iterate(uploadedDocs).value).Ok?
    ensures r.Ok? ==> r.value.missingDocs == MissingDocs(DocNames(Iterate(uploadedDocs).value).value)
    ensures r.Ok? ==> (r.value.complete <==> r.value.missingDocs == [])
    ensures r.Err? ==> r.error.PythonError?
  {
    match Iterate(uploadedDocs)
    case None => Err(NotIterable(uploadedDocs))
    case Some(items) =>
      match DocNames(items)
      case Err(e) => Err(e)
      case Ok(names) =>
        var missing := MissingDocs(names);
        Ok(DocResult(missing, |missing| == 0))
  }

  /** The check ignores case: upper-casing the uploaded names first changes nothing. */
  lemma MissingDocsIgnoresCase(uploaded: seq<string>)
    ensures MissingDocs(seq(|uploaded|, k requires 0 <= k < |uploaded| => Upper(uploaded[k]))) == MissingDocs(uploaded)
  {
    var up := seq(|uploaded|, k requires 0 <= k < |uploaded| => Upper(uploaded[k]));
    forall k | 0 <= k < |uploaded| ensures Upper(up[k]) == Upper(uploaded[k]) {
      UpperIdempotent(uploaded[k]);
    }
    assert UploadedSet(up) == UploadedSet(uploaded);
  }

  /** Only the set of upper-cased names matters: order and repetition of the
      uploads do not change the result. */
  lemma MissingDocsDependsOnSetOnly(a: seq<string>, b: seq<string>)
    requires UploadedSet(a) == UploadedSet(b)
    ensures MissingDocs(a) == MissingDocs(b)
  {
  }

  /** Uploading a document that is not required never changes the result. */
  lemma MissingDocsIgnoresExtras(uploaded: seq<string>, extra: string)
    requires Upper(extra) !in RequiredDocs
    ensures MissingDocs(uploaded + [extra]) == MissingDocs(uploaded)
  {
    var u := uploaded + [extra];
    assert UploadedSet(u) == UploadedSet(uploaded) + {Upper(extra)} by {
      assert forall k :: 0 <= k < |uploaded| ==> u[k] == uploaded[k];
      assert u[|uploaded|] == extra;
    }
    SkipNonRequired(RequiredDocs, UploadedSet(uploaded), Upper(extra));
  }

  lemma {:induction false} SkipNonRequired(required: seq<string>, have: set<string>, x: string)
    requires x !in required
    ensures MissingFrom(required, have + {x}) == MissingFrom(required, have)
  {
    if |required| > 0 {
      assert required[0] != x;
      assert x !in required[1..] by {
        forall k | 0 <= k < |required[1..]| ensures required[1..][k] != x {
          assert required[1..][k] == required[k + 1];
        }
      }
      SkipNonRequired(required[1..], have, x);
    }
  }

  /** Lower-case names count: all three required documents in lower case
      leave nothing missing. */
  lemma LowerCaseUploadIsComplete()
    ensures CheckDocCompleteness(List([Str("paystub"), Str("id"), Str("bank_statement")])) ==
              Ok(DocResult([], true))
  {
    var names := ["paystub", "id", "bank_statement"];
    var r := DocNames([Str("paystub"), Str("id"), Str("bank_statement")]);
    assert r.Ok? && r.value[0] == names[0] && r.value[1] == names[1] && r.value[2] == names[2];
    assert r.value == names;
    assert Upper("paystub") == "PAYSTUB";
    assert Upper("id") == "ID";
    assert Upper("bank_statement") == "BANK_STATEMENT";
    assert Upper(names[0]) in UploadedSet(names);
    assert Upper(names[1]) in UploadedSet(names);
    assert Upper(names[2]) in UploadedSet(names);
    assert MissingDocs(names) == [];
  }

  /** The sample application lacks exactly the bank statement. */
  lemma SampleApplicationMissesBankStatement()
    ensures MissingDocs(SampleApplication.uploadedDocs) == ["BANK_STATEMENT"]
  {
    var names := SampleApplication.uploadedDocs;
    assert Upper("PAYSTUB") == "PAYSTUB";
    assert Upper("ID") == "ID";
    assert Upper(names[0]) in UploadedSet(names);
    assert Upper(names[1]) in UploadedSet(names);
    assert UploadedSet(names) == {"PAYSTUB", "ID"};
    var have := UploadedSet(names);
    assert RequiredDocs[1..] == ["BANK_STATEMENT", "ID"];
    assert RequiredDocs[1..][1..] == ["ID"];
    assert MissingFrom(["ID"], have) == [];
    assert MissingFrom(["BANK_STATEMENT", "ID"], have) == ["BANK_STATEMENT"];
  }
}
