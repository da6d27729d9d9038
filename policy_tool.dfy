/** The simulated policy retrieval: a constant table of product guidelines
    looked up with a default. */
module PolicyTool {
  import opened Values
  import opened Models

  const StandardText: string :=
    "\nSTANDARD MORTGAGE POLICY GUIDELINES:\n- Maximum DTI: 43%\n- Maximum LTV: 80%\n- Minimum FICO: 680\n- Required Documents: Paystub (last 30 days), Bank Statement (last 2 months), Government ID\n"

  const FhaText: string :=
    "\nFHA LOAN POLICY GUIDELINES:\n- Maximum DTI: 50%\n- Maximum LTV: 96.5%\n- Minimum FICO: 580\n- Required Documents: Paystub, Bank Statement, ID, Tax Returns (2 years)\n"

  const FhaLoan: string := "FHA Loan"

  /** Product name to guideline text. */
  const PolicySnippets: map<string, string> := map[StandardMortgage := StandardText, FhaLoan := FhaText]

  /** The tool's answer: the product exactly as asked for, and the text used. */
  datatype Snippet = Snippet(product: Value, policyText: string)

  /** get_policy_snippet: the product's guidelines, or the Standard Mortgage
      guidelines for anything the table does not hold. A list or a dict cannot
      be a dictionary key, so looking one up raises a TypeError. */
  function GetPolicySnippet(product: Value): (r: Result<Snippet>)
    ensures r.Err? <==> product.List? || product.Dict?
    ensures r.Err? ==> r.error.PythonError? && r.error.kind == "TypeError"
    ensures r.Ok? ==> r.value.product == product
    ensures r.Ok? ==> r.value.policyText in PolicySnippets.Values
  {
    if product.List? || product.Dict? then
      Err(PythonError("TypeError", "unhashable type: '" + TypeName(product) + "'"))
    else if product.Str? && product.s in PolicySnippets then
      Ok(Snippet(product, PolicySnippets[product.s]))
    else
      Ok(Snippet(product, PolicySnippets[StandardMortgage]))
  }

  /** The FHA guidelines are returned for the exact name "FHA Loan" and for
      nothing else; every other hashable product gets the Standard Mortgage
      guidelines. */
  lemma FhaOnlyForExactName(product: Value)
    requires !product.List? && !product.Dict?
    ensures GetPolicySnippet(product).value.policyText == FhaText <==> product == Str(FhaLoan)
    ensures product != Str(FhaLoan) ==> GetPolicySnippet(product).value.policyText == StandardText
  {
    assert |StandardText| != |FhaText|;
  }

  lemma StandardMortgageLookup()
    ensures GetPolicySnippet(Str("Standard Mortgage")) == Ok(Snippet(Str("Standard Mortgage"), StandardText))
  {
  }

  lemma FhaLoanLookup()
    ensures GetPolicySnippet(Str("FHA Loan")) == Ok(Snippet(Str("FHA Loan"), FhaText))
  {
  }

  /** The lookup is exact: a differently cased "fha loan" is not in the table,
      gets the Standard Mortgage text, and is still reported back unchanged. */
  lemma LowerCaseFhaFallsBack()
    ensures GetPolicySnippet(Str("fha loan")) == Ok(Snippet(Str("fha loan"), StandardText))
  {
    assert "fha loan"[0] != FhaLoan[0];
    assert "fha loan" != StandardMortgage;
  }
}
