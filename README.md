# Loan underwriting agent chain — a Dafny model

This project models the backend of a mortgage-underwriting demonstration. It is a
chain of three tool-calling agents on top of one inference gateway:

- The **orchestrator** asks the model which of three tools to run. The tools are
  the verification agent, the policy agent and the underwriter summary. It keeps
  the last result of each tool, records failures, and formats the final summary.
- The **verification agent** lets the model call three tools: `compute_dti`,
  `compute_ltv` and `check_doc_completeness`. It validates every call and
  captures the results. The DTI, LTV and missing-document figures it returns
  fall back to defaults when a result was never captured.
- The **policy agent** validates DTI, LTV and FICO. It lets the model retrieve
  product guidelines (`get_policy_snippet`). It reads the decision from the JSON
  object in the model's final answer, or falls back to a deterministic threshold
  check.
- The **gateway** (`call_with_tools`) sends one chat-completion request. It
  retries failures whose text mentions a transient keyword, with a doubling
  backoff, and parses the tool calls of the reply.

The language model is an **oracle**: a total function from an attempt number
(counted over the whole session) to that attempt's outcome. An outcome is a
reply (content plus raw tool calls whose argument text either decodes or is
malformed) or an error text. Every agent threads the number of the next attempt
through its loop, so one oracle scripts a whole run, sub-agents included.
JSON decoding of the policy answer is an abstract partial function `decode`.

Python values that flow through tool arguments (`None`, bool, int, float, str,
list, dict with insertion order) are the datatype `Values.Value`. Exceptions are
`Models.Exception`: the three `AgentError` subclasses with their stored fields
and message formats, plus `PythonError(kind, text)` for built-in exceptions.

Each agent loop has two forms:

- A spec function (`Loop`, `Turn`, `RunCalls`) over a record of the loop's local
  variables.
- An imperative method with `while`/`for` loops proved equal to that function
  (`VerificationLoop`, `PolicyLoop`, `OrchestratorLoop`, `ProcessToolCalls`,
  `CallWithTools`).

The inner loop over one turn's calls and the agent loops are stated for any
tool executor. The agents instantiate them with their own dispatch.

The modules follow the source files:

| module | file |
|---|---|
| `Text`, `Values` | helpers for Python strings and values |
| `Models` | app/backend/models.py |
| `Calculations` | app/backend/tools/calculations.py |
| `PolicyTool` | app/backend/tools/policy.py |
| `Gateway` | app/backend/fireworks_client.py |
| `Chat` | the message layout shared by the three agent loops |
| `Prompts` | the application-data look-ups made while writing prompts |
| `VerificationAgent` | app/backend/agents/verification.py |
| `PolicyAgent` | app/backend/agents/policy.py |
| `Orchestrator` | app/backend/agents/orchestrator.py |

Three behaviours of the code are stated explicitly:

- The orchestrator never stops early (`Orchestrator.NeverStopsEarly`).
- Malformed tool-argument JSON surfaces as a gateway error
  (`Gateway.MalformedArgumentsBecomeApiError`, `Gateway.MalformedMentioning500IsRetryable`).
- The policy agent echoes arguments by position in the model's call list, so an
  echo can carry another call's arguments (`PolicyAgent.EchoMisaligned`).

## Model

| member | source | states |
|---|---|---|
| Models.AgentErrorSubclasses | app/backend/models.py:7-30 | `except AgentError` catches exactly the three subclasses and no built-in exception; `FireworksAPIError` defaults to 0 retries |
| Models.AgentMessageDetermines | app/backend/models.py:12-30 | the message of an agent error determines the error: the same `str(e)` means the same class, the same stored field (tool name, retries, field) and the same detail |
| Models.FirstLetter | app/backend/models.py:16-30 | every agent-error message starts with a letter its class determines (T, F or V) |
| Models.ApplicationProductDefault | app/backend/models.py:33-41 | an application built without a product is a Standard Mortgage application |
| Calculations.SampleApplicationMissesBankStatement | app/backend/models.py:69-79 | the sample application lacks exactly BANK_STATEMENT |
| Calculations.ValidatePositiveNumber | app/backend/tools/calculations.py:6-13 | passes exactly the positive numbers (bool counts as int); anything else fails with a ValidationError on the given field |
| Calculations.AddTo | app/backend/tools/calculations.py:37 | adding to a running sum fails exactly when the addend is not a number |
| Calculations.PySum | app/backend/tools/calculations.py:37 | `sum()` yields an int or a float, or raises a built-in exception |
| Calculations.PySumIsTotal | app/backend/tools/calculations.py:37 | `sum()` succeeds exactly on sequences of numbers, and its value is then the mathematical total |
| Calculations.Round1 | app/backend/tools/calculations.py:41 | the rounded value is a multiple of 0.1 within 0.05 of its argument |
| Calculations.ComputeDti | app/backend/tools/calculations.py:16-46 | an invalid income fails on field "income" whatever the debts; `debts=None` reads as no debts (ratio 0); other failures are ToolExecutionErrors of compute_dti |
| Calculations.DtiOf | app/backend/tools/calculations.py:37-42 | the ratio times the income gives back the total debt; the percent has one decimal and lies within 0.05 of the exact percentage |
| Calculations.ComputeDtiOnList | app/backend/tools/calculations.py:30-46 | with a positive income, a list of debts succeeds exactly when every debt is a number |
| Calculations.ComputeDtiRatio | app/backend/tools/calculations.py:37-42 | with a positive income and numeric debts the result is the total debt over income with its rounded percent |
| Calculations.ComputeLtv | app/backend/tools/calculations.py:49-78 | property value is checked first and named when both are invalid; a None or negative loan fails on "loan_amount" and zero passes; success gives loan/property and its rounded percent |
| Calculations.MissingFrom | app/backend/tools/calculations.py:92 | the result holds exactly the required names not uploaded |
| Calculations.MissingFromDistinct | app/backend/tools/calculations.py:92 | a set difference has no repeated entries |
| Calculations.MissingDocs | app/backend/tools/calculations.py:90-92 | missing documents are exactly the required set minus the upper-cased uploads, without duplicates |
| Calculations.DocNames | app/backend/tools/calculations.py:91 | `doc.upper()` succeeds exactly when every item is a str, keeping each name; otherwise a built-in exception |
| Calculations.CheckDocCompleteness | app/backend/tools/calculations.py:81-96 | succeeds exactly on an iterable of strings; `missing_docs` is the set difference and `complete` holds iff nothing is missing |
| Calculations.MissingDocsIgnoresCase | app/backend/tools/calculations.py:91 | upper-casing the uploaded names first changes nothing |
| Calculations.MissingDocsDependsOnSetOnly | app/backend/tools/calculations.py:91-92 | two uploads with the same set of upper-cased names miss the same documents (order and repetition do not matter) |
| Calculations.MissingDocsIgnoresExtras | app/backend/tools/calculations.py:90-92 | uploading a document that is not required never changes the result |
| Calculations.SkipNonRequired | app/backend/tools/calculations.py:92 | a name outside the required list does not change the difference |
| Calculations.LowerCaseUploadIsComplete | app/backend/tools/calculations.py:91-95 | lower-case "paystub", "id", "bank_statement" make the check complete |
| Text.Upper | app/backend/tools/calculations.py:91 | `str.upper()` keeps the length, leaves no lower-case letter, and changes nothing but the case of a character |
| Text.UpperIdempotent | app/backend/tools/calculations.py:91 | upper-casing twice is upper-casing once |
| PolicyTool.GetPolicySnippet | app/backend/tools/policy.py:22-35 | the product comes back unchanged and the text is one of the table's guidelines; an unhashable product (list, dict) raises TypeError |
| PolicyTool.FhaOnlyForExactName | app/backend/tools/policy.py:4-31 | the FHA text is returned iff the product is exactly "FHA Loan"; every other hashable product gets the Standard Mortgage text |
| PolicyTool.StandardMortgageLookup | app/backend/tools/policy.py:4-31 | "Standard Mortgage" gets its own guidelines |
| PolicyTool.FhaLoanLookup | app/backend/tools/policy.py:12-31 | "FHA Loan" gets the FHA guidelines |
| PolicyTool.LowerCaseFhaFallsBack | app/backend/tools/policy.py:31-35 | "fha loan" falls back to the Standard Mortgage text and keeps its own spelling |
| Gateway.ParseToolArguments | app/backend/fireworks_client.py:127-143 | decodable text gives its object; malformed text raises the ValueError carrying the decoder's message |
| Gateway.ParsedCalls | app/backend/fireworks_client.py:115-122 | one parsed call per raw call, same order, id and name, when every argument text decodes; otherwise the ValueError of the first malformed one |
| Gateway.ParseResponse | app/backend/fireworks_client.py:97-124 | the loop returns the content with the parsed calls (none when the reply has none), or the first argument error |
| Text.Lower | app/backend/fireworks_client.py:77 | `str.lower()` keeps the length, leaves no capital letter, and changes nothing but the case of a character |
| Text.LowerAppend | app/backend/fireworks_client.py:77 | lower-casing distributes over concatenation |
| Gateway.MentionsAnySome | app/backend/fireworks_client.py:80-83 | the keyword test holds iff some keyword occurs as a substring |
| Gateway.GatewayFrom | app/backend/fireworks_client.py:65-87 | a request resumed at attempt k ends after more than k and at most max_retries + 1 attempts |
| Gateway.Backoff | app/backend/fireworks_client.py:89-91 | every wait is at least the initial backoff |
| Gateway.Backoffs | app/backend/fireworks_client.py:89-91 | the first n waits, the k-th being the k-th backoff |
| Gateway.CallWithTools | app/backend/fireworks_client.py:35-94 | the attempt loop returns what the retry function `GatewayFrom` gives, with one wait after each failed attempt but the last |
| Gateway.GatewayFromRetried | app/backend/fireworks_client.py:75-91 | every attempt before the last failed with a text the retry test accepts |
| Gateway.GatewayFromSuccess | app/backend/fireworks_client.py:65-73 | a success is the last attempt's parsed response |
| Gateway.GatewayFromFailure | app/backend/fireworks_client.py:85-87 | a failure is a FireworksAPIError with the last error's text and retries = its attempt number, and that text was rejected or the attempt was the last allowed |
| Gateway.GatewayOutcome | app/backend/fireworks_client.py:65-91 | for any retry test: 1 to max_retries + 1 attempts, earlier ones retryable failures, success returns the last reply, failure carries the last error and its attempt number |
| Gateway.FirstSuccessReturned | app/backend/fireworks_client.py:65-73 | a first attempt that succeeds is returned after one attempt |
| Gateway.ExhaustedRetries | app/backend/fireworks_client.py:85-87 | when every attempt fails retryably, all max_retries + 1 are made and the error carries retries = max_retries |
| Gateway.NonRetryableStops | app/backend/fireworks_client.py:85-87 | a non-retryable failure on attempt k ends the request there with retries = k |
| Gateway.MalformedArgumentsBecomeApiError | app/backend/fireworks_client.py:73-87 | a reply with malformed argument JSON becomes a FireworksAPIError with the ValueError's text, like an endpoint failure |
| Gateway.MalformedMentioning500IsRetryable | app/backend/fireworks_client.py:77-83 | the keyword test is a bare substring match: a decoder message containing "500" is retried |
| Gateway.LowerKeeps500 | app/backend/fireworks_client.py:77 | lower-casing leaves "500" in place |
| Gateway.BackoffIncreases | app/backend/fireworks_client.py:90-91 | waits strictly increase |
| Gateway.BackoffValues | app/backend/fireworks_client.py:30-91 | the first three waits are 1.0, 2.0 and 4.0 seconds |
| Chat.ToolMessages | app/backend/agents/verification.py:236-241 | one tool message per result, in order, with its id and payload |
| Chat.AppendToolMessages | app/backend/agents/verification.py:236-241 | the loop appends exactly those tool messages |
| Chat.TurnLayout | app/backend/agents/verification.py:219-241 | with one result per call, a turn appends an assistant message echoing every call's own id, name and arguments, then one tool message per call with the same id |
| Prompts.MoneyFormatError | app/backend/agents/verification.py:155-158 | the `,.2f` format succeeds exactly on numbers |
| Prompts.FieldError | app/backend/agents/verification.py:154-159 | a missing key raises KeyError; only built-in exceptions arise |
| Prompts.FirstFieldError | app/backend/agents/orchestrator.py:266-273 | no error iff every field's use succeeds; otherwise the error of the first failing field |
| VerificationAgent.FirstUnusable | app/backend/agents/verification.py:103-107 | the first required argument that is absent or None |
| VerificationAgent.ValidateToolArguments | app/backend/agents/verification.py:88-107 | an unknown tool raises ToolExecutionError; a known tool passes iff every required argument is present and not None, else ValidationError on the first one in table order |
| VerificationAgent.FirstUnexpected | app/backend/agents/verification.py:132 | none iff every keyword is a parameter; otherwise a given keyword that is not a parameter |
| VerificationAgent.Rethrow | app/backend/agents/verification.py:133-136 | ValidationError and ToolExecutionError pass unchanged; the result is always one of them |
| VerificationAgent.ExecuteTool | app/backend/agents/verification.py:110-136 | every failure is a ValidationError or ToolExecutionError, so the loop's handler catches it |
| VerificationAgent.ExecuteToolSpec | app/backend/agents/verification.py:110-136 | validation comes first; an unexpected keyword fails before the tool runs; a success is the named tool's result on the given arguments |
| VerificationAgent.OutputMatchesName | app/backend/agents/verification.py:128-132 | a success is the output kind of the tool named |
| VerificationAgent.DocCheckOnNumberIsWrapped | app/backend/agents/verification.py:135-136 | a built-in exception in a tool becomes a ToolExecutionError carrying its text |
| VerificationAgent.ExtraKeywordIsRejected | app/backend/agents/verification.py:132-136 | an extra keyword fails the call even with every required argument present |
| VerificationAgent.Failures | app/backend/agents/verification.py:209-216 | no failure text iff every call succeeded |
| VerificationAgent.RunCalls | app/backend/agents/verification.py:187-216 | one result per call |
| VerificationAgent.RunCallsResults | app/backend/agents/verification.py:188-216 | each call is answered in order, with its own id and name, by its output or its error's text |
| VerificationAgent.RunCallsFailures | app/backend/agents/verification.py:209-216 | failures are recorded in order and the later calls still run |
| VerificationAgent.CapturedFromCalls | app/backend/agents/verification.py:196-202 | a captured result was held before or produced by one of the calls |
| VerificationAgent.LastOfKind | app/backend/agents/verification.py:196-202 | the output of the last successful result of a kind: no later result carries one of that kind |
| VerificationAgent.KeptIsLastOutput | app/backend/agents/verification.py:196-202 | the calls overwrite: each reported figure is the output of the last call that produced one of its kind, or the one held before |
| VerificationAgent.ProducedByPrefix | app/backend/agents/verification.py:188 | what a prefix of the calls produced, the calls produced |
| VerificationAgent.EveryOutputCaptured | app/backend/agents/verification.py:196-202 | every kind of output some call produced is captured afterwards |
| VerificationAgent.StoreByName | app/backend/agents/verification.py:197-202 | storing by tool name keeps the output in its kind's slot |
| VerificationAgent.ProcessToolCalls | app/backend/agents/verification.py:187-216 | the loop over a turn's calls computes the inner-loop spec function |
| VerificationAgent.Turn | app/backend/agents/verification.py:179-245 | one request per pass; the loop ends on an API error, a reply without tool calls, or once all three results are captured |
| VerificationAgent.AfterRequest | app/backend/agents/verification.py:183-249 | after the request, the pass ends the loop exactly on an API error, no tool calls, or all results captured |
| VerificationAgent.Answered | app/backend/agents/verification.py:187-245 | an answered turn keeps the response and ends the loop iff all three results are captured |
| VerificationAgent.AnsweredAfterRequest | app/backend/agents/verification.py:183-188 | a reply with tool calls is answered |
| VerificationAgent.AnsweredMessages | app/backend/agents/verification.py:218-241 | one assistant message echoing each call's id, name and arguments, then one tool message per call with the same id and its result |
| VerificationAgent.Loop | app/backend/agents/verification.py:175-245 | at most 5 requests; messages are only appended; the loop ends done or at the limit |
| VerificationAgent.LoopStep | app/backend/agents/verification.py:179 | a running loop below the limit takes one more pass |
| VerificationAgent.Notes | app/backend/agents/verification.py:251-255 | the last content; with errors, "Errors encountered: " and the errors joined by "; " after a blank line, or alone without content |
| VerificationAgent.Assemble | app/backend/agents/verification.py:257-263 | uncaptured figures default to 0.0, 0.0 and [] |
| VerificationAgent.RunVerification | app/backend/agents/verification.py:139-263 | a failing prompt look-up raises before any request; otherwise the assembled loop state; at most 5 requests |
| VerificationAgent.TakeTurn | app/backend/agents/verification.py:179-245 | one pass of the loop body computes the turn spec function |
| VerificationAgent.AnswerCalls | app/backend/agents/verification.py:187-241 | answering a turn's calls computes the answered-turn spec function |
| VerificationAgent.VerificationLoop | app/backend/agents/verification.py:175-249 | the for-loop with its breaks computes the loop spec function |
| VerificationAgent.RunVerificationAgent | app/backend/agents/verification.py:139-263 | the method returns the specified result, conversation and request count |
| VerificationAgent.CallBound | app/backend/agents/verification.py:175 | at most five gateway requests |
| VerificationAgent.DefaultsWhenNothingCaptured | app/backend/agents/verification.py:258-262 | with nothing captured every figure takes its default |
| PolicyAgent.PercentError | app/backend/agents/policy.py:59-71 | passes exactly the non-negative numbers; otherwise ValidationError on the field |
| PolicyAgent.FicoError | app/backend/agents/policy.py:73-78 | passes exactly the numbers in 300..850 |
| PolicyAgent.ValidatePolicyArguments | app/backend/agents/policy.py:48-78 | passes iff all three inputs are valid; DTI is checked before LTV before FICO |
| PolicyAgent.BreachCodes | app/backend/agents/policy.py:223-236 | each breach code appears iff its limit is breached, in the fixed order DTI, LTV, FICO; never ALL_CRITERIA_MET |
| PolicyAgent.Fallback | app/backend/agents/policy.py:214-247 | FAIL carries exactly the codes of the strict breaches (DTI > 43, LTV > 80, FICO < 680) in that order, explained by one sentence per code joined by "; "; PASS iff none, with exactly ALL_CRITERIA_MET and the all-met sentence |
| PolicyAgent.JsonSlice | app/backend/agents/policy.py:201-204 | a slice exists iff a "{" comes before a later "}"; it runs from the first "{" to the last "}" |
| Text.Find | app/backend/agents/policy.py:201 | `str.find`: the first index of the character, or -1 iff absent |
| Text.RFind | app/backend/agents/policy.py:202 | `str.rfind`: the last index of the character, or -1 iff absent |
| PolicyAgent.MakePolicyResult | app/backend/agents/policy.py:206-210 | the record builds exactly from a str, a list of str and a str, and keeps them |
| PolicyAgent.FromJson | app/backend/agents/policy.py:205-210 | an object gives defaults "FAIL", [] and the whole content; a non-object has no `.get` (AttributeError), which the parse never reaches (`ParseNeverLacksGet`) |
| PolicyAgent.ParsePolicyResponse | app/backend/agents/policy.py:186-247 | no content, no slice or undecodable JSON gives the fallback; decoded JSON decides, and its errors are not caught |
| PolicyAgent.ModelDecisionTaken | app/backend/agents/policy.py:204-210 | a well-typed object is the decision, with the whole content as the default explanation |
| PolicyAgent.ParseNeverLacksGet | app/backend/agents/policy.py:201-212 | the decoded slice opens with "{", so when `json.loads` returns only objects for such text, the only error escaping the parse is the PolicyResult validation error |
| PolicyAgent.FallbackAllBreached | app/backend/agents/policy.py:223-241 | everything breached gives FAIL with all three codes in order |
| PolicyAgent.FallbackAllMet | app/backend/agents/policy.py:235-238 | everything within limits gives PASS with ALL_CRITERIA_MET |
| PolicyAgent.FallbackAtLimits | app/backend/agents/policy.py:223-233 | figures exactly at the limits pass: the breach tests are strict |
| PolicyAgent.SnippetCalls | app/backend/agents/policy.py:135-136 | only get_policy_snippet calls are answered |
| PolicyAgent.RunSnippets | app/backend/agents/policy.py:134-147 | one result per snippet call, in order, from the call's product or the agent's own |
| PolicyAgent.PolicyTextIsGuideline | app/backend/agents/policy.py:138-141 | the policy text changes only to a table guideline, after a successful snippet call |
| PolicyAgent.ProcessSnippetCalls | app/backend/agents/policy.py:134-147 | the loop over a turn's calls computes the snippet spec function |
| PolicyAgent.AnswerCalls | app/backend/agents/policy.py:133-172 | a turn appends the echoing assistant message and one tool message per answered call |
| PolicyAgent.EchoPairsByPosition | app/backend/agents/policy.py:150-164 | the i-th echo has the i-th answered call's id but the arguments of the model's i-th call |
| PolicyAgent.EchoMisaligned | app/backend/agents/policy.py:136-162 | after a call to another tool, the answered call is echoed with that other call's arguments |
| PolicyAgent.EchoAlignedForSnippetCalls | app/backend/agents/policy.py:150-164 | when every call asks for a snippet, each echo carries its own call |
| PolicyAgent.SnippetCallsKeepsAll | app/backend/agents/policy.py:136 | only snippet calls means all calls are answered |
| PolicyAgent.Turn | app/backend/agents/policy.py:129-179 | one request per pass; only an API error or a reply without tool calls ends the loop; messages are only appended |
| PolicyAgent.Loop | app/backend/agents/policy.py:127-175 | at most 3 requests; an API error ends the loop |
| PolicyAgent.RunPolicy | app/backend/agents/policy.py:81-183 | invalid inputs give FAIL with VALIDATION_ERROR and no request; an API error gives the fallback; otherwise the parse of the last content |
| PolicyAgent.FirstRequestFailsFallsBack | app/backend/agents/policy.py:177-179 | a first request that fails gives the fallback after one request, for any product |
| PolicyAgent.PolicyLoop | app/backend/agents/policy.py:127-179 | the for-loop with its break and early return computes the loop spec function |
| PolicyAgent.RunPolicyAgent | app/backend/agents/policy.py:81-183 | the method returns the specified result, conversation and request count |
| Orchestrator.Mark | app/backend/agents/orchestrator.py:128-134 | the status ends with the pass mark iff the check passed |
| Orchestrator.FirstNonStr | app/backend/agents/orchestrator.py:153-156 | the first item that is not a str |
| Orchestrator.Strings | app/backend/agents/orchestrator.py:153-156 | the str items keep their texts |
| Orchestrator.PyJoin | app/backend/agents/orchestrator.py:153-156 | `join` succeeds exactly on an iterable of str, joining their texts; otherwise TypeError |
| Orchestrator.DocConditions | app/backend/agents/orchestrator.py:137-143 | one "Missing: <doc>" per missing document in order, or exactly the all-present line when nothing is missing |
| Orchestrator.UnderwriterNote | app/backend/agents/orchestrator.py:149-156 | PASS without missing documents approves; PASS with some names them joined by ", "; any other decision lists the reason codes for manual review |
| Orchestrator.SummarizeForUnderwriter | app/backend/agents/orchestrator.py:102-165 | a summary is produced exactly when the verification result is a dict with numeric figures, FICO is a number, the missing documents give conditions, the policy result is a dict and its note can be written; then DTI passes iff <= 43.0, LTV iff <= 80.0, FICO iff >= 680, missing figures read 0, and the decision line and note follow the policy result |
| Orchestrator.SuffixOfConcat | app/backend/agents/orchestrator.py:128-135 | a line ends in its mark and not in the other |
| Orchestrator.ThresholdsInclusive | app/backend/agents/orchestrator.py:123-135 | for a policy result that is PASS or has joinable reason codes, a summary is produced for figures exactly at the limits, and all three pass |
| Orchestrator.ConditionalNoteNamesMissingDocs | app/backend/agents/orchestrator.py:152-153 | the conditional note names every missing document in order, separated by ", " |
| Orchestrator.JoinOfStrings | app/backend/agents/orchestrator.py:153 | `join` of a list of str joins the strings |
| Orchestrator.MissingDecisionMeansReview | app/backend/agents/orchestrator.py:146-156 | with numeric figures and usable missing documents, an empty policy result gives a summary whose note asks for manual review with no codes |
| Orchestrator.MissingDecisionReadsUnknown | app/backend/agents/orchestrator.py:146-163 | with numeric figures and usable missing documents, an empty policy result gives a summary whose decision line is "UNKNOWN: " |
| Orchestrator.FirstAbsent | app/backend/agents/orchestrator.py:176-191 | the first required argument that is absent |
| Orchestrator.ValidateOrchestratorArguments | app/backend/agents/orchestrator.py:168-191 | unknown names pass; a known tool passes iff every required argument is present (None allowed), else ValidationError on the first absent one |
| Orchestrator.Reraise | app/backend/agents/orchestrator.py:245-248 | agent errors pass unchanged; built-in exceptions become ToolExecutionErrors with their text |
| Orchestrator.ToolOutcome | app/backend/agents/orchestrator.py:194-248 | every failure is a ToolExecutionError naming the tool; validation failures and unknown names are rejected before anything runs; only the sub-agents make requests |
| Orchestrator.VerificationTool | app/backend/agents/orchestrator.py:221-223 | the verification branch gives a verification result or a ToolExecutionError of that tool |
| Orchestrator.PolicyTool | app/backend/agents/orchestrator.py:225-232 | the policy branch gives a policy result or a ToolExecutionError of that tool |
| Orchestrator.SummaryTool | app/backend/agents/orchestrator.py:234-240 | the summary branch makes no request |
| Orchestrator.ExecuteOrchestratorTool | app/backend/agents/orchestrator.py:194-248 | the method computes the tool spec function |
| Orchestrator.Slot | app/backend/agents/orchestrator.py:308-313 | only the three tool names have a slot |
| Orchestrator.Keep | app/backend/agents/orchestrator.py:308-313 | a success overwrites its tool's slot and leaves the others |
| Orchestrator.ErrorTexts | app/backend/agents/orchestrator.py:315-318 | no error text iff every result is an output |
| Orchestrator.RunCalls | app/backend/agents/orchestrator.py:299-331 | one result and one trace entry per call, in order, with the call's id, name and arguments, even when the tool failed |
| Orchestrator.RunCallsErrors | app/backend/agents/orchestrator.py:315-318 | errors are the earlier ones followed by the failed calls' texts in order |
| Orchestrator.LastOutput | app/backend/agents/orchestrator.py:305-313 | the output of the last successful call to a tool |
| Orchestrator.KeptIsLastOutput | app/backend/agents/orchestrator.py:305-313 | each slot holds its tool's last successful output, or what it held before |
| Orchestrator.Turn | app/backend/agents/orchestrator.py:290-358 | one request per pass; only an API error or a reply without tool calls ends the loop; one trace entry per call |
| Orchestrator.AfterRequest | app/backend/agents/orchestrator.py:293-359 | after the request the pass ends the loop exactly on an API error or no tool calls |
| Orchestrator.Answered | app/backend/agents/orchestrator.py:297-356 | an answered turn traces every call and does not end the loop |
| Orchestrator.AnsweredAfterRequest | app/backend/agents/orchestrator.py:294-299 | a reply with tool calls is answered |
| Orchestrator.AnsweredMessages | app/backend/agents/orchestrator.py:333-356 | one assistant message echoing each call's id, name and arguments, then one tool message per call with the same id |
| Orchestrator.Loop | app/backend/agents/orchestrator.py:288-356 | at most 10 requests; the trace only grows |
| Orchestrator.LoopStep | app/backend/agents/orchestrator.py:290 | a running loop below the limit takes one more pass |
| Orchestrator.NeverStopsEarly | app/backend/agents/orchestrator.py:288-295 | against an endpoint that always asks for tools, all ten requests are made, whatever was captured |
| Orchestrator.SummaryLines | app/backend/agents/orchestrator.py:387-411 | 17 fixed lines framed by rules, with one bullet per document condition in order after the tenth |
| Orchestrator.FormatSummary | app/backend/agents/orchestrator.py:385-413 | the summary text opens with the rule and the "UNDERWRITER SUMMARY" line, and ends with a newline and the rule |
| Orchestrator.FormatSummaryLines | app/backend/agents/orchestrator.py:385-413 | when no line holds a newline, splitting the text on newlines gives back exactly the 17 fixed lines and the bullets |
| Orchestrator.FinalResponse | app/backend/agents/orchestrator.py:361-373 | the last content, replaced by the formatted summary when empty and a summary exists, then the error block when errors occurred |
| Orchestrator.SummaryOf | app/backend/agents/orchestrator.py:365 | the kept summary, if one was captured |
| Orchestrator.Assemble | app/backend/agents/orchestrator.py:375-382 | errors are None iff there were none; the last result of each tool and the trace |
| Orchestrator.RunOrchestrator | app/backend/agents/orchestrator.py:251-382 | a failing context look-up raises before any request; otherwise the assembled loop state; at most 10 requests |
| Orchestrator.ProcessToolCalls | app/backend/agents/orchestrator.py:297-331 | the loop over a turn's calls computes the inner-loop spec function |
| Orchestrator.AnswerCalls | app/backend/agents/orchestrator.py:297-356 | answering a turn's calls computes the answered-turn spec function |
| Orchestrator.TakeTurn | app/backend/agents/orchestrator.py:290-359 | one pass of the loop body computes the turn spec function |
| Orchestrator.OrchestratorLoop | app/backend/agents/orchestrator.py:288-359 | the loop computes the loop spec function |
| Orchestrator.RunOrchestratorAgent | app/backend/agents/orchestrator.py:251-382 | the method returns the specified result and attempt position |

## Left out

- The Streamlit UI, the FastAPI application and the package re-export files: presentation and web plumbing.
- Client construction, environment variables and the network call: the endpoint is the oracle.
- `time.sleep`: `Gateway.CallWithTools` returns the list of waits instead of sleeping.
- `Gateway.CallWithTools`: the final `raise` after the attempt loop is unreachable, because the last attempt always returns or raises inside the loop; the model has no such path.
- JSON encoding and decoding, `json.dumps` of tool results, and Pydantic `model_dump`: tool results are kept as typed outputs. The decoding of argument text is given with each oracle reply. The policy answer is decoded by the abstract `decode` parameter.
- `decode` is not constrained by the parse. That `json.loads` of text opening with "{" gives an object when it succeeds is the premise `PolicyAgent.DecodesBracesToObjects` of `PolicyAgent.ParseNeverLacksGet`. Under it the AttributeError branch of `PolicyAgent.FromJson` is dead.
- Argument JSON that decodes to something other than an object (a list, say): the decoded arguments are always a dictionary.
- Duplicate keys in a decoded object: `Values.Lookup` takes the first entry, where `json.loads` keeps the last.
- Prompt wording and the tool schemas sent to the model: prompts are opaque messages. Only the look-ups that can raise while prompts are written are modelled (`Prompts`).
- Calculations.Round1: states only that the result is a multiple of 0.1 within 0.05 of its argument, not Python's binary floating-point rounding.
- Floating-point arithmetic in general: ratios and percentages are real numbers, and `str()` of a float (`Values.FloatText`) is an approximation of Python's shortest repr.
- Text.Lower and Text.Upper: only ASCII letters change case; Unicode case mapping is not modelled.
- Calculations.MissingDocs: the source's `list(set)` order depends on string hashing. The model lists missing documents in the fixed order PAYSTUB, BANK_STATEMENT, ID, and the contracts only state set facts and absence of duplicates.
- The texts of Python's built-in exceptions and of Pydantic's validation errors follow CPython's wording, but are approximate.
- PolicyAgent.ParsePolicyResponse: requires DTI, LTV and FICO to be numbers. The source only reaches the parse after validation has passed, so every caller meets this.
- `policy_text` is passed to `parse_policy_response` but never read there, so the model does not pass it.
- The orchestrator's `app_data` argument to `execute_orchestrator_tool` is unused by the source, so it is not a parameter.
- Sub-agent conversations are not returned to the orchestrator. The source discards them too; only their results and the requests they made are kept.
- `Models.Exception` stores the detail text of each agent error, not Python's `args` tuple.
