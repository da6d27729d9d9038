/** The inference gateway: one chat-completion request with tool definitions,
    retried with exponential backoff while the failure looks transient. The
    endpoint is an oracle that gives the outcome of every attempt, numbered
    from the start of the whole session; the waits are returned, not slept. */
module Gateway {
  import opened Text
  import opened Values
  import opened Models

  const MaxRetries: nat := 2
  const InitialBackoff: real := 1.0
  const BackoffMultiplier: real := 2.0

  /** An error is transient when its lower-cased text contains one of these. */
  const RetryKeywords: seq<string> :=
    ["timeout", "timed out", "rate limit", "429", "500", "502", "503", "504",
     "connection", "network", "temporarily unavailable"]

  /** The argument text of a tool call, as the JSON decoder sees it: the object
      it decodes to, or the decoder's error message. */
  datatype ArgumentText = Decoded(args: Args) | Malformed(decodeError: string)

  datatype RawToolCall = RawToolCall(id: string, name: string, arguments: ArgumentText)

  /** What one endpoint attempt gives: the first choice's message, or the text
      of the exception the client raised. */
  datatype Attempt =
    | Reply(content: Option<string>, toolCalls: seq<RawToolCall>)
    | Failure(errorText: string)

  /** The outcome of every attempt, by its number in the session. */
  type Oracle = nat -> Attempt

  datatype ToolCall = ToolCall(id: string, name: string, arguments: Args)

  /** The parsed reply handed to the agents. */
  datatype Response = Response(content: Option<string>, toolCalls: seq<ToolCall>)

  /** How a request ended, and how many attempts it used. */
  datatype GatewayRun = GatewayRun(result: Result<Response>, attempts: nat)

  /** The ValueError that parse_tool_arguments raises for undecodable text. */
  function ArgumentError(decodeError: string): Exception
  {
    PythonError("ValueError", "Failed to parse tool arguments: " + decodeError)
  }

  /** parse_tool_arguments */
  function ParseToolArguments(text: ArgumentText): (r: Result<Args>)
    ensures r.Ok? <==> text.Decoded?
    ensures r.Ok? ==> r.value == text.args
    ensures r.Err? ==> r.error == ArgumentError(text.decodeError)
  {
    match text
    case Decoded(args) => Ok(args)
    case Malformed(e) => Err(ArgumentError(e))
  }

  /** The tool calls of a reply, in order; the first undecodable argument text
      aborts the whole parse. */
  function ParsedCalls(raw: seq<RawToolCall>): (r: Result<seq<ToolCall>>)
    ensures r.Ok? <==> forall k :: 0 <= k < |raw| ==> raw[k].arguments.Decoded?
    ensures r.Ok? ==> |r.value| == |raw|
    ensures r.Ok? ==> forall k :: 0 <= k < |raw| ==>
              r.value[k] == ToolCall(raw[k].id, raw[k].name, raw[k].arguments.args)
    ensures r.Err? ==> exists k :: (0 <= k < |raw| && raw[k].arguments.Malformed? &&
              (forall j :: 0 <= j < k ==> raw[j].arguments.Decoded?) &&
              r.error == ArgumentError(raw[k].arguments.decodeError))
  {
    if |raw| == 0 then Ok([])
    else
      match ParseToolArguments(raw[0].arguments)
      case Err(e) => Err(e)
      case Ok(args) =>
        match ParsedCalls(raw[1..])
        case Err(e) =>
          assert forall k :: 1 <= k < |raw| ==> raw[k] == raw[1..][k - 1];
          Err(e)
        case Ok(rest) =>
          assert forall k :: 1 <= k < |raw| ==> raw[k] == raw[1..][k - 1];
          Ok([ToolCall(raw[0].id, raw[0].name, args)] + rest)
  }

  /** parse_response: the message's content and its parsed tool calls, or the
      error of the first undecodable argument text. */
  method ParseResponse(content: Option<string>, raw: seq<RawToolCall>) returns (r: Result<Response>)
    ensures ParsedCalls(raw).Ok? ==> r == Ok(Response(content, ParsedCalls(raw).value))
    ensures ParsedCalls(raw).Err? ==> r == Err(ParsedCalls(raw).error)
  {
    var calls: seq<ToolCall> := [];
    var i := 0;
    while i < |raw|
      invariant 0 <= i <= |raw| && |calls| == i
      invariant forall k :: 0 <= k < i ==> raw[k].arguments.Decoded?
      invariant forall k :: 0 <= k < i ==> calls[k] == ToolCall(raw[k].id, raw[k].name, raw[k].arguments.args)
    {
      var args := ParseToolArguments(raw[i].arguments);
      if args.Err? {
        return Err(args.error);
      }
      calls := calls + [ToolCall(raw[i].id, raw[i].name, args.value)];
      i := i + 1;
    }
    assert ParsedCalls(raw).Ok? && ParsedCalls(raw).value == calls;
    return Ok(Response(content, calls));
  }

  /** What an attempt amounts to once parsed: the response, the endpoint's
      exception, or the ValueError of a malformed argument text. */
  function AttemptOutcome(a: Attempt): (r: Result<Response>)
  {
    match a
    case Failure(text) => Err(PythonError("APIError", text))
    case Reply(content, raw) =>
      match ParsedCalls(raw)
      case Ok(calls) => Ok(Response(content, calls))
      case Err(e) => Err(e)
  }

  /** The retry test: a keyword occurs anywhere in the lower-cased text. */
  predicate IsRetryable(text: string)
  {
    MentionsAny(Lower(text), RetryKeywords)
  }

  /** any(kw in s for kw in keywords), checked from the first keyword on. */
  predicate MentionsAny(s: string, keywords: seq<string>)
  {
    |keywords| > 0 && (Contains(s, keywords[0]) || MentionsAny(s, keywords[1..]))
  }

  /** The keyword test holds exactly when some keyword occurs in the text. */
  lemma {:induction false} MentionsAnySome(s: string, keywords: seq<string>)
    ensures MentionsAny(s, keywords) <==> exists k :: 0 <= k < |keywords| && Contains(s, keywords[k])
  {
    if |keywords| > 0 {
      MentionsAnySome(s, keywords[1..]);
      assert forall k :: 1 <= k < |keywords| ==> keywords[k] == keywords[1..][k - 1];
      if exists k :: 0 <= k < |keywords| && Contains(s, keywords[k]) {
        var k :| 0 <= k < |keywords| && Contains(s, keywords[k]);
        if k > 0 {
          assert Contains(s, keywords[1..][k - 1]);
        }
      }
    }
  }

  /** Attempt n failed, and the retry test accepts its error text. */
  predicate RetryableAt(oracle: Oracle, retryable: string -> bool, n: nat)
  {
    AttemptOutcome(oracle(n)).Err? && retryable(AttemptOutcome(oracle(n)).error.Message())
  }

  /** call_with_tools from attempt number `attempt` (counted from 0) of a
      request whose first attempt is oracle(start), retrying the failures
      whose text the retry test accepts. */
  function GatewayFrom(oracle: Oracle, retryable: string -> bool, start: nat, maxRetries: nat, attempt: nat): (r: GatewayRun)
    requires attempt <= maxRetries
    ensures attempt < r.attempts <= maxRetries + 1
    decreases maxRetries - attempt
  {
    match AttemptOutcome(oracle(start + attempt))
    case Ok(response) => GatewayRun(Ok(response), attempt + 1)
    case Err(e) =>
      if !retryable(e.Message()) || attempt >= maxRetries then
        GatewayRun(Err(FireworksAPIError(e.Message(), attempt)), attempt + 1)
      else
        GatewayFrom(oracle, retryable, start, maxRetries, attempt + 1)
  }

  /** One request as call_with_tools makes it, with the keyword retry test. */
  function Request(oracle: Oracle, start: nat, maxRetries: nat): GatewayRun
  {
    GatewayFrom(oracle, IsRetryable, start, maxRetries, 0)
  }

  /** The wait after the k-th failed attempt (counted from 0). */
  function Backoff(k: nat): (r: real)
    ensures r >= InitialBackoff
  {
    if k == 0 then InitialBackoff else Backoff(k - 1) * BackoffMultiplier
  }

  /** The first n waits. */
  function Backoffs(n: nat): (r: seq<real>)
    ensures |r| == n
    ensures forall k :: 0 <= k < n ==> r[k] == Backoff(k)
  {
    if n == 0 then [] else Backoffs(n - 1) + [Backoff(n - 1)]
  }

  /** call_with_tools: the result of the request, how many attempts it used,
      and the waits made between them. */
  method CallWithTools(oracle: Oracle, start: nat, maxRetries: nat)
    returns (result: Result<Response>, attempts: nat, sleeps: seq<real>)
    ensures GatewayRun(result, attempts) == Request(oracle, start, maxRetries)
    ensures attempts >= 1 && sleeps == Backoffs(attempts - 1)
  {
    var attempt := 0;
    var backoff := InitialBackoff;
    sleeps := [];
    while true
      invariant attempt <= maxRetries
      invariant GatewayFrom(oracle, IsRetryable, start, maxRetries, attempt) == Request(oracle, start, maxRetries)
      invariant sleeps == Backoffs(attempt) && backoff == Backoff(attempt)
      decreases maxRetries - attempt
    {
      var a := oracle(start + attempt);
      var outcome: Result<Response>;
      if a.Failure? {
        outcome := Err(PythonError("APIError", a.errorText));
      } else {
        outcome := ParseResponse(a.content, a.toolCalls);
      }
      if outcome.Ok? {
        return outcome, attempt + 1, sleeps;
      }
      var text := outcome.error.Message();
      if !IsRetryable(text) || attempt >= maxRetries {
        return Err(FireworksAPIError(text, attempt)), attempt + 1, sleeps;
      }
      sleeps := sleeps + [backoff];
      backoff := backoff * BackoffMultiplier;
      attempt := attempt + 1;
    }
  }

  /** Every attempt before the last one failed with a text the retry test
      accepts. */
  lemma {:induction false} GatewayFromRetried(oracle: Oracle, retryable: string -> bool, start: nat, maxRetries: nat, attempt: nat)
    requires attempt <= maxRetries
    ensures forall n :: start + attempt <= n < start + GatewayFrom(oracle, retryable, start, maxRetries, attempt).attempts - 1 ==>
              RetryableAt(oracle, retryable, n)
    decreases maxRetries - attempt
  {
    var o := AttemptOutcome(oracle(start + attempt));
    if o.Err? && retryable(o.error.Message()) && attempt < maxRetries {
      GatewayFromRetried(oracle, retryable, start, maxRetries, attempt + 1);
      assert RetryableAt(oracle, retryable, start + attempt);
    }
  }

  /** A success is the last attempt's parsed response. */
  lemma {:induction false} GatewayFromSuccess(oracle: Oracle, retryable: string -> bool, start: nat, maxRetries: nat, attempt: nat)
    requires attempt <= maxRetries
    requires GatewayFrom(oracle, retryable, start, maxRetries, attempt).result.Ok?
    ensures var g := GatewayFrom(oracle, retryable, start, maxRetries, attempt);
            g.result == AttemptOutcome(oracle(start + g.attempts - 1))
    decreases maxRetries - attempt
  {
    var o := AttemptOutcome(oracle(start + attempt));
    if o.Err? && retryable(o.error.Message()) && attempt < maxRetries {
      GatewayFromSuccess(oracle, retryable, start, maxRetries, attempt + 1);
    }
  }

  /** A failure carries the last attempt's error text and number, and that
      error was either rejected by the retry test or the last one allowed. */
  lemma {:induction false} GatewayFromFailure(oracle: Oracle, retryable: string -> bool, start: nat, maxRetries: nat, attempt: nat)
    requires attempt <= maxRetries
    requires GatewayFrom(oracle, retryable, start, maxRetries, attempt).result.Err?
    ensures var g := GatewayFrom(oracle, retryable, start, maxRetries, attempt);
            var last := AttemptOutcome(oracle(start + g.attempts - 1));
            last.Err? &&
            g.result.error == FireworksAPIError(last.error.Message(), g.attempts - 1) &&
            (!retryable(last.error.Message()) || g.attempts - 1 == maxRetries)
    decreases maxRetries - attempt
  {
    var o := AttemptOutcome(oracle(start + attempt));
    if o.Err? && retryable(o.error.Message()) && attempt < maxRetries {
      GatewayFromFailure(oracle, retryable, start, maxRetries, attempt + 1);
    }
  }

  /** What call_with_tools promises, for any retry test: at most
      maxRetries + 1 attempts; every attempt but the last failed with a text
      the test accepts; a success returns the last attempt's parsed response;
      a failure carries the last error's text and its attempt number, and
      that text was rejected by the test or the attempt was the last allowed. */
  lemma GatewayOutcome(oracle: Oracle, retryable: string -> bool, start: nat, maxRetries: nat)
    ensures var g := GatewayFrom(oracle, retryable, start, maxRetries, 0);
            var last := AttemptOutcome(oracle(start + g.attempts - 1));
            1 <= g.attempts <= maxRetries + 1 &&
            (forall n :: start <= n < start + g.attempts - 1 ==> RetryableAt(oracle, retryable, n)) &&
            (g.result.Ok? ==> g.result == last) &&
            (g.result.Err? ==>
               last.Err? &&
               g.result.error == FireworksAPIError(last.error.Message(), g.attempts - 1) &&
               (!retryable(last.error.Message()) || g.attempts - 1 == maxRetries))
  {
    GatewayFromRetried(oracle, retryable, start, maxRetries, 0);
    if GatewayFrom(oracle, retryable, start, maxRetries, 0).result.Ok? {
      GatewayFromSuccess(oracle, retryable, start, maxRetries, 0);
    } else {
      GatewayFromFailure(oracle, retryable, start, maxRetries, 0);
    }
  }

  /** A first attempt that succeeds is returned at once. */
  lemma FirstSuccessReturned(oracle: Oracle, start: nat, maxRetries: nat)
    requires AttemptOutcome(oracle(start)).Ok?
    ensures Request(oracle, start, maxRetries) == GatewayRun(AttemptOutcome(oracle(start)), 1)
  {
  }

  /** When every allowed attempt fails with a text the retry test accepts,
      all of them are made and the error reports maxRetries retries. */
  lemma ExhaustedRetries(oracle: Oracle, retryable: string -> bool, start: nat, maxRetries: nat)
    requires forall n :: start <= n <= start + maxRetries ==> RetryableAt(oracle, retryable, n)
    ensures GatewayFrom(oracle, retryable, start, maxRetries, 0).attempts == maxRetries + 1
    ensures var g := GatewayFrom(oracle, retryable, start, maxRetries, 0);
            g.result.Err? && g.result.error.FireworksAPIError? && g.result.error.retries == maxRetries
  {
    GatewayOutcome(oracle, retryable, start, maxRetries);
    var g := GatewayFrom(oracle, retryable, start, maxRetries, 0);
    assert RetryableAt(oracle, retryable, start + g.attempts - 1);
  }

  /** A failure the retry test rejects ends the request on the attempt it
      happened, with that attempt's number as the retry count. */
  lemma NonRetryableStops(oracle: Oracle, retryable: string -> bool, start: nat, maxRetries: nat, k: nat)
    requires k <= maxRetries
    requires forall n :: start <= n < start + k ==> RetryableAt(oracle, retryable, n)
    requires AttemptOutcome(oracle(start + k)).Err?
    requires !retryable(AttemptOutcome(oracle(start + k)).error.Message())
    ensures GatewayFrom(oracle, retryable, start, maxRetries, 0) ==
            GatewayRun(Err(FireworksAPIError(AttemptOutcome(oracle(start + k)).error.Message(), k)), k + 1)
  {
    GatewayOutcome(oracle, retryable, start, maxRetries);
    var g := GatewayFrom(oracle, retryable, start, maxRetries, 0);
    assert g.attempts - 1 < k ==> RetryableAt(oracle, retryable, start + g.attempts - 1);
    assert g.attempts - 1 > k ==> RetryableAt(oracle, retryable, start + k);
  }

  /** Malformed argument text on a reply is not kept apart from endpoint
      failures: it is classified by the same keyword test, and when its text
      is not transient it ends the request as a FireworksAPIError. */
  lemma MalformedArgumentsBecomeApiError(oracle: Oracle, start: nat, maxRetries: nat,
                                         content: Option<string>, id: string, name: string, err: string)
    requires oracle(start) == Reply(content, [RawToolCall(id, name, Malformed(err))])
    requires !IsRetryable(ArgumentError(err).Message())
    ensures Request(oracle, start, maxRetries) ==
            GatewayRun(Err(FireworksAPIError("Failed to parse tool arguments: " + err, 0)), 1)
  {
    var raw := [RawToolCall(id, name, Malformed(err))];
    assert ParsedCalls(raw) == Err(ArgumentError(err));
  }

  /** The keyword test is a bare substring match: any JSON decoding error that
      merely mentions "500" (a character position, say) is classified as a
      transient server error, so a malformed argument text with such a message
      is retried rather than reported. */
  lemma MalformedMentioning500IsRetryable(before: string, after: string)
    ensures IsRetryable(ArgumentError(before + "500" + after).Message())
  {
    var p := "Failed to parse tool arguments: " + before;
    var text := ArgumentError(before + "500" + after).Message();
    assert text == p + "500" + after;
    LowerKeeps500(p, after);
    assert OccursAt(Lower(text), RetryKeywords[4], |p|);
    MentionsAnySome(Lower(text), RetryKeywords);
  }

  /** Lower-casing leaves the digits "500" where they were. */
  lemma LowerKeeps500(p: string, after: string)
    ensures OccursAt(Lower(p + "500" + after), "500", |p|)
  {
    LowerAppend(p + "500", after);
    LowerAppend(p, "500");
    assert Lower("500") == "500";
    assert Lower(p + "500" + after) == Lower(p) + "500" + Lower(after);
  }

  /** Waits double, so each is strictly longer than every earlier one. */
  lemma {:induction false} BackoffIncreases(i: nat, j: nat)
    requires i < j
    ensures Backoff(i) < Backoff(j)
    decreases j
  {
    if i < j - 1 {
      BackoffIncreases(i, j - 1);
    }
  }

  /** The k-th wait is 2^k seconds. */
  lemma BackoffValues()
    ensures Backoffs(3) == [1.0, 2.0, 4.0]
  {
  }
}
