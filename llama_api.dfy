/** The question-answering agent (llama_api.py): date repair, the widening
    retry around a fetch, and the two-turn exchange with the language model.

    `today` is a parameter (the code reads the host clock); the model's
    replies come from `llm`, a function from the conversation sent to the
    reply received; every fetch goes through `FredApi.CallFredApi` and its
    abstract data source. */
module LlamaApi {
  import opened Wrappers
  import opened Dates
  import opened MetricsComputing
  import opened FredApi

  // ---------------------------------------------------------------------------
  // Date repair (`fix_date_parameters`)
  // ---------------------------------------------------------------------------

  /** Repairs a requested range, returning day numbers that `strftime` turns
      back into strings: an unparsable date gives the year ending today; a
      range whose both ends are today is widened to that year; a reversed
      range keeps its end and starts a year before it. */
  function FixDateParameters(start: DateText, end: DateText, today: int): (r: (int, int))
    ensures r.0 <= r.1
  {
    var parsed := if start.Iso? && end.Iso? then (start.day, end.day) else (today - DAYS_PER_YEAR, today);
    var s := parsed.0;
    var e := parsed.1;
    if s == e == today then (today - DAYS_PER_YEAR, today)
    else if s > e then (e - DAYS_PER_YEAR, e)
    else (s, e)
  }

  /** The four outcomes of the repair, branch by branch. */
  lemma FixDateParametersCases(start: DateText, end: DateText, today: int)
    ensures !(start.Iso? && end.Iso?) ==>
      FixDateParameters(start, end, today) == (today - DAYS_PER_YEAR, today)
    ensures start == end == Iso(today) ==>
      FixDateParameters(start, end, today) == (today - DAYS_PER_YEAR, today)
    ensures start.Iso? && end.Iso? && start.day > end.day ==>
      FixDateParameters(start, end, today) == (end.day - DAYS_PER_YEAR, end.day)
    ensures start.Iso? && end.Iso? && start.day <= end.day && !(start.day == end.day == today) ==>
      FixDateParameters(start, end, today) == (start.day, end.day)
  {
  }

  /** Only a same-day range on today itself is widened: the same day on any
      other date passes through as a one-day range. */
  lemma SameDayElsewhereKept(day: int, today: int)
    requires day != today
    ensures FixDateParameters(Iso(day), Iso(day), today) == (day, day)
  {
  }

  /** Repairing a repaired range changes nothing (for a fixed `today`). */
  lemma FixDateParametersIdempotent(start: DateText, end: DateText, today: int)
    ensures var r := FixDateParameters(start, end, today);
      FixDateParameters(Iso(r.0), Iso(r.1), today) == r
  {
    var r := FixDateParameters(start, end, today);
    if r.0 == r.1 {
      assert r.0 != today;
    }
  }

  // ---------------------------------------------------------------------------
  // Widening retry (`call_fred_api_with_fallback`)
  // ---------------------------------------------------------------------------

  /** `result['success'] and result.get('data')`. */
  predicate HasData(r: SeriesResult) {
    r.Fetched? && r.data != []
  }

  /** The result the fallback returns and the start day of each fetch it made. */
  datatype FallbackRun = FallbackRun(result: SeriesResult, starts: seq<int>)

  /** Attempts `attempt` .. `maxRetries - 1`, the first of them from `start`. */
  function FallbackFrom(seriesId: string, start: int, end: int, attempt: nat, maxRetries: nat, env: Env): FallbackRun
    requires attempt < maxRetries
    decreases maxRetries - attempt
  {
    var r := CallFredApi(seriesId, Iso(start), Iso(end), env);
    if HasData(r) || attempt + 1 == maxRetries then FallbackRun(r, [start])
    else
      var rest := FallbackFrom(seriesId, start - DAYS_PER_YEAR, end, attempt + 1, maxRetries, env);
      FallbackRun(rest.result, [start] + rest.starts)
  }

  /** The whole fallback: repair the dates, then fetch with widening. */
  function Fallback(seriesId: string, start: DateText, end: DateText, today: int, maxRetries: nat, env: Env): FallbackRun
    requires maxRetries >= 1
  {
    var fixed := FixDateParameters(start, end, today);
    FallbackFrom(seriesId, fixed.0, fixed.1, 0, maxRetries, env)
  }

  /** From attempt `attempt` on: between one and `maxRetries - attempt`
      fetches; the j-th starts 365·j days before the first and all end on
      `end`; every fetch but the last came back without data; the result is
      the last fetch's, and it has data unless the budget ran out. */
  lemma {:induction false} FallbackFromShape(seriesId: string, start: int, end: int, attempt: nat, maxRetries: nat, env: Env)
    requires attempt < maxRetries
    ensures var run := FallbackFrom(seriesId, start, end, attempt, maxRetries, env);
      && 1 <= |run.starts| <= maxRetries - attempt
      && (forall j :: 0 <= j < |run.starts| ==> run.starts[j] == start - DAYS_PER_YEAR * j)
      && (forall j :: 0 <= j < |run.starts| - 1 ==> !HasData(CallFredApi(seriesId, Iso(run.starts[j]), Iso(end), env)))
      && run.result == CallFredApi(seriesId, Iso(run.starts[|run.starts| - 1]), Iso(end), env)
      && (HasData(run.result) || |run.starts| == maxRetries - attempt)
    decreases maxRetries - attempt
  {
    var r := CallFredApi(seriesId, Iso(start), Iso(end), env);
    if HasData(r) || attempt + 1 == maxRetries {
      FallbackFromStops(seriesId, start, end, attempt, maxRetries, env);
    } else {
      FallbackFromContinues(seriesId, start, end, attempt, maxRetries, env);
      FallbackFromShape(seriesId, start - DAYS_PER_YEAR, end, attempt + 1, maxRetries, env);
      var rest := FallbackFrom(seriesId, start - DAYS_PER_YEAR, end, attempt + 1, maxRetries, env);
      var starts := [start] + rest.starts;
      forall j | 1 <= j < |starts|
        ensures starts[j] == rest.starts[j - 1] == start - DAYS_PER_YEAR * j
      {
      }
      forall j | 0 <= j < |starts| - 1
        ensures !HasData(CallFredApi(seriesId, Iso(starts[j]), Iso(end), env))
      {
        if j > 0 {
          assert starts[j] == rest.starts[j - 1];
        }
      }
      assert starts[|starts| - 1] == rest.starts[|rest.starts| - 1];
    }
  }

  /** The fallback makes at most `maxRetries` fetches, the first on the
      repaired range; each retry moves only the start, one year earlier; it
      returns the first result with data, else the last result. */
  lemma FallbackContract(seriesId: string, start: DateText, end: DateText, today: int, maxRetries: nat, env: Env)
    requires maxRetries >= 1
    ensures var fixed := FixDateParameters(start, end, today);
      var run := Fallback(seriesId, start, end, today, maxRetries, env);
      && 1 <= |run.starts| <= maxRetries
      && run.starts[0] == fixed.0
      && (forall j :: 0 <= j < |run.starts| ==> run.starts[j] == fixed.0 - DAYS_PER_YEAR * j)
      && (forall j :: 0 <= j < |run.starts| - 1 ==> !HasData(CallFredApi(seriesId, Iso(run.starts[j]), Iso(fixed.1), env)))
      && run.result == CallFredApi(seriesId, Iso(run.starts[|run.starts| - 1]), Iso(fixed.1), env)
      && (HasData(run.result) || |run.starts| == maxRetries)
  {
    var fixed := FixDateParameters(start, end, today);
    FallbackFromShape(seriesId, fixed.0, fixed.1, 0, maxRetries, env);
  }

  /** With the default budget of one attempt there is no retry at all: one
      fetch on the repaired range, whatever it returns. */
  lemma DefaultBudgetNeverRetries(seriesId: string, start: DateText, end: DateText, today: int, env: Env)
    ensures var fixed := FixDateParameters(start, end, today);
      Fallback(seriesId, start, end, today, 1, env)
        == FallbackRun(CallFredApi(seriesId, Iso(fixed.0), Iso(fixed.1), env), [fixed.0])
  {
  }

  /** With two attempts, an empty first fetch and a second fetch with data,
      the result is the second fetch's, started a year earlier. */
  lemma SecondAttemptWidens(seriesId: string, start: DateText, end: DateText, today: int, env: Env)
    requires var fixed := FixDateParameters(start, end, today);
      && !HasData(CallFredApi(seriesId, Iso(fixed.0), Iso(fixed.1), env))
      && HasData(CallFredApi(seriesId, Iso(fixed.0 - DAYS_PER_YEAR), Iso(fixed.1), env))
    ensures var fixed := FixDateParameters(start, end, today);
      Fallback(seriesId, start, end, today, 2, env)
        == FallbackRun(CallFredApi(seriesId, Iso(fixed.0 - DAYS_PER_YEAR), Iso(fixed.1), env),
                       [fixed.0, fixed.0 - DAYS_PER_YEAR])
  {
  }

  /** A fetch that has data, or spends the last attempt, ends the run. */
  lemma FallbackFromStops(seriesId: string, start: int, end: int, attempt: nat, maxRetries: nat, env: Env)
    requires attempt < maxRetries
    requires HasData(CallFredApi(seriesId, Iso(start), Iso(end), env)) || attempt + 1 == maxRetries
    ensures FallbackFrom(seriesId, start, end, attempt, maxRetries, env)
      == FallbackRun(CallFredApi(seriesId, Iso(start), Iso(end), env), [start])
  {
  }

  /** A fetch without data, with attempts left, is followed by the run from
      a year earlier. */
  lemma FallbackFromContinues(seriesId: string, start: int, end: int, attempt: nat, maxRetries: nat, env: Env)
    requires attempt + 1 < maxRetries
    requires !HasData(CallFredApi(seriesId, Iso(start), Iso(end), env))
    ensures var rest := FallbackFrom(seriesId, start - DAYS_PER_YEAR, end, attempt + 1, maxRetries, env);
      FallbackFrom(seriesId, start, end, attempt, maxRetries, env) == FallbackRun(rest.result, [start] + rest.starts)
  {
  }

  /** `call_fred_api_with_fallback`: repairs the range, then runs the retry
      loop on it.  `starts` records the start day of each fetch made. */
  method CallFredApiWithFallback(seriesId: string, start: DateText, end: DateText, today: int, maxRetries: nat, env: Env)
    returns (result: SeriesResult, ghost starts: seq<int>)
    requires maxRetries >= 1
    ensures result == Fallback(seriesId, start, end, today, maxRetries, env).result
    ensures starts == Fallback(seriesId, start, end, today, maxRetries, env).starts
  {
    var fixed := FixDateParameters(start, end, today);
    result, starts := FetchWithRetries(seriesId, fixed.0, fixed.1, maxRetries, env);
  }

  /** The retry loop of `call_fred_api_with_fallback` on a repaired range:
      fetch, stop on data or when the budget is spent, else move the start a
      year earlier. */
  method FetchWithRetries(seriesId: string, startDay: int, endDay: int, maxRetries: nat, env: Env)
    returns (result: SeriesResult, ghost starts: seq<int>)
    requires maxRetries >= 1
    ensures result == FallbackFrom(seriesId, startDay, endDay, 0, maxRetries, env).result
    ensures starts == FallbackFrom(seriesId, startDay, endDay, 0, maxRetries, env).starts
  {
    ghost var goal := FallbackFrom(seriesId, startDay, endDay, 0, maxRetries, env);
    ghost var rest := goal;
    var day := startDay;
    result := FetchFailed(NoSeriesId);  // overwritten: the loop below runs at least once
    starts := [];
    for attempt := 0 to maxRetries
      invariant |starts| == attempt
      invariant attempt < maxRetries ==> rest == FallbackFrom(seriesId, day, endDay, attempt, maxRetries, env)
      invariant attempt < maxRetries ==> goal == FallbackRun(rest.result, starts + rest.starts)
      invariant attempt == maxRetries ==> goal == FallbackRun(result, starts)
    {
      result := CallFredApi(seriesId, Iso(day), Iso(endDay), env);
      ghost var previous := starts;
      starts := starts + [day];
      if HasData(result) {
        FallbackFromStops(seriesId, day, endDay, attempt, maxRetries, env);
        return;
      }
      if attempt < maxRetries - 1 {
        FallbackFromContinues(seriesId, day, endDay, attempt, maxRetries, env);
        ghost var next := FallbackFrom(seriesId, day - DAYS_PER_YEAR, endDay, attempt + 1, maxRetries, env);
        assert previous + ([day] + next.starts) == starts + next.starts;
        day := day - DAYS_PER_YEAR;
        rest := next;
      } else {
        FallbackFromStops(seriesId, day, endDay, attempt, maxRetries, env);
      }
    }
  }

  // ---------------------------------------------------------------------------
  // Tool-call extraction (`FredLLMAgent.extract_tool_calls`)
  // ---------------------------------------------------------------------------

  /** The argument keys a tool call may carry (None: key absent). */
  datatype Arguments = Arguments(
    seriesId: Option<string>,
    startDate: Option<DateText>,
    start: Option<DateText>,
    endDate: Option<DateText>,
    end: Option<DateText>)

  datatype FunctionCall = FunctionCall(arguments: Option<Arguments>)
  datatype RawToolCall = RawToolCall(fn: Option<FunctionCall>)

  /** The `message` of a chat reply: optional text and optional tool calls. */
  datatype AssistantMessage = AssistantMessage(content: Option<string>, toolCalls: Option<seq<RawToolCall>>)

  datatype Reply = Reply(message: Option<AssistantMessage>)

  /** An extracted call: `{series_id, start_date, end_date}`. */
  datatype ToolCall = ToolCall(seriesId: string, startDate: DateText, endDate: DateText)

  /** `success=False` with an error, or `success=True` with the calls; the
      direct answer is set exactly when the reply had no `tool_calls` key. */
  datatype Extraction =
    | ExtractionFailed(error: string)
    | Extracted(calls: seq<ToolCall>, directAnswer: Option<string>, message: AssistantMessage)

  const NO_MESSAGE: string := "No message in LLM response"

  /** Python's `str.isspace()`: the ASCII separators U+0009..U+000D and
      U+001C..U+001F, the space, and the Unicode whitespace U+0085, U+00A0,
      U+1680, U+2000..U+200A, U+2028, U+2029, U+202F, U+205F and U+3000. */
  predicate IsSpace(c: char) {
    || ('\t' <= c <= '\r')
    || ('\U{001C}' <= c <= ' ')
    || c == '\U{0085}' || c == '\U{00A0}' || c == '\U{1680}'
    || ('\U{2000}' <= c <= '\U{200A}')
    || c == '\U{2028}' || c == '\U{2029}' || c == '\U{202F}' || c == '\U{205F}' || c == '\U{3000}'
  }

  /** A leading unit separator is stripped from a series id. */
  lemma StripUnitSeparator()
    ensures Strip("\U{001F}GDP") == "GDP"
  {
    assert IsSpace('\U{001F}') && !IsSpace('G') && !IsSpace('P');
    assert LeadingSpaces("\U{001F}GDP") == 1;
    assert TrailingSpaces("\U{001F}GDP") == 0;
    assert "\U{001F}GDP"[1..4] == "GDP";
  }

  /** How many whitespace characters `s` starts with. */
  function LeadingSpaces(s: string): (n: nat)
    ensures n <= |s|
    ensures forall i :: 0 <= i < n ==> IsSpace(s[i])
    ensures n < |s| ==> !IsSpace(s[n])
  {
    if s != [] && IsSpace(s[0]) then 1 + LeadingSpaces(s[1..]) else 0
  }

  /** How many whitespace characters `s` ends with. */
  function TrailingSpaces(s: string): (n: nat)
    ensures n <= |s|
    ensures forall i :: |s| - n <= i < |s| ==> IsSpace(s[i])
    ensures n < |s| ==> !IsSpace(s[|s| - n - 1])
  {
    if s != [] && IsSpace(s[|s| - 1]) then 1 + TrailingSpaces(s[..|s| - 1]) else 0
  }

  function StripLeft(s: string): (r: string)
    ensures |r| <= |s| && r == s[|s| - |r|..]
    ensures r == [] || !IsSpace(r[0])
    ensures forall i :: 0 <= i < |s| - |r| ==> IsSpace(s[i])
  {
    s[LeadingSpaces(s)..]
  }

  function StripRight(s: string): (r: string)
    ensures |r| <= |s| && r == s[..|r|]
    ensures r == [] || !IsSpace(r[|r| - 1])
    ensures forall i :: |r| <= i < |s| ==> IsSpace(s[i])
  {
    s[..|s| - TrailingSpaces(s)]
  }

  /** `str.strip()`: a slice of `s` that neither starts nor ends with
      whitespace, everything cut away being whitespace. */
  function Strip(s: string): (r: string)
    ensures var i := LeadingSpaces(s);
      && 0 <= i <= |s| - |r| && r == s[i..i + |r|]
      && (forall k :: 0 <= k < i ==> IsSpace(s[k]))
      && (forall k :: i + |r| <= k < |s| ==> IsSpace(s[k]))
    ensures r == [] || (!IsSpace(r[0]) && !IsSpace(r[|r| - 1]))
  {
    var i := LeadingSpaces(s);
    s[i..StripEnd(s, i)]
  }

  /** Where `str.strip()` ends the kept part of `s` that starts at `i`: only
      whitespace follows it, and a non-empty kept part ends on a
      non-whitespace character. */
  function StripEnd(s: string, i: nat): (j: nat)
    requires i <= |s| && (i == |s| || !IsSpace(s[i]))
    ensures i <= j <= |s|
    ensures forall k :: j <= k < |s| ==> IsSpace(s[k])
    ensures i < j ==> !IsSpace(s[j - 1])
  {
    if i == |s| then i else |s| - TrailingSpaces(s)
  }

  lemma StripIdempotent(s: string)
    ensures Strip(Strip(s)) == Strip(s)
  {
    var r := Strip(s);
    assert StripLeft(r) == r;
    assert StripRight(r) == r;
  }

  /** One record: the id stripped; each date from `start_date` when that is
      non-empty, else from `start`, else ''. */
  function CallOf(args: Arguments): (call: ToolCall)
    ensures call.seriesId == Strip(args.seriesId.GetOr(""))
    ensures args.startDate.Some? && Present(args.startDate.value) ==> call.startDate == args.startDate.value
    ensures !(args.startDate.Some? && Present(args.startDate.value)) ==> call.startDate == args.start.GetOr(Blank)
    ensures args.endDate.Some? && Present(args.endDate.value) ==> call.endDate == args.endDate.value
    ensures !(args.endDate.Some? && Present(args.endDate.value)) ==> call.endDate == args.end.GetOr(Blank)
  {
    ToolCall(
      Strip(args.seriesId.GetOr("")),
      if args.startDate.Some? && Present(args.startDate.value) then args.startDate.value else args.start.GetOr(Blank),
      if args.endDate.Some? && Present(args.endDate.value) then args.endDate.value else args.end.GetOr(Blank))
  }

  /** `tool_call["function"]["arguments"]`, or the text of the KeyError. */
  function ArgumentsOf(raw: RawToolCall): (r: Result<Arguments, string>)
    ensures r.Success? <==> raw.fn.Some? && raw.fn.value.arguments.Some?
    ensures r.Failure? ==> r.error == "'function'" || r.error == "'arguments'"
  {
    match raw.fn
    case None => Failure("'function'")
    case Some(f) =>
      match f.arguments
      case None => Failure("'arguments'")
      case Some(args) => Success(args)
  }

  /** The calls extracted from a list of raw tool calls; the first malformed
      one raises and ends the extraction. */
  function CallsOf(raw: seq<RawToolCall>): (r: Result<seq<ToolCall>, string>)
    ensures r.Success? ==> |r.value| == |raw|
  {
    if raw == [] then Success([])
    else
      match CallsOf(raw[..|raw| - 1])
      case Failure(e) => Failure(e)
      case Success(calls) =>
        match ArgumentsOf(raw[|raw| - 1])
        case Failure(e) => Failure(e)
        case Success(args) => Success(calls + [CallOf(args)])
  }

  function ExtractionOf(reply: Reply): Extraction {
    match reply.message
    case None => ExtractionFailed(NO_MESSAGE)
    case Some(m) =>
      match m.toolCalls
      case None => Extracted([], Some(m.content.GetOr("")), m)
      case Some(raw) =>
        match CallsOf(raw)
        case Failure(e) => ExtractionFailed(e)
        case Success(calls) => Extracted(calls, None, m)
  }

  /** One step of `CallsOf`: it succeeds on a non-empty list exactly when it
      succeeds on all but the last call and the last call has its arguments. */
  lemma CallsOfStep(raw: seq<RawToolCall>)
    requires raw != []
    ensures CallsOf(raw).Success? <==>
      CallsOf(raw[..|raw| - 1]).Success? && ArgumentsOf(raw[|raw| - 1]).Success?
  {
  }

  predicate AllHaveArguments(raw: seq<RawToolCall>) {
    forall i :: 0 <= i < |raw| ==> ArgumentsOf(raw[i]).Success?
  }

  /** Every call of a non-empty list has its arguments exactly when every call
      but the last does and the last does too. */
  lemma AllArgumentsStep(raw: seq<RawToolCall>)
    requires raw != []
    ensures AllHaveArguments(raw) <==>
      AllHaveArguments(raw[..|raw| - 1]) && ArgumentsOf(raw[|raw| - 1]).Success?
  {
    assert forall i :: 0 <= i < |raw| - 1 ==> raw[..|raw| - 1][i] == raw[i];
  }

  /** The extraction succeeds exactly when every tool call has its function
      and its arguments. */
  lemma {:induction false} CallsOfSucceeds(raw: seq<RawToolCall>)
    ensures CallsOf(raw).Success? <==> AllHaveArguments(raw)
  {
    if raw != [] {
      CallsOfSucceeds(raw[..|raw| - 1]);
      CallsOfStep(raw);
      AllArgumentsStep(raw);
    }
  }

  /** The last step of a successful `CallsOf`: the records of all but the
      last call, then the last call's record. */
  lemma CallsOfLast(raw: seq<RawToolCall>)
    requires raw != [] && CallsOf(raw).Success?
    ensures CallsOf(raw[..|raw| - 1]).Success? && ArgumentsOf(raw[|raw| - 1]).Success?
    ensures CallsOf(raw).value
      == CallsOf(raw[..|raw| - 1]).value + [CallOf(ArgumentsOf(raw[|raw| - 1]).value)]
  {
  }

  /** Record i is built from tool call i. */
  lemma {:induction false} CallsOfValues(raw: seq<RawToolCall>)
    requires CallsOf(raw).Success?
    ensures forall i :: 0 <= i < |raw| ==>
      ArgumentsOf(raw[i]).Success? && CallsOf(raw).value[i] == CallOf(ArgumentsOf(raw[i]).value)
  {
    if raw != [] {
      var init := raw[..|raw| - 1];
      CallsOfLast(raw);
      CallsOfValues(init);
      var calls := CallsOf(raw).value;
      var prev := CallsOf(init).value;
      forall i | 0 <= i < |raw|
        ensures ArgumentsOf(raw[i]).Success? && calls[i] == CallOf(ArgumentsOf(raw[i]).value)
      {
        if i < |init| {
          assert init[i] == raw[i] && calls[i] == prev[i];
        }
      }
    }
  }

  /** A reply without `message` fails; one without `tool_calls` is a direct
      answer with no calls; otherwise one record per tool call, in order,
      unless a tool call lacks its function or arguments. */
  lemma ExtractionFacts(reply: Reply)
    ensures reply.message.None? <==> ExtractionOf(reply) == ExtractionFailed(NO_MESSAGE)
    ensures reply.message.Some? && reply.message.value.toolCalls.None? ==>
      ExtractionOf(reply) == Extracted([], Some(reply.message.value.content.GetOr("")), reply.message.value)
    ensures reply.message.Some? && reply.message.value.toolCalls.Some? ==>
      var raw := reply.message.value.toolCalls.value;
      && (ExtractionOf(reply).Extracted? <==> forall i :: 0 <= i < |raw| ==> ArgumentsOf(raw[i]).Success?)
      && (ExtractionOf(reply).Extracted? ==>
            && ExtractionOf(reply).directAnswer.None?
            && |ExtractionOf(reply).calls| == |raw|
            && forall i :: 0 <= i < |raw| ==> ExtractionOf(reply).calls[i] == CallOf(ArgumentsOf(raw[i]).value))
  {
    if reply.message.Some? && reply.message.value.toolCalls.Some? {
      var raw := reply.message.value.toolCalls.value;
      CallsOfSucceeds(raw);
      if CallsOf(raw).Success? {
        CallsOfValues(raw);
      }
    }
    if reply.message.Some? {
      assert NO_MESSAGE != "'function'" && NO_MESSAGE != "'arguments'";
      CallsOfErrors(reply.message.value.toolCalls.GetOr([]));
    }
  }

  lemma {:induction false} CallsOfErrors(raw: seq<RawToolCall>)
    ensures CallsOf(raw).Failure? ==> CallsOf(raw).error in {"'function'", "'arguments'"}
  {
    if raw != [] {
      CallsOfErrors(raw[..|raw| - 1]);
    }
  }

  /** The extraction loop over the reply's tool calls. */
  method ExtractToolCalls(reply: Reply) returns (extraction: Extraction)
    ensures extraction == ExtractionOf(reply)
  {
    if reply.message.None? {
      return ExtractionFailed(NO_MESSAGE);
    }
    var message := reply.message.value;
    if message.toolCalls.None? {
      return Extracted([], Some(message.content.GetOr("")), message);
    }
    var raw := message.toolCalls.value;
    var extracted: seq<ToolCall> := [];
    for i := 0 to |raw|
      invariant CallsOf(raw[..i]) == Success(extracted)
    {
      var args := ArgumentsOf(raw[i]);
      CallsOfExtend(raw, i, extracted);
      if args.Failure? {
        CallsOfFailurePersists(raw, i + 1);
        return ExtractionFailed(args.error);
      }
      extracted := extracted + [CallOf(args.value)];
    }
    assert raw[..|raw|] == raw;
    extraction := Extracted(extracted, None, message);
  }

  /** One more raw call either fails the extraction with its own error or
      adds its record. */
  lemma CallsOfExtend(raw: seq<RawToolCall>, i: nat, extracted: seq<ToolCall>)
    requires i < |raw| && CallsOf(raw[..i]) == Success(extracted)
    ensures ArgumentsOf(raw[i]).Failure? ==> CallsOf(raw[..i + 1]) == Failure(ArgumentsOf(raw[i]).error)
    ensures ArgumentsOf(raw[i]).Success? ==>
      CallsOf(raw[..i + 1]) == Success(extracted + [CallOf(ArgumentsOf(raw[i]).value)])
  {
    assert raw[..i + 1][..i] == raw[..i];
  }

  lemma {:induction false} CallsOfFailurePersists(raw: seq<RawToolCall>, n: nat)
    requires n <= |raw| && CallsOf(raw[..n]).Failure?
    ensures CallsOf(raw) == CallsOf(raw[..n])
    decreases |raw| - n
  {
    if n < |raw| {
      assert raw[..n + 1][..n] == raw[..n];
      CallsOfFailurePersists(raw, n + 1);
    } else {
      assert raw[..n] == raw;
    }
  }

  // ---------------------------------------------------------------------------
  // Tool-call execution (`FredLLMAgent.execute_tool_calls`)
  // ---------------------------------------------------------------------------

  /** A result with the `tool_call_index` the loop adds to it. */
  datatype Slot = Slot(index: nat, result: SeriesResult)

  /** The start used when the call gives none: two years (730 days) back. */
  function ResolvedStart(call: ToolCall, today: int): (d: DateText)
    ensures Present(call.startDate) ==> d == call.startDate
    ensures !Present(call.startDate) ==> d == Iso(today - 2 * DAYS_PER_YEAR)
  {
    if Present(call.startDate) then call.startDate else Iso(today - 2 * DAYS_PER_YEAR)
  }

  /** The end used when the call gives none: today. */
  function ResolvedEnd(call: ToolCall, today: int): (d: DateText)
    ensures Present(call.endDate) ==> d == call.endDate
    ensures !Present(call.endDate) ==> d == Iso(today)
  {
    if Present(call.endDate) then call.endDate else Iso(today)
  }

  /** The agent calls the fallback with its default budget. */
  const DEFAULT_MAX_RETRIES: nat := 1

  function SlotOf(call: ToolCall, index: nat, today: int, useFallback: bool, env: Env): Slot {
    if call.seriesId == "" then Slot(index, FetchFailed(NoSeriesId))
    else if useFallback then
      Slot(index, Fallback(call.seriesId, ResolvedStart(call, today), ResolvedEnd(call, today), today, DEFAULT_MAX_RETRIES, env).result)
    else
      Slot(index, CallFredApi(call.seriesId, ResolvedStart(call, today), ResolvedEnd(call, today), env))
  }

  function ExecutionOf(calls: seq<ToolCall>, today: int, useFallback: bool, env: Env): (slots: seq<Slot>)
    ensures |slots| == |calls|
    ensures forall i :: 0 <= i < |calls| ==> slots[i] == SlotOf(calls[i], i, today, useFallback, env)
  {
    seq(|calls|, i requires 0 <= i < |calls| => SlotOf(calls[i], i, today, useFallback, env))
  }

  /** One slot per call, in call order, each tagged with its position; a call
      without a series id fails on the spot; with the fallback, a call whose
      dates are both missing fetches exactly the two years ending today. */
  lemma ExecutionFacts(calls: seq<ToolCall>, today: int, useFallback: bool, env: Env)
    ensures var slots := ExecutionOf(calls, today, useFallback, env);
      && |slots| == |calls|
      && (forall i :: 0 <= i < |calls| ==> slots[i].index == i)
      && (forall i :: 0 <= i < |calls| && calls[i].seriesId == "" ==> slots[i].result == FetchFailed(NoSeriesId))
      && (forall i :: (0 <= i < |calls| && calls[i].seriesId != "" && useFallback
                       && !Present(calls[i].startDate) && !Present(calls[i].endDate)) ==>
            slots[i].result == CallFredApi(calls[i].seriesId, Iso(today - 2 * DAYS_PER_YEAR), Iso(today), env))
  {
    var slots := ExecutionOf(calls, today, useFallback, env);
    forall i | 0 <= i < |calls| && calls[i].seriesId != "" && useFallback
      && !Present(calls[i].startDate) && !Present(calls[i].endDate)
      ensures slots[i].result == CallFredApi(calls[i].seriesId, Iso(today - 2 * DAYS_PER_YEAR), Iso(today), env)
    {
      DefaultBudgetNeverRetries(calls[i].seriesId, ResolvedStart(calls[i], today), ResolvedEnd(calls[i], today), today, env);
    }
  }

  /** The execution loop: one fetch (or one failed slot) per call. */
  method ExecuteToolCalls(calls: seq<ToolCall>, today: int, useFallback: bool, env: Env) returns (results: seq<Slot>)
    ensures results == ExecutionOf(calls, today, useFallback, env)
  {
    results := [];
    for idx := 0 to |calls|
      invariant |results| == idx
      invariant forall j :: 0 <= j < idx ==> results[j] == SlotOf(calls[j], j, today, useFallback, env)
    {
      var call := calls[idx];
      var startDate := ResolvedStart(call, today);
      var endDate := ResolvedEnd(call, today);
      if call.seriesId == "" {
        results := results + [Slot(idx, FetchFailed(NoSeriesId))];
        continue;
      }
      var apiResult: SeriesResult;
      if useFallback {
        ghost var starts;
        apiResult, starts := CallFredApiWithFallback(call.seriesId, startDate, endDate, today, DEFAULT_MAX_RETRIES, env);
      } else {
        apiResult := CallFredApi(call.seriesId, startDate, endDate, env);
      }
      results := results + [Slot(idx, apiResult)];
    }
  }

  // ---------------------------------------------------------------------------
  // The two-turn exchange (`FredLLMAgent.process_question`)
  // ---------------------------------------------------------------------------

  /** The JSON object sent back for one slot. */
  datatype ToolPayload =
    | ToolData(seriesId: string, indicator: string, dataPoints: nat, analysis: Option<Summary>)
    | ToolError(error: FetchError)

  datatype ChatMessage =
    | SystemMessage(content: string)
    | UserMessage(content: string)
    | AssistantTurn(message: AssistantMessage)
    | ToolMessage(payload: ToolPayload)

  const SYSTEM_PREFIX: string := "You are an economic data assistant with access to FRED API. "
  const NO_RESPONSE: string := "No response generated"

  /** The outcome dictionary, without its timing. */
  datatype Answer =
    | QuestionFailed(question: string, error: string)
    | Answered(question: string, toolCalls: seq<ToolCall>, apiResults: seq<Slot>, finalAnswer: string)

  function InitialMessages(question: string, guide: string): seq<ChatMessage> {
    [SystemMessage(SYSTEM_PREFIX + guide), UserMessage(question)]
  }

  /** A successful slot reports its id, name, number of observations and
      analysis (an absent analysis is sent as `{}`); a failed one its error. */
  function PayloadOf(slot: Slot): (p: ToolPayload)
    ensures slot.result.Fetched? <==> p.ToolData?
    ensures slot.result.Fetched? ==>
      p == ToolData(slot.result.seriesId, slot.result.indicatorName, |slot.result.data|, slot.result.analysis)
    ensures slot.result.FetchFailed? ==> p == ToolError(slot.result.error)
  {
    match slot.result
    case Fetched(id, name, data, analysis) => ToolData(id, name, |data|, analysis)
    case FetchFailed(error) => ToolError(error)
  }

  function ToolMessages(slots: seq<Slot>): (ms: seq<ChatMessage>)
    ensures |ms| == |slots|
    ensures forall i :: 0 <= i < |slots| ==> ms[i] == ToolMessage(PayloadOf(slots[i]))
  {
    seq(|slots|, i requires 0 <= i < |slots| => ToolMessage(PayloadOf(slots[i])))
  }

  /** `final_result.get("message", {}).get("content", "No response generated")`. */
  function FinalAnswerOf(reply: Reply): string {
    match reply.message
    case None => NO_RESPONSE
    case Some(m) => m.content.GetOr(NO_RESPONSE)
  }

  /** The second-turn conversation: the first turn, the model's own message,
      then one tool message per result in order. */
  function FinalizeMessages(question: string, guide: string, message: AssistantMessage, slots: seq<Slot>): (ms: seq<ChatMessage>)
    ensures |ms| == 3 + |slots|
    ensures ms[..2] == InitialMessages(question, guide) && ms[2] == AssistantTurn(message)
  {
    InitialMessages(question, guide) + [AssistantTurn(message)] + ToolMessages(slots)
  }

  /** `process_question`: ask, extract, and either stop (extraction failed, or
      a direct answer) after one model call, or execute every call, send the
      results back and make exactly one more model call.  `conversations`
      lists what each model call was sent. */
  method ProcessQuestion(question: string, guide: string, today: int, llm: seq<ChatMessage> -> Reply, env: Env)
    returns (answer: Answer, ghost conversations: seq<seq<ChatMessage>>)
    ensures var extraction := ExtractionOf(llm(InitialMessages(question, guide)));
      && (extraction.ExtractionFailed? ==> answer == QuestionFailed(question, extraction.error))
      && (extraction.Extracted? && extraction.calls == [] ==>
            answer == Answered(question, [], [], extraction.directAnswer.GetOr("")))
      && (extraction.Extracted? && extraction.calls != [] ==>
            var slots := ExecutionOf(extraction.calls, today, true, env);
            answer == Answered(question, extraction.calls, slots,
                               FinalAnswerOf(llm(FinalizeMessages(question, guide, extraction.message, slots)))))
    ensures |conversations| >= 1 && conversations[0] == InitialMessages(question, guide)
    ensures var extraction := ExtractionOf(llm(InitialMessages(question, guide)));
      && (!(extraction.Extracted? && extraction.calls != []) ==> |conversations| == 1)
      && (extraction.Extracted? && extraction.calls != [] ==>
            && |conversations| == 2
            && conversations[1] == FinalizeMessages(question, guide, extraction.message,
                                                    ExecutionOf(extraction.calls, today, true, env)))
  {
    var firstTurn := InitialMessages(question, guide);
    conversations := [firstTurn];
    var extraction := ExtractToolCalls(llm(firstTurn));
    if extraction.ExtractionFailed? {
      return QuestionFailed(question, extraction.error), conversations;
    }
    var toolCalls := extraction.calls;
    if toolCalls == [] {
      return Answered(question, [], [], extraction.directAnswer.GetOr("")), conversations;
    }
    var apiResults := ExecuteToolCalls(toolCalls, today, true, env);
    var messages := firstTurn + [AssistantTurn(extraction.message)];
    for i := 0 to |apiResults|
      invariant messages == firstTurn + [AssistantTurn(extraction.message)] + ToolMessages(apiResults[..i])
    {
      assert ToolMessages(apiResults[..i + 1]) == ToolMessages(apiResults[..i]) + [ToolMessage(PayloadOf(apiResults[i]))];
      messages := messages + [ToolMessage(PayloadOf(apiResults[i]))];
    }
    assert apiResults[..|apiResults|] == apiResults;
    conversations := conversations + [messages];
    answer := Answered(question, toolCalls, apiResults, FinalAnswerOf(llm(messages)));
  }

  /** Across the second turn, the i-th tool message reports the i-th call's
      slot: its data count when the fetch succeeded, its error otherwise. */
  lemma ToolMessagesFollowCalls(question: string, guide: string, message: AssistantMessage, slots: seq<Slot>, i: nat)
    requires i < |slots|
    ensures var ms := FinalizeMessages(question, guide, message, slots);
      && |ms| == 3 + |slots|
      && ms[2] == AssistantTurn(message)
      && (slots[i].result.Fetched? ==> ms[3 + i] == ToolMessage(ToolData(slots[i].result.seriesId,
            slots[i].result.indicatorName, |slots[i].result.data|, slots[i].result.analysis)))
      && (slots[i].result.FetchFailed? ==> ms[3 + i] == ToolMessage(ToolError(slots[i].result.error)))
  {
  }
}
