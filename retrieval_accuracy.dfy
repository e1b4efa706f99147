/** Retrieval-accuracy scoring (retrieval_accuracy_test.py): how well the
    tool calls the model extracts for a question match the expected series
    ids and date range, and the summary over a suite of test cases.

    The model's reply to each question comes from `llm`, exactly as in the
    agent's extraction step; `today` is a parameter. */
module RetrievalAccuracy {
  import opened Wrappers
  import opened Dates
  import opened LlamaApi

  // ---------------------------------------------------------------------------
  // Series-id score (`evaluate_series_id`)
  // ---------------------------------------------------------------------------

  /** The score and the three id sets of a series-id evaluation. */
  datatype SeriesEvaluation = SeriesEvaluation(score: real, correct: set<string>, missing: set<string>, extra: set<string>)

  function IdsOf(calls: seq<ToolCall>): (ids: set<string>)
    ensures forall id :: id in ids <==> exists i :: 0 <= i < |calls| && calls[i].seriesId == id
  {
    set i | 0 <= i < |calls| :: calls[i].seriesId
  }

  function SetOf(xs: seq<string>): (s: set<string>)
    ensures forall x :: x in s <==> x in xs
  {
    set x | x in xs
  }

  /** The F1 score as the code computes it from the three set sizes: with no
      expected ids, 1.0 exactly when there are no actual ids either. */
  function F1(correct: nat, actual: nat, expected: nat): real {
    if expected == 0 then (if actual == 0 then 1.0 else 0.0)
    else
      var precision := if actual > 0 then correct as real / actual as real else 0.0;
      var recall := correct as real / expected as real;
      if precision + recall > 0.0 then 2.0 * (precision * recall) / (precision + recall) else 0.0
  }

  lemma MulDiv(x: real, y: real)
    requires y != 0.0
    ensures (x / y) * y == x
  {
  }

  lemma DivUnique(x: real, n: real, d: real)
    requires d != 0.0 && x * d == n
    ensures x == n / d
  {
  }

  lemma CancelPositive(x: real, y: real, c: real)
    requires c > 0.0 && x * c == y * c
    ensures x == y
  {
    assert (x - y) * c == 0.0;
  }

  /** The harmonic mean of c/a and c/e is 2c / (a + e). */
  lemma HarmonicMean(c: real, a: real, e: real)
    requires c > 0.0 && a > 0.0 && e > 0.0
    ensures 2.0 * ((c / a) * (c / e)) / (c / a + c / e) == 2.0 * c / (a + e)
  {
    var p, r := c / a, c / e;
    MulDiv(c, a);
    MulDiv(c, e);
    var s := p + r;
    assert s * (a * e) == c * (a + e) by {
      assert s * (a * e) == (p * a) * e + (r * e) * a;
    }
    var f := 2.0 * (p * r) / s;
    MulDiv(2.0 * (p * r), s);
    assert (f * (a + e)) * c == (2.0 * c) * c by {
      assert f * (c * (a + e)) == (f * s) * (a * e);
      assert (2.0 * (p * r)) * (a * e) == 2.0 * (p * a) * (r * e);
    }
    CancelPositive(f * (a + e), 2.0 * c, c);
    DivUnique(f, 2.0 * c, a + e);
  }

  lemma ClosedFormBounds(c: real, total: real)
    requires 0.0 <= 2.0 * c <= total && total > 0.0
    ensures 0.0 <= 2.0 * c / total <= 1.0
  {
    var q := 2.0 * c / total;
    MulDiv(2.0 * c, total);
    assert (1.0 - q) * total == total - 2.0 * c;
  }

  /** For a non-empty expected set the F1 score is 2·|correct| / (|actual| +
      |expected|), so it lies in [0, 1]. */
  lemma F1ClosedForm(correct: nat, actual: nat, expected: nat)
    requires correct <= actual && correct <= expected && expected > 0
    ensures F1(correct, actual, expected) == 2.0 * correct as real / (actual + expected) as real
    ensures 0.0 <= F1(correct, actual, expected) <= 1.0
  {
    var c, a, e := correct as real, actual as real, expected as real;
    if correct > 0 {
      var p, r := c / a, c / e;
      assert p > 0.0 && r > 0.0;
      assert F1(correct, actual, expected) == 2.0 * (p * r) / (p + r);
      HarmonicMean(c, a, e);
    } else {
      assert F1(correct, actual, expected) == 0.0;
    }
    ClosedFormBounds(c, a + e);
  }

  lemma IntersectionCard(a: set<string>, b: set<string>)
    ensures |a * b| <= |a| && |a * b| <= |b|
  {
    assert a == (a * b) + (a - b) && (a * b) * (a - b) == {};
    assert b == (a * b) + (b - a) && (a * b) * (b - a) == {};
  }

  lemma SeriesScoreBounds(expected: set<string>, actual: set<string>)
    ensures 0.0 <= F1(|expected * actual|, |actual|, |expected|) <= 1.0
    ensures expected == {} ==> (F1(|expected * actual|, |actual|, |expected|) == 1.0 <==> actual == {})
  {
    IntersectionCard(expected, actual);
    if expected != {} {
      F1ClosedForm(|expected * actual|, |actual|, |expected|);
    }
  }

  lemma NoCallsNoIds(calls: seq<ToolCall>)
    ensures IdsOf(calls) == {} <==> calls == []
  {
    if calls != [] {
      assert calls[0].seriesId in IdsOf(calls);
    }
  }

  /** `correct`, `missing` and `extra` split the expected and actual id sets
      (duplicates count once); the score is the F1 of those sets and lies in
      [0, 1]; with no expected ids it is 1.0 exactly when no id was called. */
  function EvaluateSeriesId(calls: seq<ToolCall>, expectedIds: seq<string>): (ev: SeriesEvaluation)
    ensures ev.correct == SetOf(expectedIds) * IdsOf(calls)
    ensures ev.correct + ev.missing == SetOf(expectedIds) && ev.correct * ev.missing == {}
    ensures ev.correct + ev.extra == IdsOf(calls) && ev.correct * ev.extra == {}
    ensures ev.missing * ev.extra == {}
    ensures ev.score == F1(|ev.correct|, |IdsOf(calls)|, |SetOf(expectedIds)|)
    ensures 0.0 <= ev.score <= 1.0
    ensures expectedIds == [] ==> (ev.score == 1.0 <==> calls == [])
  {
    var expected := SetOf(expectedIds);
    var actual := IdsOf(calls);
    var correct := expected * actual;
    SeriesScoreBounds(expected, actual);
    NoCallsNoIds(calls);
    SeriesEvaluation(F1(|correct|, |actual|, |expected|), correct, expected - actual, actual - expected)
  }

  /** Expected `["GDP"]` against calls for GDP and UNRATE scores 2/3:
      precision 1/2, recall 1. */
  lemma SeriesIdExample(start: DateText, end: DateText)
    ensures EvaluateSeriesId([ToolCall("GDP", start, end), ToolCall("UNRATE", start, end)], ["GDP"]).score == 2.0 / 3.0
  {
    var calls := [ToolCall("GDP", start, end), ToolCall("UNRATE", start, end)];
    assert calls[0].seriesId == "GDP" && calls[1].seriesId == "UNRATE";
    forall id | id in IdsOf(calls)
      ensures id in {"GDP", "UNRATE"}
    {
      var i :| 0 <= i < |calls| && calls[i].seriesId == id;
    }
    assert IdsOf(calls) == {"GDP", "UNRATE"};
    assert SetOf(["GDP"]) == {"GDP"};
    assert "GDP"[0] != "UNRATE"[0];
    assert |{"GDP", "UNRATE"}| == 2;
    assert {"GDP"} * {"GDP", "UNRATE"} == {"GDP"};
    assert F1(1, 2, 1) == 2.0 / 3.0;
  }

  // ---------------------------------------------------------------------------
  // Date matching (`_compare_dates`)
  // ---------------------------------------------------------------------------

  /** The tolerance every comparison uses. */
  const TOLERANCE_DAYS: nat := 30

  function Distance(a: int, b: int): nat {
    if a >= b then a - b else b - a
  }

  /** An empty or unparsable date scores 0; otherwise the score falls
      linearly from 1 at the same day to 0 at `tolerance` days apart, and is
      0 beyond it.  Only the same day scores 1. */
  function CompareDates(actual: DateText, expected: DateText, tolerance: nat): (score: real)
    ensures 0.0 <= score <= 1.0
    ensures score == 1.0 <==> actual.Iso? && expected.Iso? && actual.day == expected.day
    ensures !(actual.Iso? && expected.Iso?) ==> score == 0.0
    ensures actual.Iso? && expected.Iso? && Distance(actual.day, expected.day) > tolerance ==> score == 0.0
    ensures actual.Iso? && expected.Iso? && Distance(actual.day, expected.day) <= tolerance && tolerance > 0 ==>
      score * tolerance as real == (tolerance - Distance(actual.day, expected.day)) as real
  {
    if !actual.Iso? || !expected.Iso? then 0.0
    else
      var diff := Distance(actual.day, expected.day);
      if diff == 0 then 1.0
      else if diff <= tolerance then 1.0 - diff as real / tolerance as real
      else 0.0
  }

  /** The comparison does not depend on which date is the actual one. */
  lemma CompareDatesSymmetric(a: DateText, b: DateText, tolerance: nat)
    ensures CompareDates(a, b, tolerance) == CompareDates(b, a, tolerance)
  {
  }

  /** A date closer to the expected one never scores lower. */
  lemma CompareDatesMonotone(near: int, far: int, expected: int, tolerance: nat)
    requires Distance(near, expected) <= Distance(far, expected)
    ensures CompareDates(Iso(near), Iso(expected), tolerance) >= CompareDates(Iso(far), Iso(expected), tolerance)
  {
    var dn, df := Distance(near, expected), Distance(far, expected);
    var sn := CompareDates(Iso(near), Iso(expected), tolerance);
    var sf := CompareDates(Iso(far), Iso(expected), tolerance);
    if 0 < dn && df <= tolerance {
      var t := tolerance as real;
      assert sn * t == t - dn as real;
      assert sf * t == t - df as real;
      ScaleMonotone(sn, sf, t, df as real - dn as real);
    }
  }

  lemma ScaleMonotone(x: real, y: real, t: real, gap: real)
    requires t > 0.0 && gap >= 0.0 && x * t == y * t + gap
    ensures x >= y
  {
    assert (x - y) * t == gap;
  }

  /** Two weeks apart scores 1 - 14/30 = 16/30. */
  lemma TwoWeeksApart(day: int)
    ensures CompareDates(Iso(day), Iso(day + 14), TOLERANCE_DAYS) == 16.0 / 30.0
  {
  }

  // ---------------------------------------------------------------------------
  // Date-range score (`evaluate_date_range`)
  // ---------------------------------------------------------------------------

  /** A `relative_start` value: `"<N>y"`, `"<N>m"`, or one with another
      suffix (which defers to `start`). */
  datatype RelativeStart = YearsBack(years: int) | MonthsBack(months: int) | OtherSuffix

  /** The keys of an expected range that the scoring reads (None: absent).
      The whole range is an `Option`: None stands for both a missing range
      and an empty dictionary. */
  datatype ExpectedRange = ExpectedRange(
    start: Option<DateText>,
    end: Option<DateText>,
    relativeStart: Option<RelativeStart>,
    relativeEnd: Option<string>)

  const DAYS_PER_MONTH: int := 30

  /** `"Ny"` is N·365 days before today, `"Nm"` N·30 days; otherwise `start`. */
  function ExpectedStart(range: ExpectedRange, today: int): (d: DateText)
    ensures range.relativeStart.Some? && range.relativeStart.value.YearsBack? ==>
      d == Iso(today - DAYS_PER_YEAR * range.relativeStart.value.years)
    ensures range.relativeStart.Some? && range.relativeStart.value.MonthsBack? ==>
      d == Iso(today - DAYS_PER_MONTH * range.relativeStart.value.months)
    ensures range.relativeStart.None? || range.relativeStart == Some(OtherSuffix) ==> d == range.start.GetOr(Blank)
  {
    match range.relativeStart
    case Some(YearsBack(n)) => Iso(today - DAYS_PER_YEAR * n)
    case Some(MonthsBack(n)) => Iso(today - DAYS_PER_MONTH * n)
    case _ => range.start.GetOr(Blank)
  }

  /** `relative_end == "today"` is today; otherwise `end`. */
  function ExpectedEnd(range: ExpectedRange, today: int): (d: DateText)
    ensures range.relativeEnd == Some("today") ==> d == Iso(today)
    ensures range.relativeEnd != Some("today") ==> d == range.end.GetOr(Blank)
  {
    if range.relativeEnd == Some("today") then Iso(today) else range.end.GetOr(Blank)
  }

  /** One call's score: the mean of its start and end matches. */
  function CallScore(call: ToolCall, expectedStart: DateText, expectedEnd: DateText): (score: real)
    ensures 0.0 <= score <= 1.0
    ensures score == 1.0 <==>
      (&& call.startDate.Iso? && expectedStart.Iso? && call.startDate.day == expectedStart.day
       && call.endDate.Iso? && expectedEnd.Iso? && call.endDate.day == expectedEnd.day)
  {
    (CompareDates(call.startDate, expectedStart, TOLERANCE_DAYS) + CompareDates(call.endDate, expectedEnd, TOLERANCE_DAYS)) / 2.0
  }

  function SumCallScores(calls: seq<ToolCall>, expectedStart: DateText, expectedEnd: DateText): real {
    if calls == [] then 0.0
    else SumCallScores(calls[..|calls| - 1], expectedStart, expectedEnd) + CallScore(calls[|calls| - 1], expectedStart, expectedEnd)
  }

  lemma {:induction false} SumCallScoresBounds(calls: seq<ToolCall>, expectedStart: DateText, expectedEnd: DateText)
    ensures 0.0 <= SumCallScores(calls, expectedStart, expectedEnd) <= |calls| as real
    ensures SumCallScores(calls, expectedStart, expectedEnd) == |calls| as real <==>
      forall i :: 0 <= i < |calls| ==> CallScore(calls[i], expectedStart, expectedEnd) == 1.0
  {
    if calls != [] {
      var init := calls[..|calls| - 1];
      SumCallScoresBounds(init, expectedStart, expectedEnd);
      assert forall i :: 0 <= i < |init| ==> init[i] == calls[i];
    }
  }

  /** 1.0 when there is no expected range or no call; otherwise the mean call
      score, with relative dates resolved against `today`. */
  function DateRangeScore(calls: seq<ToolCall>, range: Option<ExpectedRange>, today: int): real {
    if range.None? || calls == [] then 1.0
    else SumCallScores(calls, ExpectedStart(range.value, today), ExpectedEnd(range.value, today)) / |calls| as real
  }

  /** The date score lies in [0, 1], and it is 1 exactly when there is nothing
      to compare or every call hits both expected dates on the day. */
  lemma DateRangeScoreFacts(calls: seq<ToolCall>, range: Option<ExpectedRange>, today: int)
    ensures 0.0 <= DateRangeScore(calls, range, today) <= 1.0
    ensures DateRangeScore(calls, range, today) == 1.0 <==>
      range.None? || calls == [] ||
      forall i :: 0 <= i < |calls| ==>
        CallScore(calls[i], ExpectedStart(range.value, today), ExpectedEnd(range.value, today)) == 1.0
  {
    if range.Some? && calls != [] {
      var s, e := ExpectedStart(range.value, today), ExpectedEnd(range.value, today);
      SumCallScoresBounds(calls, s, e);
      UnitRatio(SumCallScores(calls, s, e), |calls| as real);
    }
  }

  /** A total between 0 and n > 0, divided by n, lies in [0, 1] and is 1
      exactly when the total is n. */
  lemma UnitRatio(total: real, n: real)
    requires n > 0.0 && 0.0 <= total <= n
    ensures 0.0 <= total / n <= 1.0
    ensures total / n == 1.0 <==> total == n
  {
    MulDiv(total, n);
    if total / n == 1.0 {
      assert total == 1.0 * n;
    }
  }

  /** The scoring loop over the calls. */
  method EvaluateDateRange(calls: seq<ToolCall>, range: Option<ExpectedRange>, today: int) returns (score: real)
    ensures score == DateRangeScore(calls, range, today)
  {
    if range.None? || calls == [] {
      return 1.0;
    }
    var scores: seq<real> := [];
    var total := 0.0;
    for i := 0 to |calls|
      invariant |scores| == i
      invariant total == SumCallScores(calls[..i], ExpectedStart(range.value, today), ExpectedEnd(range.value, today))
    {
      assert calls[..i + 1][..i] == calls[..i];
      var expectedStart := ExpectedStart(range.value, today);
      var expectedEnd := ExpectedEnd(range.value, today);
      var startMatch := CompareDates(calls[i].startDate, expectedStart, TOLERANCE_DAYS);
      var endMatch := CompareDates(calls[i].endDate, expectedEnd, TOLERANCE_DAYS);
      var callScore := (startMatch + endMatch) / 2.0;
      scores := scores + [callScore];
      total := total + callScore;
    }
    assert calls[..|calls|] == calls;
    score := total / |scores| as real;
  }

  // ---------------------------------------------------------------------------
  // One case (`evaluate_single_case`)
  // ---------------------------------------------------------------------------

  /** A test case as stored: `questionId` is None for cases added through
      `add_test_case`, which does not set one. */
  datatype TestCase = TestCase(
    question: string,
    questionId: Option<string>,
    expectedSeriesIds: seq<string>,
    expectedDateRange: Option<ExpectedRange>,
    toolCallRequired: bool,
    description: string)

  /** The result record of one case. */
  datatype CaseResult =
    | UnwantedToolCall(questionId: string)                   // success False, overall 0
    | NoToolCallPassed(questionId: string)                   // success True, every score 1.0
    | ExtractionFailedCase(questionId: string, error: string) // success False, overall 0
    | Scored(questionId: string, calls: seq<ToolCall>, series: SeriesEvaluation, dateScore: real, overall: real)

  predicate Succeeded(r: CaseResult) {
    r.NoToolCallPassed? || r.Scored?
  }

  /** The results only a tool-call case produces: the scored dict and the
      extraction-failure dict, whose keys or error text differ from the two
      non-tool-call dicts. */
  predicate ToolCallResult(r: CaseResult) {
    r.Scored? || r.ExtractionFailedCase?
  }

  function OverallScore(r: CaseResult): real {
    match r
    case Scored(_, _, _, _, overall) => overall
    case NoToolCallPassed(_) => 1.0
    case _ => 0.0
  }

  function SeriesScore(r: CaseResult): real {
    match r
    case Scored(_, _, series, _, _) => series.score
    case NoToolCallPassed(_) => 1.0
    case _ => 0.0
  }

  function DateScore(r: CaseResult): real {
    match r
    case Scored(_, _, _, dateScore, _) => dateScore
    case NoToolCallPassed(_) => 1.0
    case _ => 0.0
  }

  /** The text of the KeyError a case without an id raises. */
  const MISSING_QUESTION_ID: string := "'question_id'"

  /** Scores one case against what the model's reply to its question
      extracted.  A case without an id raises; a case that needs no tool call
      passes exactly when none was made; a tool-call case fails when the
      extraction failed, and otherwise scores half on ids and half on dates. */
  function EvaluateSingleCase(tc: TestCase, extraction: Extraction, today: int): (r: Result<CaseResult, string>)
    ensures tc.questionId.None? <==> r == Failure(MISSING_QUESTION_ID)
    ensures r.Success? ==> r.value.questionId == tc.questionId.value
    ensures r.Success? ==> (ToolCallResult(r.value) <==> tc.toolCallRequired)
    ensures r.Success? && !tc.toolCallRequired ==>
      (Succeeded(r.value) <==> !(extraction.Extracted? && extraction.calls != []))
    ensures r.Success? && !tc.toolCallRequired ==> OverallScore(r.value) == if Succeeded(r.value) then 1.0 else 0.0
    ensures r.Success? && tc.toolCallRequired ==> (Succeeded(r.value) <==> extraction.Extracted?)
    ensures r.Success? && tc.toolCallRequired && extraction.Extracted? ==>
      && r.value.Scored?
      && r.value.series == EvaluateSeriesId(extraction.calls, tc.expectedSeriesIds)
      && r.value.dateScore == DateRangeScore(extraction.calls, tc.expectedDateRange, today)
      && r.value.overall == 0.5 * r.value.series.score + 0.5 * r.value.dateScore
    ensures r.Success? ==>
      (0.0 <= OverallScore(r.value) <= 1.0 && 0.0 <= SeriesScore(r.value) <= 1.0 && 0.0 <= DateScore(r.value) <= 1.0)
  {
    match tc.questionId
    case None => Failure(MISSING_QUESTION_ID)
    case Some(id) =>
      if !tc.toolCallRequired then
        if extraction.Extracted? && extraction.calls != [] then Success(UnwantedToolCall(id))
        else Success(NoToolCallPassed(id))
      else
        match extraction
        case ExtractionFailed(error) => Success(ExtractionFailedCase(id, error))
        case Extracted(calls, _, _) =>
          var series := EvaluateSeriesId(calls, tc.expectedSeriesIds);
          var dateScore := DateRangeScore(calls, tc.expectedDateRange, today);
          DateRangeScoreFacts(calls, tc.expectedDateRange, today);
          Success(Scored(id, calls, series, dateScore, 0.5 * series.score + 0.5 * dateScore))
  }

  /** A case that needs a tool call, answered directly with no call, still
      counts as a success with overall score 0.5 when ids were expected: the
      id score is 0 and the date score, having no call to check, is 1. */
  lemma DirectAnswerScoresHalf(tc: TestCase, answer: Option<string>, message: AssistantMessage, today: int)
    requires tc.questionId.Some? && tc.toolCallRequired && tc.expectedSeriesIds != []
    ensures var r := EvaluateSingleCase(tc, Extracted([], answer, message), today);
      r.Success? && Succeeded(r.value) && OverallScore(r.value) == 0.5
  {
    var ev := EvaluateSeriesId([], tc.expectedSeriesIds);
    assert tc.expectedSeriesIds[0] in SetOf(tc.expectedSeriesIds);
    assert IdsOf([]) == {};
    assert ev.score == 0.0;
  }

  // ---------------------------------------------------------------------------
  // The suite (`AccuracyEvaluator`)
  // ---------------------------------------------------------------------------

  /** The loop stops before the 327th case. */
  const MAX_EVALUATED: nat := 326

  /** The agent's extraction for a question. */
  function ExtractionFor(question: string, guide: string, llm: seq<ChatMessage> -> Reply): Extraction {
    ExtractionOf(llm(InitialMessages(question, guide)))
  }

  /** The cases evaluated in order; the first that raises ends the run. */
  function Evaluations(cases: seq<TestCase>, guide: string, llm: seq<ChatMessage> -> Reply, today: int)
    : (r: Result<seq<CaseResult>, string>)
    ensures r.Success? ==> |r.value| == |cases|
  {
    if cases == [] then Success([])
    else
      match Evaluations(cases[..|cases| - 1], guide, llm, today)
      case Failure(e) => Failure(e)
      case Success(results) =>
        var tc := cases[|cases| - 1];
        match EvaluateSingleCase(tc, ExtractionFor(tc.question, guide, llm), today)
        case Failure(e) => Failure(e)
        case Success(result) => Success(results + [result])
  }

  lemma {:induction false} EvaluationsFailurePersists(cases: seq<TestCase>, n: nat, guide: string, llm: seq<ChatMessage> -> Reply, today: int)
    requires n <= |cases| && Evaluations(cases[..n], guide, llm, today).Failure?
    ensures Evaluations(cases, guide, llm, today) == Evaluations(cases[..n], guide, llm, today)
    decreases |cases| - n
  {
    if n < |cases| {
      assert cases[..n + 1][..n] == cases[..n];
      EvaluationsFailurePersists(cases, n + 1, guide, llm, today);
    } else {
      assert cases[..n] == cases;
    }
  }

  /** One more case evaluated: its failure ends the run, its result is
      appended otherwise. */
  lemma EvaluationsStep(cases: seq<TestCase>, i: nat, results: seq<CaseResult>,
                        guide: string, llm: seq<ChatMessage> -> Reply, today: int)
    requires i < |cases| && Evaluations(cases[..i], guide, llm, today) == Success(results)
    ensures var ev := EvaluateSingleCase(cases[i], ExtractionFor(cases[i].question, guide, llm), today);
      Evaluations(cases[..i + 1], guide, llm, today) == if ev.Failure? then Failure(ev.error) else Success(results + [ev.value])
  {
    assert cases[..i + 1][..i] == cases[..i];
  }

  /** A failure among the first n <= 326 cases is the outcome of the whole run. */
  lemma RunStopsAt(cases: seq<TestCase>, n: nat, guide: string, llm: seq<ChatMessage> -> Reply, today: int)
    requires n <= |cases| && n <= MAX_EVALUATED && Evaluations(cases[..n], guide, llm, today).Failure?
    ensures RunOf(cases, guide, llm, today) == Failure(Evaluations(cases[..n], guide, llm, today).error)
  {
    assert EvaluatedPrefix(cases)[..n] == cases[..n];
    EvaluationsFailurePersists(EvaluatedPrefix(cases), n, guide, llm, today);
  }

  /** The run fails exactly when an evaluated case has no id, and then with
      the KeyError text. */
  lemma {:induction false} EvaluationsFailure(cases: seq<TestCase>, guide: string, llm: seq<ChatMessage> -> Reply, today: int)
    ensures Evaluations(cases, guide, llm, today).Failure? <==> exists k :: 0 <= k < |cases| && cases[k].questionId.None?
    ensures Evaluations(cases, guide, llm, today).Failure? ==>
      Evaluations(cases, guide, llm, today).error == MISSING_QUESTION_ID
  {
    if cases != [] {
      var init := cases[..|cases| - 1];
      EvaluationsFailure(init, guide, llm, today);
      if Evaluations(init, guide, llm, today).Failure? {
        var k :| 0 <= k < |init| && init[k].questionId.None?;
        assert cases[k] == init[k];
      } else {
        forall k | 0 <= k < |cases| - 1
          ensures cases[k].questionId.Some?
        {
          assert cases[k] == init[k];
        }
      }
    }
  }

  /** Result k is case k's evaluation. */
  lemma {:induction false} EvaluationsValues(cases: seq<TestCase>, guide: string, llm: seq<ChatMessage> -> Reply, today: int)
    requires Evaluations(cases, guide, llm, today).Success?
    ensures forall k :: 0 <= k < |cases| ==>
      Success(Evaluations(cases, guide, llm, today).value[k])
        == EvaluateSingleCase(cases[k], ExtractionFor(cases[k].question, guide, llm), today)
  {
    if cases != [] {
      var init := cases[..|cases| - 1];
      EvaluationsValues(init, guide, llm, today);
      var results := Evaluations(cases, guide, llm, today).value;
      assert results[..|cases| - 1] == Evaluations(init, guide, llm, today).value;
      forall k | 0 <= k < |cases| - 1
        ensures Success(results[k]) == EvaluateSingleCase(cases[k], ExtractionFor(cases[k].question, guide, llm), today)
      {
        assert cases[k] == init[k];
        assert results[k] == Evaluations(init, guide, llm, today).value[k];
      }
    }
  }

  function CountSucceeded(results: seq<CaseResult>): (n: nat)
    ensures n <= |results|
  {
    if results == [] then 0
    else CountSucceeded(results[..|results| - 1]) + (if Succeeded(results[|results| - 1]) then 1 else 0)
  }

  /** No result is counted exactly when none succeeded. */
  lemma {:induction false} NoneSucceeded(results: seq<CaseResult>)
    ensures CountSucceeded(results) == 0 <==> forall i :: 0 <= i < |results| ==> !Succeeded(results[i])
  {
    if results != [] {
      var init := results[..|results| - 1];
      NoneSucceeded(init);
      assert forall i :: 0 <= i < |init| ==> init[i] == results[i];
    }
  }

  /** The sum of `score` over the successful results. */
  function SumSucceeded(results: seq<CaseResult>, score: CaseResult -> real): real {
    if results == [] then 0.0
    else
      SumSucceeded(results[..|results| - 1], score)
        + (if Succeeded(results[|results| - 1]) then score(results[|results| - 1]) else 0.0)
  }

  lemma {:induction false} SumSucceededBounds(results: seq<CaseResult>, score: CaseResult -> real)
    requires forall i :: 0 <= i < |results| ==> 0.0 <= score(results[i]) <= 1.0
    ensures 0.0 <= SumSucceeded(results, score) <= CountSucceeded(results) as real
  {
    if results != [] {
      var init := results[..|results| - 1];
      assert forall i :: 0 <= i < |init| ==> init[i] == results[i];
      SumSucceededBounds(init, score);
    }
  }

  /** `xs.index(x)`: the first position holding `x`. */
  function IndexOf(xs: seq<CaseResult>, x: CaseResult): (i: nat)
    requires x in xs
    ensures i < |xs| && xs[i] == x && x !in xs[..i]
  {
    if xs[0] == x then 0
    else
      assert xs == [xs[0]] + xs[1..];
      var j := IndexOf(xs[1..], x);
      assert xs[1..][..j] == xs[1..j + 1];
      1 + j
  }

  /** Among the first `n` results, those whose case — found through
      `results.index(r)` — has `tool_call_required == required`; with
      `passedOnly`, only the successful ones. */
  function CountClass(cases: seq<TestCase>, results: seq<CaseResult>, n: nat, required: bool, passedOnly: bool): (c: nat)
    requires n <= |results| <= |cases|
    ensures c <= n
  {
    if n == 0 then 0
    else
      var owner := cases[IndexOf(results, results[n - 1])];
      CountClass(cases, results, n - 1, required, passedOnly)
        + (if owner.toolCallRequired == required && (!passedOnly || Succeeded(results[n - 1])) then 1 else 0)
  }

  /** The summary block. */
  datatype RunSummary = RunSummary(
    totalTests: nat,
    successfulTests: nat,
    failedTests: int,
    toolCallTests: nat,
    toolCallPassed: nat,
    nonToolCallTests: nat,
    nonToolCallPassed: nat,
    avgSeriesIdScore: real,
    avgDateRangeScore: real,
    avgOverallScore: real)

  datatype RunReport = RunReport(results: seq<CaseResult>, summary: Option<RunSummary>)

  /** No summary when nothing succeeded; otherwise the totals count every
      stored case (evaluated or not), and the averages are over the
      successful results only. */
  function Summarize(cases: seq<TestCase>, results: seq<CaseResult>): (s: Option<RunSummary>)
    requires |results| <= |cases|
    ensures s.None? <==> forall i :: 0 <= i < |results| ==> !Succeeded(results[i])
  {
    NoneSucceeded(results);
    var successful := CountSucceeded(results);
    if successful == 0 then None
    else Some(RunSummary(
      |cases|,
      successful,
      |cases| - successful,
      CountClass(cases, results, |results|, true, false),
      CountClass(cases, results, |results|, true, true),
      CountClass(cases, results, |results|, false, false),
      CountClass(cases, results, |results|, false, true),
      SumSucceeded(results, SeriesScore) / successful as real,
      SumSucceeded(results, DateScore) / successful as real,
      SumSucceeded(results, OverallScore) / successful as real))
  }

  function EvaluatedPrefix(cases: seq<TestCase>): (prefix: seq<TestCase>)
    ensures |prefix| == if |cases| <= MAX_EVALUATED then |cases| else MAX_EVALUATED
    ensures prefix == cases[..|prefix|]
  {
    if |cases| <= MAX_EVALUATED then cases else cases[..MAX_EVALUATED]
  }

  /** `run_all_tests`: evaluate the first 326 cases, then summarise. */
  function RunOf(cases: seq<TestCase>, guide: string, llm: seq<ChatMessage> -> Reply, today: int): Result<RunReport, string> {
    match Evaluations(EvaluatedPrefix(cases), guide, llm, today)
    case Failure(e) => Failure(e)
    case Success(results) => Success(RunReport(results, Summarize(cases, results)))
  }

  lemma {:induction false} CountClassSplit(cases: seq<TestCase>, results: seq<CaseResult>, n: nat)
    requires n <= |results| <= |cases|
    ensures CountClass(cases, results, n, true, false) + CountClass(cases, results, n, false, false) == n
    ensures CountClass(cases, results, n, true, true) + CountClass(cases, results, n, false, true)
      == CountSucceeded(results[..n])
  {
    if n > 0 {
      CountClassSplit(cases, results, n - 1);
      assert results[..n][..n - 1] == results[..n - 1];
    }
  }

  /** Among the first `n` results, those whose own case (the case at the
      same position) has `tool_call_required == required`. */
  function OwnClassCount(cases: seq<TestCase>, results: seq<CaseResult>, n: nat, required: bool, passedOnly: bool): nat
    requires n <= |results| <= |cases|
  {
    if n == 0 then 0
    else
      OwnClassCount(cases, results, n - 1, required, passedOnly)
        + (if cases[n - 1].toolCallRequired == required && (!passedOnly || Succeeded(results[n - 1])) then 1 else 0)
  }

  /** What a completed run reports: one result per evaluated case (at most
      326); no summary exactly when nothing succeeded; the pass/fail and
      tool/non-tool counts add up; `failedTests` also counts every case past
      the 326th; and every average lies in [0, 1]. */
  lemma RunFacts(cases: seq<TestCase>, guide: string, llm: seq<ChatMessage> -> Reply, today: int)
    ensures var run := RunOf(cases, guide, llm, today);
      run.Success? ==>
        var results := run.value.results;
        && |results| == |EvaluatedPrefix(cases)|
        && (run.value.summary.None? <==> CountSucceeded(results) == 0)
        && (run.value.summary.Some? ==>
              var s := run.value.summary.value;
              && s.totalTests == |cases|
              && s.successfulTests == CountSucceeded(results)
              && s.failedTests == (|results| - s.successfulTests) + (|cases| - |results|)
              && s.toolCallTests + s.nonToolCallTests == |results|
              && s.toolCallPassed + s.nonToolCallPassed == s.successfulTests
              && 0.0 <= s.avgSeriesIdScore <= 1.0
              && 0.0 <= s.avgDateRangeScore <= 1.0
              && 0.0 <= s.avgOverallScore <= 1.0)
  {
    var prefix := EvaluatedPrefix(cases);
    var run := RunOf(cases, guide, llm, today);
    if run.Success? {
      var results := run.value.results;
      CountClassSplit(cases, results, |results|);
      EvaluationsValues(prefix, guide, llm, today);
      forall i | 0 <= i < |results|
        ensures 0.0 <= SeriesScore(results[i]) <= 1.0 && 0.0 <= DateScore(results[i]) <= 1.0
        ensures 0.0 <= OverallScore(results[i]) <= 1.0
      {
        assert Success(results[i]) == EvaluateSingleCase(prefix[i], ExtractionFor(prefix[i].question, guide, llm), today);
      }
      assert results[..|results|] == results;
      if CountSucceeded(results) > 0 {
        var n := CountSucceeded(results) as real;
        SumSucceededBounds(results, SeriesScore);
        SumSucceededBounds(results, DateScore);
        SumSucceededBounds(results, OverallScore);
        AverageBounds(SumSucceeded(results, SeriesScore), n);
        AverageBounds(SumSucceeded(results, DateScore), n);
        AverageBounds(SumSucceeded(results, OverallScore), n);
      }
    }
  }

  lemma AverageBounds(total: real, n: real)
    requires 0.0 <= total <= n && n > 0.0
    ensures 0.0 <= total / n <= 1.0
  {
    assert total / n * n == total;
  }

  /** When every result's kind matches its own case's flag, the lookup
      through `results.index(r)` classifies each result as its own case
      would, even when it lands on an earlier equal result. */
  lemma {:induction false} CountClassByKind(cases: seq<TestCase>, results: seq<CaseResult>, n: nat, required: bool, passedOnly: bool)
    requires n <= |results| <= |cases|
    requires forall i :: 0 <= i < |results| ==> (ToolCallResult(results[i]) <==> cases[i].toolCallRequired)
    ensures CountClass(cases, results, n, required, passedOnly) == OwnClassCount(cases, results, n, required, passedOnly)
  {
    if n > 0 {
      CountClassByKind(cases, results, n - 1, required, passedOnly);
      var k := IndexOf(results, results[n - 1]);
      assert results[k] == results[n - 1];
      assert cases[k].toolCallRequired == cases[n - 1].toolCallRequired;
    }
  }

  /** Every result of a run is classified as tool-call or non-tool-call by
      its own case, whether or not question ids repeat. */
  lemma RunClassifiesByOwnCase(cases: seq<TestCase>, guide: string, llm: seq<ChatMessage> -> Reply, today: int)
    ensures var run := RunOf(cases, guide, llm, today);
      run.Success? && run.value.summary.Some? ==>
        var results := run.value.results;
        var s := run.value.summary.value;
        && s.toolCallTests == OwnClassCount(cases, results, |results|, true, false)
        && s.toolCallPassed == OwnClassCount(cases, results, |results|, true, true)
        && s.nonToolCallTests == OwnClassCount(cases, results, |results|, false, false)
        && s.nonToolCallPassed == OwnClassCount(cases, results, |results|, false, true)
  {
    var prefix := EvaluatedPrefix(cases);
    var run := RunOf(cases, guide, llm, today);
    if run.Success? && run.value.summary.Some? {
      var results := run.value.results;
      RunFacts(cases, guide, llm, today);
      EvaluationsValues(prefix, guide, llm, today);
      forall i | 0 <= i < |results|
        ensures ToolCallResult(results[i]) <==> cases[i].toolCallRequired
      {
        assert Success(results[i]) == EvaluateSingleCase(prefix[i], ExtractionFor(prefix[i].question, guide, llm), today);
        assert prefix[i] == cases[i];
      }
      CountClassByKind(cases, results, |results|, true, false);
      CountClassByKind(cases, results, |results|, true, true);
      CountClassByKind(cases, results, |results|, false, false);
      CountClassByKind(cases, results, |results|, false, true);
    }
  }

  /** The test-case store and the suite runner. */
  class AccuracyEvaluator {
    var testCases: seq<TestCase>

    /** An evaluator without a file starts with no cases. */
    constructor ()
      ensures testCases == []
    {
      testCases := [];
    }

    /** `load_test_cases`: the parsed file replaces the stored cases. */
    method LoadTestCases(parsed: seq<TestCase>)
      modifies this
      ensures testCases == parsed
    {
      testCases := parsed;
    }

    /** `add_test_case`: appends a tool-call case without a question id. */
    method AddTestCase(question: string, expectedSeriesIds: seq<string>, expectedDateRange: Option<ExpectedRange>, description: string)
      modifies this
      ensures testCases == old(testCases) + [TestCase(question, None, expectedSeriesIds, expectedDateRange, true, description)]
    {
      testCases := testCases + [TestCase(question, None, expectedSeriesIds, expectedDateRange, true, description)];
    }

    /** `run_all_tests`: the evaluation loop with its early stop, then the
        summary. */
    method RunAllTests(guide: string, llm: seq<ChatMessage> -> Reply, today: int) returns (run: Result<RunReport, string>)
      ensures run == RunOf(testCases, guide, llm, today)
    {
      var cases := testCases;
      var results: seq<CaseResult> := [];
      var i := 0;
      while i < |cases|
        invariant i <= |cases| && i <= MAX_EVALUATED
        invariant Evaluations(cases[..i], guide, llm, today) == Success(results)
      {
        if i + 1 >= MAX_EVALUATED + 1 {
          break;
        }
        var testCase := cases[i];
        var evaluation := EvaluateSingleCase(testCase, ExtractionFor(testCase.question, guide, llm), today);
        EvaluationsStep(cases, i, results, guide, llm, today);
        if evaluation.Failure? {
          RunStopsAt(cases, i + 1, guide, llm, today);
          return Failure(evaluation.error);
        }
        results := results + [evaluation.value];
        i := i + 1;
      }
      assert cases[..i] == EvaluatedPrefix(cases);
      run := Success(RunReport(results, Summarize(cases, results)));
    }
  }

  /** A case added through `AddTestCase` has no id, so a run that reaches it
      — any run over fewer than 326 earlier cases — aborts with the KeyError. */
  lemma AddedCaseAbortsRun(cases: seq<TestCase>, question: string, expectedSeriesIds: seq<string>,
                           expectedDateRange: Option<ExpectedRange>, description: string,
                           guide: string, llm: seq<ChatMessage> -> Reply, today: int)
    requires |cases| < MAX_EVALUATED
    ensures RunOf(cases + [TestCase(question, None, expectedSeriesIds, expectedDateRange, true, description)], guide, llm, today)
      == Failure(MISSING_QUESTION_ID)
  {
    var all := cases + [TestCase(question, None, expectedSeriesIds, expectedDateRange, true, description)];
    assert all[|cases|].questionId.None?;
    assert EvaluatedPrefix(all) == all;
    EvaluationsFailure(all, guide, llm, today);
  }
}
