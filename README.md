# FRED question-answering agent: a Dafny model

This project models the decision logic of a small retrieval-augmented
assistant. The assistant answers economic questions with data from the
Federal Reserve Economic Data (FRED) service. It has four pieces:

- **The agent** (`llama_api.py`).
  - It sends the question to a language model.
  - It extracts the tool calls in the reply (series id, start date, end date).
  - It repairs the dates and fetches each series. Fetches can retry on a widened range.
  - It returns the results to the model for a final answer.
- **The fetch** (`fred_api.py`). `call_fred_api` builds the observation request from a metadata map. It turns the response into a success or a failure, and on success attaches the analyser's summary.
- **The analyser** (`metrics_computing.py`, `TimeSeriesAnalyzer`). It parses the observations into a date-sorted series and computes:
  - basic statistics
  - total change
  - trend
  - volatility
  - a per-point table of month-over-month and year-over-year changes, with peaks and troughs marked
- **The retrieval-accuracy evaluator** (`retrieval_accuracy_test.py`, `AccuracyEvaluator`). It scores the extracted tool calls against expected series ids and date ranges. It then summarises a suite of test cases.

## How the model is organised

The model has one Dafny module per source file, plus two shared modules.

| file | module | contents |
|---|---|---|
| `wrappers.dfy` | `Wrappers` | `Option` and `Result`. They stand for Python's `None`, missing keys, and raised exceptions. |
| `dates.dfy` | `Dates` | `DateText`: a `YYYY-MM-DD` string seen as empty, malformed, or naming an integer day. |
| `metrics_computing.dfy` | `MetricsComputing` | the analyser |
| `fred_api.dfy` | `FredApi` | the fetch |
| `llama_api.dfy` | `LlamaApi` | the agent |
| `retrieval_accuracy.dfy` | `RetrievalAccuracy` | the evaluator, with `AccuracyEvaluator` as a class |

Dates are integer day numbers. `timedelta(days=k)` is `+ k`, on an unbounded day line (see "Date range" under Left out).

The outside world appears only as parameters:
- `today` replaces the host clock.
- `llm: seq<ChatMessage> -> Reply` maps the conversation sent to the reply received.
- `Env.source: Request -> Response` is the HTTP data source.
- `Env.metadata` is the series-id → metadata map that `load_indicator_metadata` reads from disk.
- `Library` holds the numeric routines the analyser borrows: pandas median, std and rolling std; numpy `polyfit` and `corrcoef`; scipy `find_peaks`. The model treats them as uninterpreted functions. The linear fit may raise (`None`) or return NaN, as `polyfit` does on a one-point series.

Values are mathematical reals. `Float.NotFinite` stands for a NaN or infinity that a library returns.

Each loop in the source is a Dafny `method` proved equal to a specification function. The properties are proved about those functions as lemmas:
- `ParseJson`, `DropMissingAndSort`, `InsertByDate`
- `GenerateIntegratedTimeseries`, `MarkPositions`, `BuildRows`
- `CallFredApiWithFallback`, `ExtractToolCalls`, `ExecuteToolCalls`, `ProcessQuestion`
- `EvaluateDateRange`, `AccuracyEvaluator.RunAllTests`

`AccuracyEvaluator` is the one source object whose field its methods update (`test_cases`). It is a class with a `testCases` field.

The other objects are modelled as values: the analyser, whose frame is computed once in its constructor, and the agent, whose fields are constants.

### Behaviour worth knowing

The model follows the code as written. The points below are where the code differs from what its written description suggests.

- `fix_date_parameters` widens a one-day range only when both dates are today. A one-day range on any other date passes through unchanged (`SameDayElsewhereKept`).
- `call_fred_api_with_fallback` has a default budget of one attempt. With that budget, and so from `execute_tool_calls`, it never retries (`DefaultBudgetNeverRetries`).
- A 200 response whose `observations` list is empty or missing is a failure, not an empty success (`EmptyObservationsFail`).
- The total-change percentage has no guard against a zero first value (`CalculateChanges`).
- The code has no compact or detailed result modes and no trailing cross-indicator reminder. The model has none either.

Some consequences of the code that the model makes explicit:

- **Volatility.** The rolling deviation is NaN at its first `window - 1` positions, and `mean()` skips NaN. So the "earlier" volatility is the deviation of the first full window alone (`EarlierIsFirstWindow`).
- **Empty dates.** `pd.to_datetime` turns an empty date into NaT, and `dropna()` then drops that row; only a malformed date makes the analyser raise (`BlankDateDropped`).
- **Trend.** A constant series has a NaN correlation. It is then reported as a *strong*, non-stable trend (`TrendLabelsAgree`).
- **Direct answers.** Suppose a case needs a tool call but the model answers directly. The case still succeeds, and when ids were expected its overall score is 0.5 (`DirectAnswerScoresHalf`).
- **Summary totals.** `run_all_tests` evaluates at most 326 cases. `total_tests` and `failed_tests` still count every stored case (`RunFacts`).
- **Classification.** Results are split into tool-call and non-tool-call cases through `results.index(r)`, which may find an earlier, equal result. That result comes from a case of the same kind, because the scored and extraction-failure results arise only from tool-call cases and the other two only from non-tool-call cases. So each result is counted by its own case, whether or not question ids repeat (`RunClassifiesByOwnCase`).
- **Added cases.** `add_test_case` stores no `question_id`, while `evaluate_single_case` reads it with `[]`. A run that reaches an added case stops with that `KeyError` (`AddedCaseAbortsRun`).

## Model

| member | source | states |
|---|---|---|
| MetricsComputing.Insert | metrics_computing.py:37 | placing one row into the frame adds exactly that row: one more element, multiset grows by it |
| MetricsComputing.InsertSorted | metrics_computing.py:37 | inserting a row into a date-sorted frame leaves it date-sorted |
| MetricsComputing.SortByDate | metrics_computing.py:36-37 | the sorted frame is ordered by date and is a permutation of its input |
| MetricsComputing.NumericPoints | metrics_computing.py:26-34 | definition of the rows that survive `dropna()`, in input order: an observation with a date (not NaT) and a numeric value; never more rows than observations |
| MetricsComputing.NumericPointsMembers | metrics_computing.py:26-34 | a point survives `dropna` iff some observation carries its date and a numeric value; an empty date or a missing value drops the row |
| MetricsComputing.ParsedFrame | metrics_computing.py:21-39 | the constructor raises `Input data is empty` exactly on empty input; a frame it builds is sorted by date and has at most one row per observation (full contents in `ParsedFrameContents`) |
| MetricsComputing.ParsedFrameContents | metrics_computing.py:21-39 | empty input raises; a malformed date raises; otherwise (empty dates included) the frame is sorted by date and holds exactly the observations with a date and a numeric value |
| MetricsComputing.BlankDateDropped | metrics_computing.py:29-34 | appending an observation with an empty date leaves the parsed frame unchanged: NaT rows are dropped, not raised |
| MetricsComputing.BlankDateExample | metrics_computing.py:29-34 | a blank-dated row next to a dated one parses to the dated row alone |
| MetricsComputing.InsertByDate | metrics_computing.py:37 | the insertion loop computes `Insert` |
| MetricsComputing.DropMissingAndSort | metrics_computing.py:34-37 | the drop-and-sort loop yields the sorted dated, numeric points |
| MetricsComputing.ParseJson | metrics_computing.py:18-39 | the constructor's parse (with its error cases) equals `ParsedFrame` |
| MetricsComputing.MaxIndex | metrics_computing.py:45-46 | `idxmax` is the first position holding the largest value |
| MetricsComputing.MinIndex | metrics_computing.py:49-50 | `idxmin` is the first position holding the smallest value |
| MetricsComputing.CalculateBasicStats | metrics_computing.py:41-64 | the earliest and latest values lie between the reported min and max (the rest in `BasicStatsFacts`) |
| MetricsComputing.BasicStatsFacts | metrics_computing.py:41-64 | min ≤ mean ≤ max; every value lies between min and max; the extremes are points of the frame with their dates; latest/earliest are the last/first points and bracket every date of a sorted frame |
| MetricsComputing.CalculateChanges | metrics_computing.py:66-81 | absolute = last − first; the percentage times the first value is 100·absolute, and is not finite exactly when the first value is 0; the dates are the first and last (ordered for a sorted frame) |
| MetricsComputing.AssessTrend | metrics_computing.py:83-105 | stable iff abs(correlation) < 0.3, increasing iff not stable and slope > 0 (a NaN slope is not > 0); weak iff abs(correlation) < 0.5, strong iff not below 0.8; a NaN correlation is below no bound |
| MetricsComputing.TrendLabelsAgree | metrics_computing.py:89-98 | a stable trend is always weak; a strong one is never stable; a NaN correlation gives a strong, non-stable trend |
| MetricsComputing.NanMean | metrics_computing.py:112-115 | `mean()` skipping NaN is NaN exactly when no entry is finite |
| MetricsComputing.Assess | metrics_computing.py:121 | increased iff recent > 1.2·earlier; decreased iff not increased and recent < 0.8·earlier; NaN compares false |
| MetricsComputing.DetectVolatilityChanges | metrics_computing.py:107-122 | None iff fewer than 2·window points; recent/earlier are NaN-skipping means of the last/first window of rolling deviations; change is 0 unless earlier > 0, else 100·(recent − earlier)/earlier, which is NaN when recent is NaN; the assessment is `Assess(recent, earlier)` (the 1.2× / 0.8× rule) |
| MetricsComputing.EarlierIsFirstWindow | metrics_computing.py:112-115 | when the first window − 1 rolling values are NaN, the earlier volatility is the single deviation at position window − 1 |
| MetricsComputing.LagDelta | metrics_computing.py:170-184 | a MoM/YoY delta exists iff the lagged position exists and its value is non-zero; then absolute = v[i] − v[i−lag] and percentage·v[i−lag] = 100·absolute |
| MetricsComputing.Mark | metrics_computing.py:156-159 | after marking, a date is a key iff it was before or some index names it; named dates carry the new kind; other keys are unchanged |
| MetricsComputing.Prominence | metrics_computing.py:150-151 | the caller's prominence when given, else a quarter of the standard deviation |
| MetricsComputing.Negated | metrics_computing.py:154 | definition of `-values`: element i is the negation of value i (the trough search that uses it is `InflectionDates`) |
| MetricsComputing.InflectionDates | metrics_computing.py:148-159 | the map is empty when inflections are off or there are fewer than 5 points; its only failure is a peak index outside the frame (the marking itself in `Mark` and `InflectionMarking`) |
| MetricsComputing.Rows | metrics_computing.py:162-188 | reference definition for the row loop: one row per point, row i built from point i |
| MetricsComputing.IntegratedTimeseries | metrics_computing.py:124-190 | one row per point; it cannot fail when no inflections are sought (row contents in `IntegratedTimeseriesRows`) |
| MetricsComputing.IntegratedTimeseriesRows | metrics_computing.py:148-188 | one row per point in order with its date and value; MoM present iff i ≥ 1 and the previous value ≠ 0; YoY iff i ≥ 12 and the value 12 back ≠ 0; no marks when inflections are off or there are fewer than 5 points |
| MetricsComputing.InflectionMarking | metrics_computing.py:153-186 | a row is a trough iff a trough index names its date, a peak iff only a peak index does, unmarked iff neither |
| MetricsComputing.MarkPositions | metrics_computing.py:156-159 | the marking loop succeeds iff every index is in range, and then equals `Mark` |
| MetricsComputing.BuildRows | metrics_computing.py:162-188 | the row loop computes `Rows` |
| MetricsComputing.GenerateIntegratedTimeseries | metrics_computing.py:124-190 | the loop form equals `IntegratedTimeseries`, including the out-of-range failure |
| MetricsComputing.MarkedSplits | metrics_computing.py:222-231 | the inflection total is the peak count plus the trough count, and at most the row count |
| MetricsComputing.GenerateSummary | metrics_computing.py:192-233 | an empty frame raises; a summary's point count equals the frame's length and its table's length (the rest in `SummaryFacts` and `FitFailureFailsSummary`) |
| MetricsComputing.FitFailureFailsSummary | metrics_computing.py:83-89 | when the linear fit raises the summary raises; otherwise the trend is assessed on the fitted slope |
| MetricsComputing.SummaryFacts | metrics_computing.py:192-233 | basic_stats, changes, the table and volatility are those computed from the frame; data_points = series length = table length; time_span.days = last − first date (≥ 0 when sorted); volatility present iff ≥ 12 points; inflection summary present iff requested, its peaks and troughs are the table's marked rows and total = peaks + troughs |
| MetricsComputing.Analyze | fred_api.py:48-50 | a successful analysis parsed the observations and summarises between one point and one per observation |
| MetricsComputing.AnalyzeFacts | fred_api.py:48-50 | a successful analysis has between 1 and \|observations\| points and a non-negative span; empty input raises |
| FredApi.Lower | fred_api.py:29 | lower-casing keeps the length and lower-cases each letter |
| FredApi.IndicatorName | fred_api.py:26-30 | the metadata's indicator name for a known series, else the series id |
| FredApi.BuildRequest | fred_api.py:25-41 | the request carries id and dates unchanged; frequency is sent iff the series is known with a non-empty period, lower-cased |
| FredApi.HasObservations | fred_api.py:45-47 | definition of the success test (status 200 and a non-empty `observations` list); `CallFredApi` succeeds exactly when it holds |
| FredApi.CallFredApi | fred_api.py:22-72 | success iff status 200 with a non-empty observation list; then data = observations, the analysis attached iff the analyser succeeds; otherwise a failure naming id, status and body |
| FredApi.EmptyObservationsFail | fred_api.py:45-72 | a 200 whose `observations` key is missing or empty is a failure quoting its body, whatever the body |
| FredApi.FetchedAnalysisFacts | fred_api.py:47-58 | a successful fetch has data, and its analysis describes between 1 and \|data\| points |
| LlamaApi.FixDateParameters | llama_api.py:52-85 | the repaired start is never after the repaired end |
| LlamaApi.FixDateParametersCases | llama_api.py:64-85 | unparsable → (today − 365, today); both today → (today − 365, today); reversed → (end − 365, end); otherwise unchanged |
| LlamaApi.SameDayElsewhereKept | llama_api.py:75-78 | a same-day range not on today is left as a one-day range |
| LlamaApi.FixDateParametersIdempotent | llama_api.py:52-85 | repairing a repaired range changes nothing for a fixed today |
| LlamaApi.HasData | llama_api.py:111 | definition of `result['success'] and result.get('data')`; the fallback stops on it (`FallbackFromShape`) |
| LlamaApi.FallbackFrom | llama_api.py:108-126 | definition of the attempts from one attempt number on; its properties are stated by `FallbackFromShape` |
| LlamaApi.Fallback | llama_api.py:105-126 | definition of the whole fallback; its properties are stated by `FallbackContract` |
| LlamaApi.FallbackFromShape | llama_api.py:108-126 | from any attempt: 1 to remaining-budget fetches; fetch j starts 365·j days earlier with the same end; all but the last lacked data; the result is the last fetch's and has data unless the budget ran out |
| LlamaApi.FallbackContract | llama_api.py:105-126 | at most max_retries fetches starting from the repaired range, each retry moving only the start a year back; the first result with data, else the last |
| LlamaApi.DefaultBudgetNeverRetries | llama_api.py:88-117 | with one attempt the fallback is a single fetch on the repaired range |
| LlamaApi.SecondAttemptWidens | llama_api.py:108-124 | with two attempts, an empty first fetch and a non-empty second, the result is the second fetch, one year wider |
| LlamaApi.CallFredApiWithFallback | llama_api.py:88-126 | result and fetch starts equal `Fallback` on the given dates |
| LlamaApi.FetchWithRetries | llama_api.py:108-126 | the retry loop's result and fetch starts equal `FallbackFrom` on the repaired range |
| LlamaApi.LeadingSpaces | llama_api.py:195 | counts the whitespace prefix: all counted characters are whitespace and the next is not |
| LlamaApi.TrailingSpaces | llama_api.py:195 | counts the whitespace suffix: all counted characters are whitespace and the one before is not |
| LlamaApi.StripLeft | llama_api.py:195 | drops exactly the leading whitespace |
| LlamaApi.StripRight | llama_api.py:195 | drops exactly the trailing whitespace |
| LlamaApi.Strip | llama_api.py:195 | a slice of the input with no whitespace (Python's `str.isspace()` set) at either end, everything cut being whitespace |
| LlamaApi.StripUnitSeparator | llama_api.py:195 | a leading U+001F is stripped: `"\x1fGDP"` becomes `"GDP"` |
| LlamaApi.StripIdempotent | llama_api.py:195 | stripping twice is stripping once |
| LlamaApi.CallOf | llama_api.py:194-198 | id stripped; each date from `start_date`/`end_date` when non-empty, else `start`/`end`, else '' |
| LlamaApi.ArgumentsOf | llama_api.py:193 | the lookup succeeds iff the call has a `function` with `arguments`; otherwise the error is the KeyError text of the missing key |
| LlamaApi.CallsOf | llama_api.py:191-198 | a successful extraction has one record per tool call |
| LlamaApi.CallsOfSucceeds | llama_api.py:191-198 | extraction succeeds iff every tool call has its function and arguments |
| LlamaApi.CallsOfValues | llama_api.py:191-198 | record i is built from tool call i |
| LlamaApi.CallsOfErrors | llama_api.py:193-211 | a failing tool call reports the missing key's KeyError text |
| LlamaApi.ExtractionOf | llama_api.py:169-211 | definition of the extraction outcome; its properties are stated by `ExtractionFacts` |
| LlamaApi.ExtractionFacts | llama_api.py:169-211 | no `message` → failure; no `tool_calls` → no calls plus the direct answer; otherwise one record per call in order, unless a call is malformed |
| LlamaApi.ExtractToolCalls | llama_api.py:146-211 | the extraction loop equals `ExtractionOf` |
| LlamaApi.ResolvedStart | llama_api.py:228 | an empty start becomes today − 730, any other is kept |
| LlamaApi.ResolvedEnd | llama_api.py:229 | an empty end becomes today, any other is kept |
| LlamaApi.SlotOf | llama_api.py:226-267 | definition of one call's slot; its properties are stated by `ExecutionFacts` |
| LlamaApi.ExecutionOf | llama_api.py:224-269 | reference definition for the execution loop: one slot per call, slot i computed from call i with index i |
| LlamaApi.ExecutionFacts | llama_api.py:226-269 | slot i has tool_call_index i; an empty id fails with no fetch; with the fallback, a call with no dates fetches exactly [today − 730, today] |
| LlamaApi.ExecuteToolCalls | llama_api.py:213-269 | the execution loop equals `ExecutionOf` |
| LlamaApi.PayloadOf | llama_api.py:352-362 | a successful slot sends id, indicator, data-point count and analysis; a failed one its error |
| LlamaApi.ToolMessages | llama_api.py:351-367 | reference definition of the tool messages: one per result, in order |
| LlamaApi.FinalizeMessages | llama_api.py:338-367 | the second conversation is the first turn, then the assistant's message, then one message per result (their contents in `ToolMessagesFollowCalls`) |
| LlamaApi.FinalAnswerOf | llama_api.py:369-370 | definition of the final content, or "No response generated"; `ProcessQuestion` returns it |
| LlamaApi.ProcessQuestion | llama_api.py:271-389 | failed extraction → failure after one model call; no calls → the direct answer (or '') with empty results after one call; otherwise every call executed, exactly one more model call on the first turn + assistant message + tool messages, and its content (or "No response generated") as the answer |
| LlamaApi.ToolMessagesFollowCalls | llama_api.py:338-367 | the second conversation is the first turn, then the model's message, then tool message i reporting slot i |
| RetrievalAccuracy.IdsOf | retrieval_accuracy_test.py:64-66 | the actual set holds exactly the called ids, duplicates once |
| RetrievalAccuracy.SetOf | retrieval_accuracy_test.py:65 | the expected set holds exactly the listed ids |
| RetrievalAccuracy.F1 | retrieval_accuracy_test.py:64-79 | definition of the series score from the three set sizes; its properties are stated by `F1ClosedForm` and `SeriesScoreBounds` |
| RetrievalAccuracy.HarmonicMean | retrieval_accuracy_test.py:76-79 | the F1 of precision c/a and recall c/e is 2c/(a + e) |
| RetrievalAccuracy.F1ClosedForm | retrieval_accuracy_test.py:73-79 | for a non-empty expected set the score is 2·\|correct\|/(\|actual\| + \|expected\|), in [0, 1] |
| RetrievalAccuracy.SeriesScoreBounds | retrieval_accuracy_test.py:73-79 | the score lies in [0, 1]; with no expected ids it is 1 iff no ids were called |
| RetrievalAccuracy.EvaluateSeriesId | retrieval_accuracy_test.py:52-87 | correct/missing/extra partition the expected and actual sets pairwise disjointly; the score is their F1, in [0, 1]; with nothing expected it is 1 iff there were no calls |
| RetrievalAccuracy.SeriesIdExample | retrieval_accuracy_test.py:64-79 | calls for GDP and UNRATE against expected GDP score 2/3 |
| RetrievalAccuracy.CompareDates | retrieval_accuracy_test.py:146-169 | in [0, 1]; 1 iff both parse to the same day; 0 for an empty or unparsable date or beyond the tolerance; within it, score·t = t − d |
| RetrievalAccuracy.CompareDatesSymmetric | retrieval_accuracy_test.py:160 | swapping the two dates does not change the score |
| RetrievalAccuracy.CompareDatesMonotone | retrieval_accuracy_test.py:160-167 | a date nearer the expected one never scores lower |
| RetrievalAccuracy.TwoWeeksApart | retrieval_accuracy_test.py:164-165 | dates 14 days apart score 16/30 |
| RetrievalAccuracy.ExpectedStart | retrieval_accuracy_test.py:110-121 | "Ny" → today − 365N, "Nm" → today − 30N, otherwise `start` or '' |
| RetrievalAccuracy.ExpectedEnd | retrieval_accuracy_test.py:123-126 | relative_end "today" → today, otherwise `end` or '' |
| RetrievalAccuracy.CallScore | retrieval_accuracy_test.py:129-132 | one call's score is in [0, 1], and 1 iff both its dates hit the expected days |
| RetrievalAccuracy.SumCallScoresBounds | retrieval_accuracy_test.py:129-139 | the sum of call scores is between 0 and the call count, equal to it iff every call scores 1 |
| RetrievalAccuracy.DateRangeScore | retrieval_accuracy_test.py:99-144 | definition of the date score; its properties are stated by `DateRangeScoreFacts` |
| RetrievalAccuracy.DateRangeScoreFacts | retrieval_accuracy_test.py:99-139 | the date score is in [0, 1], and the unrounded mean is 1 iff there is no range, no call, or every call matches both dates exactly (the reported, rounded score can be 1.0 without that) |
| RetrievalAccuracy.EvaluateDateRange | retrieval_accuracy_test.py:89-144 | the scoring loop equals `DateRangeScore` (1.0 with no range or no call, else the mean call score) |
| RetrievalAccuracy.EvaluateSingleCase | retrieval_accuracy_test.py:171-249 | no id → KeyError; a no-tool case succeeds iff no call was made, scoring 1 or 0; a tool case succeeds iff extraction did, scoring 0.5·series + 0.5·date; all scores in [0, 1]; a result is scored or an extraction failure iff its case requires a tool call |
| RetrievalAccuracy.DirectAnswerScoresHalf | retrieval_accuracy_test.py:226-240 | a tool-required case answered with no call succeeds with overall 0.5 when ids were expected |
| RetrievalAccuracy.Evaluations | retrieval_accuracy_test.py:261-266 | a completed evaluation has one result per case |
| RetrievalAccuracy.EvaluationsFailure | retrieval_accuracy_test.py:171-192 | evaluating a list of cases fails iff some case lacks an id, and then with the KeyError text |
| RetrievalAccuracy.EvaluationsValues | retrieval_accuracy_test.py:261-266 | result k is case k's evaluation |
| RetrievalAccuracy.CountSucceeded | retrieval_accuracy_test.py:268 | there are no more successful results than results |
| RetrievalAccuracy.SumSucceededBounds | retrieval_accuracy_test.py:275-287 | a sum of [0, 1] scores over the successful results is between 0 and their count |
| RetrievalAccuracy.IndexOf | retrieval_accuracy_test.py:290-291 | `results.index(r)` is the first position holding r |
| RetrievalAccuracy.CountClass | retrieval_accuracy_test.py:290-300 | a class count over `results.index(r)` never exceeds the results counted (splits in `CountClassSplit`, own-case counting in `CountClassByKind`) |
| RetrievalAccuracy.Summarize | retrieval_accuracy_test.py:268-304 | there is no summary exactly when no result succeeded (its counts and averages in `RunFacts`) |
| RetrievalAccuracy.RunOf | retrieval_accuracy_test.py:251-326 | definition of a whole run; its properties are stated by `RunFacts` and `RunClassifiesByOwnCase` |
| RetrievalAccuracy.CountClassSplit | retrieval_accuracy_test.py:290-300 | tool + non-tool tests = results; tool + non-tool passed = successful results |
| RetrievalAccuracy.RunStopsAt | retrieval_accuracy_test.py:261-266 | a KeyError among the first min(n, 326) cases is the outcome of the whole run |
| RetrievalAccuracy.EvaluatedPrefix | retrieval_accuracy_test.py:261-263 | the evaluated cases are the first min(n, 326) |
| RetrievalAccuracy.RunFacts | retrieval_accuracy_test.py:251-326 | one result per evaluated case; no summary iff nothing succeeded; total counts every stored case; failed = unsuccessful evaluated + never evaluated; counts add up; every average in [0, 1] |
| RetrievalAccuracy.CountClassByKind | retrieval_accuracy_test.py:290-300 | when every result's variant tells its case's kind, counting through the `index` lookup equals counting by each result's own case |
| RetrievalAccuracy.RunClassifiesByOwnCase | retrieval_accuracy_test.py:290-300 | for every run, with or without repeated question ids, the four tool/non-tool counts are those of each result's own case |
| RetrievalAccuracy.AccuracyEvaluator.constructor | retrieval_accuracy_test.py:16-25 | a new evaluator holds no cases |
| RetrievalAccuracy.AccuracyEvaluator.LoadTestCases | retrieval_accuracy_test.py:27-30 | loading replaces the stored cases |
| RetrievalAccuracy.AccuracyEvaluator.AddTestCase | retrieval_accuracy_test.py:32-50 | appends one tool-call case with no question id, keeping the earlier cases |
| RetrievalAccuracy.AccuracyEvaluator.RunAllTests | retrieval_accuracy_test.py:251-326 | the loop with its early stop and KeyError path equals `RunOf` |
| RetrievalAccuracy.AddedCaseAbortsRun | retrieval_accuracy_test.py:45-50 | a case added without an id, reached within the first 326, makes the run fail with the KeyError |

## Left out

Not modelled, with the reason:

- HTTP and language-model transport, and their failures. The JSON round trips are abstract functions. Not modelled:
  - `requests.post`, `requests.get` and `response.json()`
  - the exception catch around `call_llm` in `extract_tool_calls`
  - an exception from the second model call
- File I/O. `load_indicator_metadata` becomes the `Env.metadata` parameter. `load_test_cases` receives the parsed cases. Not modelled: reading the prompt guide and tool schema, and `export_results`.
- Printing, the `verbose` flag, and `time.time()` timing. The `execution_time` field is dropped.
- The `plot_line` helper, which the code never calls.
- The module-level `process_question` wrapper. It only builds an agent and calls its method.
- Library numerics: median, std, rolling std, `polyfit`, `corrcoef` and `find_peaks`. They are uninterpreted `Library` functions. Which inputs make `polyfit` raise or return NaN is left to the `Library` value, not derived. The model does not model floating-point rounding or overflow.
- Date parsing. `strptime` and `pd.to_datetime` are reduced to three outcomes: an empty date (NaT for `pd.to_datetime`, a rejection for `strptime`), a malformed date (rejected), or a date naming a day. `pd.to_datetime` also accepts formats besides `YYYY-MM-DD`; the model does not. Date strings are not re-rendered with `strftime`.
- Python string details:
  - `str.lower` is modelled on ASCII letters only.
  - A JSON `null` is treated like a missing key.
  - A non-string `series_id` is not modelled.
  - A `tool_calls` value of `null` is not modelled.
- SortByDate: rows with equal dates keep their input order. pandas' default sort is not stable, so it may order them differently.
- The `except: break` in the fallback loop. It is unreachable with max_retries=1, the only value the code passes. With larger budgets it fires near year 1 (the date subtraction overflows, or `strftime` writes a year `strptime` rejects); that is not modelled.
- `int()` on a malformed `relative_start` raises. The model takes the relative start already parsed into years or months.
- The `details` strings of `evaluate_date_range`. The score is modelled; the text is not.
- The round-to-two-decimals steps. All these members compute with exact reals:
  - AssessTrend: the reported slope is unrounded.
  - LagDelta: the MoM/YoY fields are unrounded.
  - EvaluateSeriesId: the score is unrounded.
  - DateRangeScore / EvaluateDateRange: the mean call score is unrounded, so a mean such as 239/240 that the code reports as 1.0 stays below 1.
  - EvaluateSingleCase: the overall score is unrounded.
  - Summarize: the three averages are unrounded.
- The trend `description` string. It only joins the two labels.
- Date range. Python's `datetime` holds only years 1 to 9999; the model's days are unbounded. Two places where the code then raises are not modelled:
  - FixDateParameters: when the start is after the end, `end_dt - timedelta(days=365)` (llama_api.py:83) raises `OverflowError` for an end in year 1. That line is outside the `try`, so `process_question` raises; the model returns (end − 365, end).
  - ExpectedStart: a very large `relative_start` such as "3000y" makes `datetime.today() - timedelta(...)` (retrieval_accuracy_test.py:114, 117) raise, which ends `run_all_tests`; the model returns a date before year 1.
- The fetcher. The fallback sees it as a function from the request to a response, not as a fixed list of results. So two fetches with the same parameters get the same response.
