/** One fetch of one series from the statistical data source
    (`call_fred_api` in fred_api.py).

    The HTTP exchange is abstract: `Env.source` maps the request the code
    builds to the response it gets back, and `Env.metadata` is the
    series-id -> record map that `load_indicator_metadata` reads from disk. */
module FredApi {
  import opened Wrappers
  import opened Dates
  import opened MetricsComputing

  /** The two fields of a metadata record the fetch reads. */
  datatype IndicatorInfo = IndicatorInfo(indicator: string, period: string)

  /** The query parameters of the observations request (the API key and the
      fixed `file_type=json` are left out). */
  datatype Request = Request(seriesId: string, start: DateText, end: DateText, frequency: Option<string>)

  /** What comes back: the status code, the `observations` key of the JSON
      body if it has one, and the body text quoted in error messages. */
  datatype Response = Response(status: int, observations: Option<seq<RawObservation>>, body: string)

  datatype Env = Env(
    metadata: map<string, IndicatorInfo>,
    source: Request -> Response,
    library: Library)

  /** The error a failed slot carries. */
  datatype FetchError =
    | HttpFailure(seriesId: string, status: int, body: string)  // "Failed to fetch <id>: Status <code>, Response: <body>"
    | NoSeriesId                                                // "No series_id provided" (set by the agent)

  /** The result dictionary: `success=True` with the raw observations and,
      when the analyser did not raise, its summary; or `success=False`. */
  datatype SeriesResult =
    | Fetched(seriesId: string, indicatorName: string, data: seq<RawObservation>, analysis: Option<Summary>)
    | FetchFailed(error: FetchError)

  function LowerChar(c: char): char {
    if 'A' <= c <= 'Z' then (c as int + 32) as char else c
  }

  /** `str.lower()` on ASCII letters. */
  function Lower(s: string): (r: string)
    ensures |r| == |s|
    ensures forall i :: 0 <= i < |s| ==> r[i] == LowerChar(s[i])
  {
    if s == [] then [] else [LowerChar(s[0])] + Lower(s[1..])
  }

  /** The display name: the metadata's indicator name, else the id itself. */
  function IndicatorName(seriesId: string, metadata: map<string, IndicatorInfo>): (name: string)
    ensures seriesId !in metadata ==> name == seriesId
    ensures seriesId in metadata ==> name == metadata[seriesId].indicator
  {
    if seriesId in metadata then metadata[seriesId].indicator else seriesId
  }

  /** The request parameters: `frequency` is the lower-cased period of a known
      series, and is sent only when that is a non-empty string. */
  function BuildRequest(seriesId: string, start: DateText, end: DateText, metadata: map<string, IndicatorInfo>)
    : (req: Request)
    ensures req.seriesId == seriesId && req.start == start && req.end == end
    ensures req.frequency.Some? <==> seriesId in metadata && metadata[seriesId].period != ""
    ensures req.frequency.Some? ==> req.frequency.value == Lower(metadata[seriesId].period)
  {
    var frequency :=
      if seriesId in metadata && Lower(metadata[seriesId].period) != "" then Some(Lower(metadata[seriesId].period))
      else None;
    Request(seriesId, start, end, frequency)
  }

  /** A response that counts as data: status 200 and a non-empty list of
      observations. */
  predicate HasObservations(resp: Response) {
    resp.status == 200 && resp.observations.Some? && |resp.observations.value| > 0
  }

  /** `call_fred_api`: success exactly when the response is a 200 carrying at
      least one observation; then the raw observations are returned whether or
      not the analysis raised, with the summary attached only when it did
      not.  Every other response, a 200 with no observations included, is a
      failure naming the series, the status and the body. */
  function CallFredApi(seriesId: string, start: DateText, end: DateText, env: Env): (r: SeriesResult)
    ensures var resp := env.source(BuildRequest(seriesId, start, end, env.metadata));
      && (r.Fetched? <==> HasObservations(resp))
      && (r.Fetched? ==>
            && r.seriesId == seriesId
            && r.indicatorName == IndicatorName(seriesId, env.metadata)
            && r.data == resp.observations.value
            && (r.analysis.Some? <==> Analyze(r.data, env.library).Success?)
            && (r.analysis.Some? ==> r.analysis.value == Analyze(r.data, env.library).value))
      && (r.FetchFailed? ==> r.error == HttpFailure(seriesId, resp.status, resp.body))
  {
    var resp := env.source(BuildRequest(seriesId, start, end, env.metadata));
    if HasObservations(resp) then
      var data := resp.observations.value;
      var name := IndicatorName(seriesId, env.metadata);
      match Analyze(data, env.library)
      case Success(summary) => Fetched(seriesId, name, data, Some(summary))
      case Failure(_) => Fetched(seriesId, name, data, None)
    else
      FetchFailed(HttpFailure(seriesId, resp.status, resp.body))
  }

  /** A 200 reply whose body has no `observations` key, or an empty list
      under it, is reported as a failure quoting that body, not as an empty
      success. */
  lemma EmptyObservationsFail(seriesId: string, start: DateText, end: DateText, env: Env)
    requires var resp := env.source(BuildRequest(seriesId, start, end, env.metadata));
      resp.status == 200 && (resp.observations.None? || resp.observations.value == [])
    ensures CallFredApi(seriesId, start, end, env)
      == FetchFailed(HttpFailure(seriesId, 200, env.source(BuildRequest(seriesId, start, end, env.metadata)).body))
  {
  }

  /** When a fetch succeeds with an analysis, that analysis describes every
      observation: it has at least one point and no more points than
      observations. */
  lemma FetchedAnalysisFacts(seriesId: string, start: DateText, end: DateText, env: Env)
    requires CallFredApi(seriesId, start, end, env).Fetched?
    ensures var r := CallFredApi(seriesId, start, end, env);
      && r.data != []
      && (r.analysis.Some? ==> 0 < r.analysis.value.dataPoints <= |r.data|)
  {
    var r := CallFredApi(seriesId, start, end, env);
    AnalyzeFacts(r.data, env.library);
  }
}
