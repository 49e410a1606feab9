/**
 * The two request handlers, `POST /analyze` and `GET /list_files`: the pipeline from the
 * bucket listing to the response, and the handlers' blanket `except` clauses.
 */
module Api {
  import opened Wrappers
  import opened Json
  import opened Decimal
  import opened Listing
  import opened Loading
  import opened Merge
  import opened Visualization

  /** The body of `POST /analyze`. */
  datatype QueryRequest = QueryRequest(query: string, bucketName: string, prefix: string, maxFiles: int)

  /** The dict `/analyze` returns; `visualizationError` is absent from the successful one. */
  datatype AnalyzeResponse = AnalyzeResponse(
    message: string,
    visualization: Option<Json>,
    success: bool,
    filesProcessed: nat,
    totalFilesFound: nat,
    visualizationError: Option<string>)

  datatype HttpException = HttpException(status: int, detail: string)

  /** What a handler's `try` block raises: an `HTTPException` of its own, or any other exception with its `str(e)`. */
  datatype Raised = Http(exception: HttpException) | Other(message: string)

  /**
   * The collaborators: the bucket listing (the pages delivered, and the error raised on
   * requesting the next one, if any), the object bodies,
   * UTF-8 decoding with `json.loads`, the JSON agent run on the merged data and the user's
   * query (its answer, or the error raised), pandas and the plotly figure encoder.
   */
  datatype Services = Services(
    listing: (string, string) -> Paginated,
    fetch: (string, string) -> Option<seq<Byte>>,
    parse: seq<Byte> -> Option<Json>,
    agent: (Json, string) -> Result<string, string>,
    pandas: Pandas,
    render: Chart -> Result<Json, string>)

  const NoFilesDetail: string := "No JSON files found in the specified bucket and prefix"
  const NoneLoadedDetail: string := "Failed to load any JSON files"

  function IntToString(n: int): string
  {
    if n >= 0 then NatToString(n) else "-" + NatToString(-n)
  }

  /** `str(e)`; Starlette's `HTTPException` renders as its status, a colon and its detail. */
  function ExceptionText(e: Raised): string
  {
    match e
    case Http(h) => IntToString(h.status) + ": " + h.detail
    case Other(m) => m
  }

  /**
   * The two dicts the visualization `try` returns: either way the analysis succeeded; a
   * visualization error leaves the figure out and is reported beside it.
   */
  function Respond(message: string, viz: Result<Option<Json>, string>, processed: nat, found: nat): (r: AnalyzeResponse)
    ensures r.success
    ensures r.message == message && r.filesProcessed == processed && r.totalFilesFound == found
    ensures viz.Ok? ==> r.visualization == viz.value && r.visualizationError.None?
    ensures viz.Err? ==> r.visualization.None? && r.visualizationError == Some(viz.error)
  {
    match viz
    case Ok(plot) => AnalyzeResponse(message, plot, true, processed, found, None)
    case Err(e) => AnalyzeResponse(message, None, true, processed, found, Some(e))
  }

  /** The keys the scan of `/analyze` selects, or the error the paginator raised during the scan. */
  function Scanned(req: QueryRequest, svc: Services): Result<seq<string>, string>
  {
    ScanOutcome(svc.listing(req.bucketName, req.prefix), req.maxFiles)
  }

  /** The documents that loaded, in key order. */
  function LoadedDocs(keys: seq<string>, req: QueryRequest, svc: Services): seq<Json>
  {
    DropFailures(LoadAll(keys, svc.fetch, svc.parse, req.bucketName))
  }

  /** The `try` block of `/analyze`: list, cap, load, filter, merge, ask the agent, visualize. */
  method AnalyzeBody(req: QueryRequest, svc: Services) returns (r: Result<AnalyzeResponse, Raised>)
    ensures match Scanned(req, svc)
      case Err(m) => r == Err(Other(m))
      case Ok(keys) =>
        var docs := LoadedDocs(keys, req, svc);
        if keys == [] then r == Err(Http(HttpException(404, NoFilesDetail)))
        else if docs == [] then r == Err(Http(HttpException(500, NoneLoadedDetail)))
        else
          match svc.agent(Merged(docs), req.query)
          case Err(m) => r == Err(Other(m))
          case Ok(answer) =>
            r == Ok(Respond(answer, VisualizationOutcome(Merged(docs), svc.pandas, svc.render), |docs|, |keys|))
    ensures r.Ok? ==> r.value.success && 1 <= r.value.filesProcessed <= r.value.totalFilesFound
    ensures r.Ok? && req.maxFiles >= 1 ==> r.value.totalFilesFound <= req.maxFiles
    ensures r.Ok? && req.maxFiles <= 0 ==> r.value.totalFilesFound == 1
  {
    var listed := svc.listing(req.bucketName, req.prefix);
    var keys, stopped := SelectKeys(listed.pages, req.maxFiles);
    if !stopped && listed.failure.Some? {
      return Err(Other(listed.failure.value));
    }
    if keys == [] {
      return Err(Http(HttpException(404, NoFilesDetail)));
    }
    var loaded := LoadAll(keys, svc.fetch, svc.parse, req.bucketName);
    var docs := DropFailures(loaded);
    if docs == [] {
      return Err(Http(HttpException(500, NoneLoadedDetail)));
    }
    var merged := MergeJsonData(docs);
    var answer := svc.agent(merged, req.query);
    if answer.Err? {
      return Err(Other(answer.error));
    }
    var viz := Visualize(merged, svc.pandas, svc.render);
    return Ok(Respond(answer.value, viz, |docs|, |keys|));
  }

  /** The handler's `except Exception` as written: whatever was raised becomes a 500 carrying `str(e)`. */
  function HandleAsWritten(r: Result<AnalyzeResponse, Raised>): (h: Result<AnalyzeResponse, HttpException>)
    ensures r.Ok? <==> h.Ok?
    ensures r.Ok? ==> h.value == r.value
    ensures h.Err? ==> h.error.status == 500 && h.error.detail == ExceptionText(r.error)
  {
    match r
    case Ok(resp) => Ok(resp)
    case Err(e) => Err(HttpException(500, ExceptionText(e)))
  }

  /** The handler with the handler's own `HTTPException`s re-raised unchanged, and only other exceptions turned into a 500. */
  function HandleCorrected(r: Result<AnalyzeResponse, Raised>): (h: Result<AnalyzeResponse, HttpException>)
    ensures r.Ok? <==> h.Ok?
    ensures r.Ok? ==> h.value == r.value
    ensures r.Err? && r.error.Http? ==> h == Err(r.error.exception)
    ensures r.Err? && r.error.Other? ==> h == Err(HttpException(500, r.error.message))
  {
    match r
    case Ok(resp) => Ok(resp)
    case Err(Http(e)) => Err(e)
    case Err(Other(m)) => Err(HttpException(500, m))
  }

  /** `POST /analyze` as the source has it. */
  method AnalyzeDataAsWritten(req: QueryRequest, svc: Services) returns (h: Result<AnalyzeResponse, HttpException>)
    ensures h.Err? ==> h.error.status == 500
    ensures Scanned(req, svc).Err? ==> h == Err(HttpException(500, Scanned(req, svc).error))
    ensures Scanned(req, svc) == Ok([]) ==> h == Err(HttpException(500, "404: " + NoFilesDetail))
    ensures Scanned(req, svc).Ok? && Scanned(req, svc).value != [] && LoadedDocs(Scanned(req, svc).value, req, svc) == [] ==>
      h == Err(HttpException(500, "500: " + NoneLoadedDetail))
    ensures h.Ok? ==> h.value.success && 1 <= h.value.filesProcessed <= h.value.totalFilesFound
  {
    var r := AnalyzeBody(req, svc);
    NotFoundText();
    NoneLoadedText();
    h := HandleAsWritten(r);
  }

  /** `POST /analyze` with the no-files 404 and the all-failed 500 reaching the client as raised. */
  method AnalyzeData(req: QueryRequest, svc: Services) returns (h: Result<AnalyzeResponse, HttpException>)
    ensures Scanned(req, svc).Err? ==> h == Err(HttpException(500, Scanned(req, svc).error))
    ensures Scanned(req, svc) == Ok([]) ==> h == Err(HttpException(404, NoFilesDetail))
    ensures Scanned(req, svc).Ok? && Scanned(req, svc).value != [] && LoadedDocs(Scanned(req, svc).value, req, svc) == [] ==>
      h == Err(HttpException(500, NoneLoadedDetail))
    ensures h.Ok? ==> h.value.success && 1 <= h.value.filesProcessed <= h.value.totalFilesFound
  {
    var r := AnalyzeBody(req, svc);
    h := HandleCorrected(r);
  }

  /**
   * `GET /list_files`: every JSON object of the listing, uncapped. The loop reads every
   * page, so a failing page request always becomes a 500.
   */
  method ListFiles(bucket: string, prefix: string, listing: (string, string) -> Paginated)
    returns (h: Result<ListFilesResponse, HttpException>)
    ensures listing(bucket, prefix).failure.Some? ==> h == Err(HttpException(500, listing(bucket, prefix).failure.value))
    ensures listing(bucket, prefix).failure.None? ==>
      && h.Ok?
      && h.value.files == JsonEntries(AllObjects(listing(bucket, prefix).pages))
      && h.value.count == |h.value.files|
  {
    var listed := listing(bucket, prefix);
    var resp := ListJsonFiles(listed.pages);
    if listed.failure.Some? {
      return Err(HttpException(500, listed.failure.value));
    }
    return Ok(resp);
  }

  /** A bucket with no JSON keys under the prefix: the source answers 500, not the 404 it raises. */
  lemma NoFilesAnswered500AsWritten()
    ensures HandleAsWritten(Err(Http(HttpException(404, NoFilesDetail)))) == Err(HttpException(500, "404: " + NoFilesDetail))
    ensures HandleCorrected(Err(Http(HttpException(404, NoFilesDetail)))) == Err(HttpException(404, NoFilesDetail))
  {
    NotFoundText();
  }

  lemma NotFoundText()
    ensures IntToString(404) == "404"
    ensures ExceptionText(Http(HttpException(404, NoFilesDetail))) == "404: " + NoFilesDetail
  {
    assert DigitChar(4) == '4' && DigitChar(0) == '0';
    assert NatToString(4) == "4";
    assert NatToString(40) == NatToString(4) + [DigitChar(0)];
    assert NatToString(404) == NatToString(40) + [DigitChar(4)];
    assert "404" + ": " + NoFilesDetail == "404: " + NoFilesDetail;
  }

  lemma NoneLoadedText()
    ensures IntToString(500) == "500"
    ensures ExceptionText(Http(HttpException(500, NoneLoadedDetail))) == "500: " + NoneLoadedDetail
  {
    assert DigitChar(5) == '5' && DigitChar(0) == '0';
    assert NatToString(5) == "5";
    assert NatToString(50) == NatToString(5) + [DigitChar(0)];
    assert NatToString(500) == NatToString(50) + [DigitChar(0)];
    assert IntToString(500) == "500";
    assert "500" + ": " + NoneLoadedDetail == "500: " + NoneLoadedDetail;
  }

  /**
   * `str(e)` of an `HTTPException` with a non-negative status: the status in decimal
   * digits, then ": ", then the detail, which can be read back from the text.
   */
  lemma HttpExceptionText(e: HttpException)
    requires e.status >= 0
    ensures var t := ExceptionText(Http(e)); var n := |NatToString(e.status)|;
      && 1 <= n && n + 2 + |e.detail| == |t|
      && (forall i | 0 <= i < n :: '0' <= t[i] <= '9')
      && t[n..n + 2] == ": " && t[n + 2..] == e.detail
  {
    var digits := NatToString(e.status);
    var t := ExceptionText(Http(e));
    assert t == digits + ": " + e.detail;
    assert forall i | 0 <= i < |digits| :: t[i] == digits[i];
  }
}
