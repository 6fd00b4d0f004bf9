/** internal/processor/analyze.go: probing each URL, deciding its Cloud Run job and
    collecting the per-URL results.

    The network and the Google clients are oracles (Oracles): url.Parse, the HEAD
    request, the storage Attrs call and the Jobs client's RunJob. The audit table and
    the RunJob calls are observed through one ghost trace of Effects, in call order.
    LogAuditData always returns nil (internal/bigquery/client.go), so recording an
    audit event cannot fail. */
module Processor {
  import opened Wrappers
  import opened Model
  import C = Constants
  import Paths
  import Decimal
  import Gcs
  import Compute

  /** url.Parse(rawURL): the parsed URL's Path, or the text of its error. */
  datatype UrlParse = Parsed(path: string) | ParseError(message: string)

  /** Sending the HEAD request (http.DefaultClient.Do): its error, or the three
      headers analyzeFile reads. Header.Get gives "" for an absent header. */
  datatype HeadResponse =
    | DoFailed(cause: string)
    | Headers(contentLength: string, acceptRanges: string, contentType: string)

  datatype Oracles = Oracles(
    parse: string -> UrlParse,
    head: string -> HeadResponse,
    attrs: (string, string) -> Gcs.AttrsResult,
    runJob: Compute.RunJobRequest -> Option<string>)

  /** What a Processor fixes for a whole batch. */
  datatype Context = Context(traceId: string, projectId: string, region: string, env: Oracles)

  /** What the outside world sees: an audit row, or a RunJob call. */
  datatype Effect = Audit(event: AuditEvent) | JobRun(request: Compute.RunJobRequest)

  /** The audit rows the processor writes: trace id as both trace and contract id. */
  function ProcessorEvent(traceId: string, name: string, status: string, url: string): AuditEvent
  {
    AuditEvent(traceId, traceId, name, status, C.APPLICATION_NAME, "", "", url)
  }

  // ---------------------------------------------------------------------------
  // decideCompute

  /** The routing decision: a Cloud Run job with its arguments, or nothing. */
  datatype Decision = Trigger(job: string, args: seq<string>) | Skip

  const RoutedExtensions: set<string> := {C.JSON, C.GZ, C.ZIP}

  /** The switch on FileExtension in decideCompute: exact, case-sensitive match. */
  function Decide(info: FileInfo): (d: Decision)
    ensures d.Trigger? <==> info.fileExtension in RoutedExtensions
    ensures d.Trigger? ==> |d.args| >= 3 && d.args[0] == info.traceId && d.args[1] == info.fileUrl
  {
    var streamerArgs := [info.traceId, info.fileUrl, info.fileSizeBytes, info.requestUuid];
    if info.fileExtension == C.JSON then Trigger(C.CLOUD_RUN_JOB_NAME, streamerArgs)
    else if info.fileExtension == C.GZ then Trigger(C.GZ_JOB_NAME, streamerArgs)
    else if info.fileExtension == C.ZIP then Trigger(C.ZIP_DOWNLOADER_JOB_NAME, [info.traceId, info.fileUrl, info.fileName])
    else Skip
  }

  /** What decideCompute returns and does. */
  datatype Dispatch = Dispatch(err: Option<string>, effects: seq<Effect>)

  /** decideCompute: for a routed extension one IN_PROGRESS TRIGGER_CLOUD_RUN_JOB audit
      row, then one RunJob call whose error is the result; otherwise nothing. */
  function Dispatched(ctx: Context, info: FileInfo): (d: Dispatch)
    ensures d.err.Some? ==> Decide(info).Trigger?
    ensures d.effects == [] <==> Decide(info).Skip?
  {
    match Decide(info)
    case Skip => Dispatch(None, [])
    case Trigger(job, args) =>
      Dispatch(Compute.TriggerFileStreamerJob(ctx.projectId, ctx.region, job, args, ctx.env.runJob),
               [Audit(ProcessorEvent(ctx.traceId, C.TRIGGER_CLOUD_RUN_JOB, C.IN_PROGRESS, info.fileUrl)),
                JobRun(Compute.NewRunJobRequest(ctx.projectId, ctx.region, job, args))])
  }

  /** The number of RunJob calls among effects. */
  function JobRuns(effects: seq<Effect>): nat
  {
    if effects == [] then 0
    else (if effects[0].JobRun? then 1 else 0) + JobRuns(effects[1..])
  }

  lemma {:induction false} JobRunsAppend(a: seq<Effect>, b: seq<Effect>)
    ensures JobRuns(a + b) == JobRuns(a) + JobRuns(b)
  {
    if a == [] {
      assert a + b == b;
    } else {
      assert (a + b)[0] == a[0] && (a + b)[1..] == a[1..] + b;
      JobRunsAppend(a[1..], b);
    }
  }

  /** Each routed extension selects its own job and argument vector; every other
      extension, "" and upper-case spellings included, selects nothing. */
  lemma DecideRoutes(info: FileInfo)
    ensures Decide(info).Trigger? <==> info.fileExtension in RoutedExtensions
    ensures info.fileExtension == C.JSON ==>
      Decide(info) == Trigger(C.CLOUD_RUN_JOB_NAME, [info.traceId, info.fileUrl, info.fileSizeBytes, info.requestUuid])
    ensures info.fileExtension == C.GZ ==>
      Decide(info) == Trigger(C.GZ_JOB_NAME, [info.traceId, info.fileUrl, info.fileSizeBytes, info.requestUuid])
    ensures info.fileExtension == C.ZIP ==>
      Decide(info) == Trigger(C.ZIP_DOWNLOADER_JOB_NAME, [info.traceId, info.fileUrl, info.fileName])
    ensures info.fileExtension in {"", ".JSON", ".Gz", ".ZIP", ".tar"} ==> Decide(info) == Skip
  {
  }

  /** A routed file gives exactly one audit row followed by exactly one RunJob call
      for the chosen job and arguments, and the RunJob error comes back unchanged;
      any other file gives no effect and no error. */
  lemma DispatchedShape(ctx: Context, info: FileInfo)
    ensures var d := Dispatched(ctx, info);
      match Decide(info)
      case Skip => d == Dispatch(None, [])
      case Trigger(job, args) =>
        var request := Compute.NewRunJobRequest(ctx.projectId, ctx.region, job, args);
        && d.effects == [Audit(ProcessorEvent(ctx.traceId, C.TRIGGER_CLOUD_RUN_JOB, C.IN_PROGRESS, info.fileUrl)),
                         JobRun(request)]
        && d.err == ctx.env.runJob(request)
        && JobRuns(d.effects) == 1
  {
    var d := Dispatched(ctx, info);
    if Decide(info).Trigger? {
      var e := d.effects;
      assert |e| == 2 && e[1].JobRun? && !e[0].JobRun?;
      assert e[1..][1..] == [];
      assert JobRuns(e[1..][1..]) == 0;
      assert JobRuns(e[1..]) == 1;
    }
  }

  // ---------------------------------------------------------------------------
  // getFileNameFromURL and analyzeFile

  /** getFileNameFromURL: path.Base of the parsed path, or the parse error. */
  function FileNameFromUrl(rawUrl: string, parse: string -> UrlParse): (r: Result<string, string>)
    ensures r.Success? <==> parse(rawUrl).Parsed?
    ensures r.Success? ==> r.value != "" && (r.value == "/" || '/' !in r.value)
    ensures r.Failure? ==> r.error == parse(rawUrl).message
  {
    match parse(rawUrl)
    case ParseError(e) => Failure(e)
    case Parsed(path) => Success(Paths.Base(path))
  }

  /** http.NewRequestWithContext(ctx, "HEAD", rawUrl, nil): the method is valid and
      the request's context is never nil, so building fails exactly when url.Parse
      of the same string fails, with that error. */
  function NewHeadRequest(rawUrl: string, parse: string -> UrlParse): (err: Option<string>)
    ensures err.Some? <==> parse(rawUrl).ParseError?
  {
    match parse(rawUrl)
    case ParseError(e) => Some(e)
    case Parsed(_) => None
  }

  /** Once analyzeFile has parsed a URL, building its HEAD request cannot fail. */
  lemma HeadRequestAfterParse(rawUrl: string, parse: string -> UrlParse)
    requires parse(rawUrl).Parsed?
    ensures NewHeadRequest(rawUrl, parse) == None
  {
  }

  /** url.Parse is a function of its input, so once analyzeFile has parsed a URL,
      getFileNameFromURL's error branch cannot be taken for it. */
  lemma FileNameAfterParse(rawUrl: string, parse: string -> UrlParse)
    requires parse(rawUrl).Parsed?
    ensures FileNameFromUrl(rawUrl, parse) == Success(Paths.Base(parse(rawUrl).path))
  {
  }

  /** The extension analyzeFile settles on: path.Ext of the URL path; when that is
      empty, ".<subtype>" of a Content-Type that splits on '/' into exactly two parts. */
  function DerivedExtension(pathExt: string, contentType: string): string
  {
    var parts := Paths.Split(contentType, '/');
    if pathExt == "" && contentType != "" && |parts| == 2 then "." + parts[1] else pathExt
  }

  /** The Content-Type fallback applies exactly when the type holds one '/', and then
      gives '.' followed by what comes after that slash. */
  lemma {:induction false} ContentTypeFallback(contentType: string)
    ensures DerivedExtension("", contentType) != "" <==> Paths.Count(contentType, '/') == 1
    ensures Paths.Count(contentType, '/') == 1 ==>
      DerivedExtension("", contentType) == "." + Paths.LastElement(contentType)
  {
    var parts := Paths.Split(contentType, '/');
    Paths.SplitThenJoin(contentType, '/');
    if |parts| == 2 {
      assert Paths.JoinWith(parts, '/') == parts[0] + "/" + parts[1] by {
        assert parts[1..] == [parts[1]];
      }
      assert '/' !in parts[1];
      Paths.LastElementAfterSlash(parts[0], parts[1]);
    }
  }

  /** A Content-Type "<type>/<subtype>" gives ".<subtype>" when the path has no
      extension, and never overrides an extension the path already has. */
  lemma {:induction false} ContentTypeSubtype(pathExt: string, mediaType: string, subtype: string)
    requires '/' !in mediaType && '/' !in subtype
    ensures DerivedExtension(pathExt, mediaType + "/" + subtype) == if pathExt == "" then "." + subtype else pathExt
  {
    Paths.SplitWithoutSep(mediaType, '/');
    Paths.SplitWithoutSep(subtype, '/');
    Paths.SplitAround(mediaType, subtype, '/');
  }

  /** A Content-Type with two slashes, or none at all, gives no extension. */
  lemma ContentTypeWithoutSubtype()
    ensures DerivedExtension("", "a/b/c") == ""
    ensures DerivedExtension("", "") == ""
  {
    assert |Paths.Split("a/b/c", '/')| == 3 by {
      Paths.SplitWithoutSep("a", '/');
      Paths.SplitWithoutSep("b", '/');
      Paths.SplitWithoutSep("c", '/');
      Paths.SplitAround("b", "c", '/');
      assert "b/c" == "b" + "/" + "c";
      Paths.SplitAround("a", "b/c", '/');
      assert "a/b/c" == "a" + "/" + "b/c";
    }
  }

  /** The Error texts analyzeFile writes, one per failing step (fmt's %v of an error
      is its Error() text). */
  function InvalidUrlMessage(fileUrl: string, e: string): (message: string)
    ensures message != ""
  {
    "Invalid URL " + fileUrl + ": " + e
  }

  function RequestBuildMessage(fileUrl: string, e: string): (message: string)
    ensures message != ""
  {
    "Failed to create HEAD request URL: " + fileUrl + ", error : " + e
  }

  function RequestSendMessage(fileUrl: string, e: string): (message: string)
    ensures message != ""
  {
    "Failed to execute HEAD request URL: " + fileUrl + ", error : " + e
  }

  function ContentLengthMessage(fileUrl: string, length: string, e: Decimal.NumError): (message: string)
    ensures message != ""
  {
    "error parsing content length, fileURL: " + fileUrl + ", error: " + Decimal.ErrorText(length, e)
  }

  /** Each failing step leaves its own Error text: no two steps' texts are equal. */
  lemma ErrorNamesStep(u1: string, e1: string, u2: string, e2: string, length: string, n: Decimal.NumError)
    ensures InvalidUrlMessage(u1, e1) != RequestBuildMessage(u2, e2)
    ensures InvalidUrlMessage(u1, e1) != RequestSendMessage(u2, e2)
    ensures InvalidUrlMessage(u1, e1) != ContentLengthMessage(u2, length, n)
    ensures RequestBuildMessage(u1, e1) != RequestSendMessage(u2, e2)
    ensures RequestBuildMessage(u1, e1) != ContentLengthMessage(u2, length, n)
    ensures RequestSendMessage(u1, e1) != ContentLengthMessage(u2, length, n)
  {
    assert InvalidUrlMessage(u1, e1)[0] == 'I';
    assert RequestBuildMessage(u1, e1)[0] == 'F' && RequestBuildMessage(u1, e1)[10] == 'c';
    assert RequestSendMessage(u2, e2)[0] == 'F' && RequestSendMessage(u2, e2)[10] == 'e';
    assert RequestSendMessage(u1, e1)[0] == 'F';
    assert RequestBuildMessage(u2, e2)[0] == 'F';
    assert ContentLengthMessage(u2, length, n)[0] == 'e';
  }

  /** The result of analyzeFile and the audit rows it writes. */
  datatype Probe = Probe(info: FileInfo, effects: seq<Effect>)

  /** analyzeFile, stated per outcome. Each early return leaves the later fields unset.
      The stages below follow the order in which the code fills the record. */
  function Analyzed(ctx: Context, fileUrl: string, requestUuid: string): (p: Probe)
    ensures p.info.requestUuid == requestUuid
    ensures p.effects == [] <==> ctx.env.parse(fileUrl).ParseError?
    ensures |p.effects| <= 2
  {
    var blank := EmptyFileInfo.(requestUuid := requestUuid);
    match ctx.env.parse(fileUrl)
    case ParseError(e) => Probe(blank.(error := InvalidUrlMessage(fileUrl, e)), [])
    case Parsed(path) =>
      var rest := Requested(ctx, fileUrl, path, blank.(fileExtension := Paths.Ext(path)));
      Probe(rest.info, [Audit(ProcessorEvent(ctx.traceId, C.ANALYZE_FILE_STARTED, C.IN_PROGRESS, fileUrl))] + rest.effects)
  }

  /** From the HEAD request on, with the audit rows written after ANALYZE_FILE_STARTED. */
  function Requested(ctx: Context, fileUrl: string, path: string, info: FileInfo): (p: Probe)
    ensures p.info.requestUuid == info.requestUuid
    ensures p.effects != [] ==> ctx.env.head(fileUrl).Headers?
    ensures |p.effects| <= 1
  {
    match NewHeadRequest(fileUrl, ctx.env.parse)
    case Some(e) => Probe(info.(error := RequestBuildMessage(fileUrl, e)), [])
    case None =>
      match ctx.env.head(fileUrl)
      case DoFailed(e) => Probe(info.(error := RequestSendMessage(fileUrl, e)), [])
      case Headers(length, ranges, contentType) =>
        Measured(ctx, fileUrl, info.(rangeSupported := ranges == C.BYTES, fileName := Paths.Base(path)),
                 length, contentType)
  }

  /** From the Content-Length conversion on. */
  function Measured(ctx: Context, fileUrl: string, info: FileInfo, length: string, contentType: string): (p: Probe)
    ensures p.info.requestUuid == info.requestUuid
    ensures p.effects != [] <==> Decimal.ParseInt(length).Success?
    ensures |p.effects| <= 1
  {
    match Decimal.ParseInt(length)
    case Failure(e) => Probe(info.(error := ContentLengthMessage(fileUrl, length, e)), [])
    case Success(n) =>
      var sized := info.(fileSizeValue := Some(n), fileSizeBytes := length, contentType := contentType,
                         traceId := ctx.traceId, fileUrl := fileUrl);
      Probe(sized.(fileExtension := DerivedExtension(sized.fileExtension, contentType)),
            [Audit(ProcessorEvent(ctx.traceId, C.ANALYZE_FILE_COMPLETED, C.IN_PROGRESS, fileUrl))])
  }

  /** A URL that does not parse gives a FileInfo with only RequestUUID and Error set,
      and writes no audit row. */
  lemma AnalyzedInvalidUrl(ctx: Context, fileUrl: string, requestUuid: string)
    requires ctx.env.parse(fileUrl).ParseError?
    ensures Analyzed(ctx, fileUrl, requestUuid)
         == Probe(EmptyFileInfo.(requestUuid := requestUuid,
                                 error := InvalidUrlMessage(fileUrl, ctx.env.parse(fileUrl).message)), [])
  {
  }

  /** Error stays empty exactly when every step succeeded, and ANALYZE_FILE_COMPLETED
      is written exactly then, after ANALYZE_FILE_STARTED. */
  lemma AnalyzedCompletesIffNoError(ctx: Context, fileUrl: string, requestUuid: string)
    ensures var p := Analyzed(ctx, fileUrl, requestUuid);
      var completed := Audit(ProcessorEvent(ctx.traceId, C.ANALYZE_FILE_COMPLETED, C.IN_PROGRESS, fileUrl));
      && (p.info.error == "" <==> completed in p.effects)
      && (p.info.error == "" ==>
            p.effects == [Audit(ProcessorEvent(ctx.traceId, C.ANALYZE_FILE_STARTED, C.IN_PROGRESS, fileUrl)), completed])
      && JobRuns(p.effects) == 0
  {
    var p := Analyzed(ctx, fileUrl, requestUuid);
    match ctx.env.parse(fileUrl)
    case ParseError(_) =>
    case Parsed(path) =>
      var started := [Audit(ProcessorEvent(ctx.traceId, C.ANALYZE_FILE_STARTED, C.IN_PROGRESS, fileUrl))];
      var completed := [Audit(ProcessorEvent(ctx.traceId, C.ANALYZE_FILE_COMPLETED, C.IN_PROGRESS, fileUrl))];
      assert JobRuns(started) == 0;
      var info := EmptyFileInfo.(requestUuid := requestUuid, fileExtension := Paths.Ext(path));
      var rest := Requested(ctx, fileUrl, path, info);
      assert p == Probe(rest.info, started + rest.effects);
      RequestedCompletes(ctx, fileUrl, path, info);
      if rest.info.error == "" {
        JobRunsAppend(started, completed);
      } else {
        assert p.effects == started;
      }
  }

  /** After ANALYZE_FILE_STARTED: ANALYZE_FILE_COMPLETED alone when Error stays empty,
      no row otherwise. */
  lemma RequestedCompletes(ctx: Context, fileUrl: string, path: string, info: FileInfo)
    requires ctx.env.parse(fileUrl).Parsed? && info.error == ""
    ensures var rest := Requested(ctx, fileUrl, path, info);
      && (rest.info.error == "" ==>
            rest.effects == [Audit(ProcessorEvent(ctx.traceId, C.ANALYZE_FILE_COMPLETED, C.IN_PROGRESS, fileUrl))])
      && (rest.info.error != "" ==> rest.effects == [])
  {
    var rest := Requested(ctx, fileUrl, path, info);
    HeadRequestAfterParse(fileUrl, ctx.env.parse);
    match ctx.env.head(fileUrl)
    case DoFailed(_) =>
      assert rest.info.error != "" && rest.effects == [];
    case Headers(length, ranges, contentType) =>
      var probed := info.(rangeSupported := ranges == C.BYTES, fileName := Paths.Base(path));
      assert rest == Measured(ctx, fileUrl, probed, length, contentType);
  }

  /** A successful probe: RangeSupported iff Accept-Ranges is "bytes", FileSizeBytes is
      the raw Content-Length and its value what that literal denotes, FIleUrl is the
      input URL, TraceId the processor's, FileName path.Base of the URL path, and the
      extension path.Ext or the Content-Type fallback. Success needs Content-Length to be
      a decimal literal inside int64. */
  lemma AnalyzedSuccess(ctx: Context, fileUrl: string, requestUuid: string)
    requires ctx.env.parse(fileUrl).Parsed? && ctx.env.head(fileUrl).Headers?
    ensures var path := ctx.env.parse(fileUrl).path;
      var h := ctx.env.head(fileUrl);
      var info := Analyzed(ctx, fileUrl, requestUuid).info;
      && (info.error == "" <==>
            Decimal.IsDecimalLiteral(h.contentLength)
            && Decimal.MinInt64 <= Decimal.LiteralValue(h.contentLength) <= Decimal.MaxInt64)
      && (info.error == "" ==>
            && info.rangeSupported == (h.acceptRanges == C.BYTES)
            && info.fileSizeBytes == h.contentLength
            && info.fileSizeValue == Some(Decimal.LiteralValue(h.contentLength))
            && info.fileUrl == fileUrl
            && info.traceId == ctx.traceId
            && info.fileName == Paths.Base(path)
            && info.contentType == h.contentType
            && info.fileExtension == DerivedExtension(Paths.Ext(path), h.contentType)
            && info.requestUuid == requestUuid)
  {
    var path := ctx.env.parse(fileUrl).path;
    var h := ctx.env.head(fileUrl);
    var probed := EmptyFileInfo.(requestUuid := requestUuid, fileExtension := Paths.Ext(path),
                                 rangeSupported := h.acceptRanges == C.BYTES, fileName := Paths.Base(path));
    assert Analyzed(ctx, fileUrl, requestUuid).info == Measured(ctx, fileUrl, probed, h.contentLength, h.contentType).info;
    Decimal.ParseIntMeaning(h.contentLength);
  }

  /** A Content-Length that ParseInt rejects (not a literal, or outside int64) sets
      Error after FileName and RangeSupported, keeps the path's extension without the
      Content-Type fallback, and leaves size, URL, trace id and content type unset. */
  lemma AnalyzedBadContentLength(ctx: Context, fileUrl: string, requestUuid: string)
    requires ctx.env.parse(fileUrl).Parsed? && ctx.env.head(fileUrl).Headers?
    requires Decimal.ParseInt(ctx.env.head(fileUrl).contentLength).Failure?
    ensures var info := Analyzed(ctx, fileUrl, requestUuid).info;
      && info.error != ""
      && info.fileName == Paths.Base(ctx.env.parse(fileUrl).path)
      && info.rangeSupported == (ctx.env.head(fileUrl).acceptRanges == C.BYTES)
      && info.fileExtension == Paths.Ext(ctx.env.parse(fileUrl).path)
      && info.fileSizeBytes == "" && info.fileSizeValue == None
      && info.fileUrl == "" && info.traceId == "" && info.contentType == ""
      && info.requestUuid == requestUuid
      && Analyzed(ctx, fileUrl, requestUuid).effects
         == [Audit(ProcessorEvent(ctx.traceId, C.ANALYZE_FILE_STARTED, C.IN_PROGRESS, fileUrl))]
  {
    var path := ctx.env.parse(fileUrl).path;
    var h := ctx.env.head(fileUrl);
    var probed := EmptyFileInfo.(requestUuid := requestUuid, fileExtension := Paths.Ext(path),
                                 rangeSupported := h.acceptRanges == C.BYTES, fileName := Paths.Base(path));
    var rest := Measured(ctx, fileUrl, probed, h.contentLength, h.contentType);
    assert rest.info == probed.(error := rest.info.error) && rest.info.error != "" && rest.effects == [];
    assert Analyzed(ctx, fileUrl, requestUuid)
        == Probe(rest.info, [Audit(ProcessorEvent(ctx.traceId, C.ANALYZE_FILE_STARTED, C.IN_PROGRESS, fileUrl))] + rest.effects);
  }

  /** A HEAD request that cannot be sent leaves a FileInfo with only RequestUUID,
      FileExtension (path.Ext of the URL path) and Error set; only
      ANALYZE_FILE_STARTED is written. */
  lemma AnalyzedHeadFailure(ctx: Context, fileUrl: string, requestUuid: string)
    requires ctx.env.parse(fileUrl).Parsed? && ctx.env.head(fileUrl).DoFailed?
    ensures var p := Analyzed(ctx, fileUrl, requestUuid);
      && p.info.(error := "") == EmptyFileInfo.(requestUuid := requestUuid,
                                                 fileExtension := Paths.Ext(ctx.env.parse(fileUrl).path))
      && p.info.error == RequestSendMessage(fileUrl, ctx.env.head(fileUrl).cause)
      && p.info.error != ""
      && p.effects == [Audit(ProcessorEvent(ctx.traceId, C.ANALYZE_FILE_STARTED, C.IN_PROGRESS, fileUrl))]
  {
  }

  // ---------------------------------------------------------------------------
  // AnalyzeFileUrls

  /** One iteration of the loop of AnalyzeFileUrls. The probe's own error does not stop
      the dedup check or decideCompute. */
  function Processed(ctx: Context, fileUrl: string, requestUuid: string): (p: Probe)
    ensures p.info.requestUuid == requestUuid
    ensures Analyzed(ctx, fileUrl, requestUuid).effects <= p.effects
  {
    Settled(ctx, fileUrl, requestUuid, Analyzed(ctx, fileUrl, requestUuid))
  }

  /** What the loop body does after analyzeFile returned probe. */
  function Settled(ctx: Context, fileUrl: string, requestUuid: string, probe: Probe): (p: Probe)
    ensures p.info.requestUuid == probe.info.requestUuid
    ensures probe.effects <= p.effects && |p.effects| <= |probe.effects| + 3
  {
    var check := Gcs.CheckAlreadyProcessed(probe.info, requestUuid, ctx.env.attrs);
    match check.1
    case Some(e) =>
      Probe(probe.info.(error := e),
            probe.effects + [Audit(ProcessorEvent(ctx.traceId, C.FAILED_TO_CHECK_IF_FILE_EXISTS, C.FAILED, fileUrl))])
    case None =>
      if check.0 then probe
      else
        var d := Dispatched(ctx, probe.info);
        match d.err
        case Some(e) =>
          Probe(probe.info.(error := e),
                probe.effects + d.effects
                + [Audit(ProcessorEvent(ctx.traceId, C.FAILED_TRIGGER_CLOUD_RUN_JOB, C.FAILED, fileUrl))])
        case None => Probe(probe.info, probe.effects + d.effects)
  }

  /** The three rules of the loop body: a failed dedup check sets Error to its message,
      logs FAILED_TO_CHECK_IF_FILE_EXISTS and runs no job; a processed file is left as
      probed; otherwise decideCompute runs and its error, if any, overwrites Error and
      logs FAILED_TRIGGER_CLOUD_RUN_JOB. At most one job runs per URL, and one does
      exactly when the check passed, the file is new and its extension is routed. */
  lemma ProcessedRules(ctx: Context, fileUrl: string, requestUuid: string)
    ensures var probe := Analyzed(ctx, fileUrl, requestUuid);
      var check := Gcs.CheckAlreadyProcessed(probe.info, requestUuid, ctx.env.attrs);
      var p := Processed(ctx, fileUrl, requestUuid);
      && (check.1.Some? ==>
            && p.info == probe.info.(error := check.1.value)
            && p.effects == probe.effects
                 + [Audit(ProcessorEvent(ctx.traceId, C.FAILED_TO_CHECK_IF_FILE_EXISTS, C.FAILED, fileUrl))])
      && (check.1.None? && check.0 ==> p == probe)
      && (check.1.None? && !check.0 && Dispatched(ctx, probe.info).err.Some? ==>
            && p.info == probe.info.(error := Dispatched(ctx, probe.info).err.value)
            && p.effects[|p.effects| - 1]
                 == Audit(ProcessorEvent(ctx.traceId, C.FAILED_TRIGGER_CLOUD_RUN_JOB, C.FAILED, fileUrl)))
      && JobRuns(p.effects) <= 1
      && (JobRuns(p.effects) == 1 <==>
            check.1.None? && !check.0 && probe.info.fileExtension in RoutedExtensions)
  {
    AnalyzedCompletesIffNoError(ctx, fileUrl, requestUuid);
    SettledRules(ctx, fileUrl, requestUuid, Analyzed(ctx, fileUrl, requestUuid));
  }

  /** ProcessedRules for any probe that ran no job. */
  lemma SettledRules(ctx: Context, fileUrl: string, requestUuid: string, probe: Probe)
    requires JobRuns(probe.effects) == 0
    ensures var check := Gcs.CheckAlreadyProcessed(probe.info, requestUuid, ctx.env.attrs);
      var p := Settled(ctx, fileUrl, requestUuid, probe);
      && (check.1.Some? ==>
            && p.info == probe.info.(error := check.1.value)
            && p.effects == probe.effects
                 + [Audit(ProcessorEvent(ctx.traceId, C.FAILED_TO_CHECK_IF_FILE_EXISTS, C.FAILED, fileUrl))])
      && (check.1.None? && check.0 ==> p == probe)
      && (check.1.None? && !check.0 && Dispatched(ctx, probe.info).err.Some? ==>
            && p.info == probe.info.(error := Dispatched(ctx, probe.info).err.value)
            && p.effects[|p.effects| - 1]
                 == Audit(ProcessorEvent(ctx.traceId, C.FAILED_TRIGGER_CLOUD_RUN_JOB, C.FAILED, fileUrl)))
      && JobRuns(p.effects) <= 1
      && (JobRuns(p.effects) == 1 <==>
            check.1.None? && !check.0 && probe.info.fileExtension in RoutedExtensions)
  {
    var check := Gcs.CheckAlreadyProcessed(probe.info, requestUuid, ctx.env.attrs);
    var d := Dispatched(ctx, probe.info);
    if check.1.Some? {
      var failedCheck := [Audit(ProcessorEvent(ctx.traceId, C.FAILED_TO_CHECK_IF_FILE_EXISTS, C.FAILED, fileUrl))];
      assert failedCheck[1..] == [] && JobRuns(failedCheck) == 0;
      JobRunsAppend(probe.effects, failedCheck);
    } else if !check.0 {
      DecideRoutes(probe.info);
      DispatchedShape(ctx, probe.info);
      JobRunsAppend(probe.effects, d.effects);
      if d.err.Some? {
        var failedTrigger := [Audit(ProcessorEvent(ctx.traceId, C.FAILED_TRIGGER_CLOUD_RUN_JOB, C.FAILED, fileUrl))];
        assert failedTrigger[1..] == [] && JobRuns(failedTrigger) == 0;
        JobRunsAppend(probe.effects + d.effects, failedTrigger);
      }
    }
  }

  lemma AppendAssoc<T>(a: seq<T>, b: seq<T>, c: seq<T>)
    ensures (a + b) + c == a + (b + c)
  {
  }

  /** The audit rows a Processor writes. */
  const ProcessorEventNames: set<string> :=
    {C.ANALYZE_FILE_STARTED, C.ANALYZE_FILE_COMPLETED, C.TRIGGER_CLOUD_RUN_JOB,
     C.FAILED_TO_CHECK_IF_FILE_EXISTS, C.FAILED_TRIGGER_CLOUD_RUN_JOB}

  /** An effect a Processor can produce: a RunJob call or one of its own audit rows. */
  predicate OwnEffect(e: Effect)
  {
    e.Audit? ==> e.event.event in ProcessorEventNames
  }

  predicate OwnEffects(effects: seq<Effect>)
  {
    forall e :: e in effects ==> OwnEffect(e)
  }

  /** analyzeFile writes only its STARTED and COMPLETED rows. */
  lemma AnalyzedOwnEffects(ctx: Context, fileUrl: string, requestUuid: string)
    ensures OwnEffects(Analyzed(ctx, fileUrl, requestUuid).effects)
  {
    match ctx.env.parse(fileUrl)
    case ParseError(_) =>
    case Parsed(path) =>
      var info := EmptyFileInfo.(requestUuid := requestUuid, fileExtension := Paths.Ext(path));
      var rest := Requested(ctx, fileUrl, path, info);
      assert OwnEffects(rest.effects) by {
        HeadRequestAfterParse(fileUrl, ctx.env.parse);
        match ctx.env.head(fileUrl)
        case DoFailed(_) =>
          assert rest.effects == [];
        case Headers(length, ranges, contentType) =>
          var probed := info.(rangeSupported := ranges == C.BYTES, fileName := Paths.Base(path));
          assert rest == Measured(ctx, fileUrl, probed, length, contentType);
      }
  }

  /** The loop body adds only decideCompute's effects and its own failure rows. */
  lemma SettledOwnEffects(ctx: Context, fileUrl: string, requestUuid: string, probe: Probe)
    requires OwnEffects(probe.effects)
    ensures OwnEffects(Settled(ctx, fileUrl, requestUuid, probe).effects)
  {
    DispatchedShape(ctx, probe.info);
  }

  /** The results and effects of AnalyzeFileUrls over urls, in input order. */
  datatype Batch = Batch(infos: seq<FileInfo>, effects: seq<Effect>)

  function Batched(ctx: Context, urls: seq<string>, requestUuid: string): (b: Batch)
    ensures forall k :: 0 <= k < |b.infos| ==> b.infos[k].requestUuid == requestUuid
    decreases |urls|
  {
    if urls == [] then Batch([], [])
    else
      var before := Batched(ctx, urls[..|urls| - 1], requestUuid);
      var last := Processed(ctx, urls[|urls| - 1], requestUuid);
      Batch(before.infos + [last.info], before.effects + last.effects)
  }

  /** Batched over urls + [u] is Batched over urls followed by u's own iteration. */
  lemma BatchedSnoc(ctx: Context, urls: seq<string>, u: string, requestUuid: string)
    ensures Batched(ctx, urls + [u], requestUuid)
         == Batch(Batched(ctx, urls, requestUuid).infos + [Processed(ctx, u, requestUuid).info],
                  Batched(ctx, urls, requestUuid).effects + Processed(ctx, u, requestUuid).effects)
  {
    assert (urls + [u])[..|urls + [u]| - 1] == urls;
  }

  /** The prefix form of BatchedSnoc, as the loop of AnalyzeFileUrls grows it. */
  lemma BatchedPrefix(ctx: Context, urls: seq<string>, i: nat, requestUuid: string)
    requires i < |urls|
    ensures Batched(ctx, urls[..i + 1], requestUuid)
         == Batch(Batched(ctx, urls[..i], requestUuid).infos + [Processed(ctx, urls[i], requestUuid).info],
                  Batched(ctx, urls[..i], requestUuid).effects + Processed(ctx, urls[i], requestUuid).effects)
  {
    assert urls[..i + 1][..i] == urls[..i];
  }

  /** AnalyzeFileUrls writes only the processor's own audit rows and RunJob calls. */
  lemma {:induction false} BatchedOwnEffects(ctx: Context, urls: seq<string>, requestUuid: string)
    ensures OwnEffects(Batched(ctx, urls, requestUuid).effects)
    decreases |urls|
  {
    if urls != [] {
      var u := urls[|urls| - 1];
      BatchedOwnEffects(ctx, urls[..|urls| - 1], requestUuid);
      AnalyzedOwnEffects(ctx, u, requestUuid);
      SettledOwnEffects(ctx, u, requestUuid, Analyzed(ctx, u, requestUuid));
    }
  }

  /** One result per URL, in input order: result k is what URL k alone gives, whatever
      happened to the URLs before it. */
  lemma {:induction false} BatchedAt(ctx: Context, urls: seq<string>, requestUuid: string, k: nat)
    requires k < |urls|
    ensures |Batched(ctx, urls, requestUuid).infos| == |urls|
    ensures Batched(ctx, urls, requestUuid).infos[k] == Processed(ctx, urls[k], requestUuid).info
  {
    BatchedLength(ctx, urls, requestUuid);
    if k < |urls| - 1 {
      var init := urls[..|urls| - 1];
      BatchedAt(ctx, init, requestUuid, k);
      BatchedLength(ctx, init, requestUuid);
      assert init[k] == urls[k];
    }
  }

  lemma {:induction false} BatchedLength(ctx: Context, urls: seq<string>, requestUuid: string)
    ensures |Batched(ctx, urls, requestUuid).infos| == |urls|
    decreases |urls|
  {
    if urls != [] {
      BatchedLength(ctx, urls[..|urls| - 1], requestUuid);
    }
  }

  /** A batch is its two halves processed one after the other: no URL's failure stops
      or changes the processing of the URLs after it. */
  lemma {:induction false} BatchedSplit(ctx: Context, a: seq<string>, b: seq<string>, requestUuid: string)
    ensures Batched(ctx, a + b, requestUuid).infos
         == Batched(ctx, a, requestUuid).infos + Batched(ctx, b, requestUuid).infos
    ensures Batched(ctx, a + b, requestUuid).effects
         == Batched(ctx, a, requestUuid).effects + Batched(ctx, b, requestUuid).effects
    decreases |b|
  {
    if b == [] {
      assert a + b == a;
    } else {
      var init, last := b[..|b| - 1], b[|b| - 1];
      assert b == init + [last];
      assert a + b == (a + init) + [last];
      BatchedSplit(ctx, a, init, requestUuid);
      BatchedSnoc(ctx, a + init, last, requestUuid);
      BatchedSnoc(ctx, init, last, requestUuid);
      var front, back := Batched(ctx, a, requestUuid), Batched(ctx, init, requestUuid);
      var p := Processed(ctx, last, requestUuid);
      AppendAssoc(front.infos, back.infos, [p.info]);
      AppendAssoc(front.effects, back.effects, p.effects);
    }
  }

  lemma JsonPath()
    ensures Paths.Ext("/a.json") == C.JSON
  {
    Paths.ExtOfSuffix("/a", ".json");
    assert "/a" + ".json" == "/a.json";
  }

  /** The code does not short-circuit on a probe error: a .json URL whose HEAD request
      cannot be sent still reaches decideCompute, which starts the file streamer with
      empty trace id, URL and size. */
  lemma ErroredProbeStillTriggers(ctx: Context, requestUuid: string)
    requires ctx.env.parse("https://h/a.json") == Parsed("/a.json")
    requires ctx.env.head("https://h/a.json") == DoFailed("timeout")
    requires ctx.env.attrs(C.HARDCODED_BUCKET_NAME, Gcs.ObjectPath(requestUuid, "")) == Gcs.ObjectNotExist
    requires ctx.env.runJob(Compute.NewRunJobRequest(ctx.projectId, ctx.region, C.CLOUD_RUN_JOB_NAME,
                                                     ["", "", "", requestUuid])) == None
    ensures var p := Processed(ctx, "https://h/a.json", requestUuid);
      && p.info.error == RequestSendMessage("https://h/a.json", "timeout")
      && JobRun(Compute.NewRunJobRequest(ctx.projectId, ctx.region, C.CLOUD_RUN_JOB_NAME, ["", "", "", requestUuid]))
           in p.effects
  {
    var url := "https://h/a.json";
    var info := EmptyFileInfo.(requestUuid := requestUuid, fileExtension := C.JSON,
                               error := RequestSendMessage(url, "timeout"));
    var probe := Analyzed(ctx, url, requestUuid);
    assert probe.info == info by {
      JsonPath();
    }
    assert Gcs.CheckAlreadyProcessed(info, requestUuid, ctx.env.attrs) == (false, None);
    var request := Compute.NewRunJobRequest(ctx.projectId, ctx.region, C.CLOUD_RUN_JOB_NAME, ["", "", "", requestUuid]);
    var d := Dispatched(ctx, info);
    assert JobRun(request) in d.effects by {
      DispatchedShape(ctx, info);
    }
    assert Processed(ctx, url, requestUuid) == Probe(info, probe.effects + d.effects);
  }

  lemma ZipPath()
    ensures Paths.Ext("/a.zip") == C.ZIP && Paths.Base("/a.zip") == "a.zip"
  {
    Paths.ExtOfSuffix("/a", ".zip");
    assert "/a" + ".zip" == "/a.zip";
    Paths.BaseUnderDirectory("", "a.zip", 0);
    assert "" + "/" + "a.zip" + seq(0, _ => '/') == "/a.zip";
  }

  /** A .zip URL with a good probe and no processed copy: exactly one RunJob, of the
      zip downloader, with [trace id, URL, file name], and no error. */
  lemma ZipScenario(ctx: Context, requestUuid: string)
    requires ctx.env.parse("https://h/a.zip") == Parsed("/a.zip")
    requires ctx.env.head("https://h/a.zip") == Headers("500000000", "bytes", "application/zip")
    requires ctx.env.attrs(C.HARDCODED_BUCKET_NAME, Gcs.ObjectPath(requestUuid, "a.zip")) == Gcs.ObjectNotExist
    requires ctx.env.runJob(Compute.NewRunJobRequest(ctx.projectId, ctx.region, C.ZIP_DOWNLOADER_JOB_NAME,
                                                     [ctx.traceId, "https://h/a.zip", "a.zip"])) == None
    ensures var p := Processed(ctx, "https://h/a.zip", requestUuid);
      && p.info.error == ""
      && p.info.fileSizeValue == Some(500000000)
      && JobRuns(p.effects) == 1
      && JobRun(Compute.NewRunJobRequest(ctx.projectId, ctx.region, C.ZIP_DOWNLOADER_JOB_NAME,
                                         [ctx.traceId, "https://h/a.zip", "a.zip"])) in p.effects
  {
    var url := "https://h/a.zip";
    var info := FileInfo(ctx.traceId, url, "a.zip", true, C.ZIP, Some(500000000), "500000000",
                         "application/zip", requestUuid, "");
    var probe := Analyzed(ctx, url, requestUuid);
    assert probe.info == info by {
      ZipPath();
      Decimal.ParseIntExamples();
    }
    assert Gcs.CheckAlreadyProcessed(info, requestUuid, ctx.env.attrs) == (false, None);
    var request := Compute.NewRunJobRequest(ctx.projectId, ctx.region, C.ZIP_DOWNLOADER_JOB_NAME, [ctx.traceId, url, "a.zip"]);
    var d := Dispatched(ctx, info);
    assert d.err == None && JobRun(request) in d.effects && JobRuns(d.effects) == 1 by {
      DispatchedShape(ctx, info);
    }
    assert Processed(ctx, url, requestUuid) == Probe(info, probe.effects + d.effects);
    AnalyzedCompletesIffNoError(ctx, url, requestUuid);
    JobRunsAppend(probe.effects, d.effects);
  }

  // ---------------------------------------------------------------------------
  // The Processor object

  class Processor {
    const traceId: string
    const fileUrl: seq<string>
    const projectId: string
    const projectRegion: string
    const jobName: string
    const env: Oracles
    /** Every audit row written and every RunJob call made, in order. */
    ghost var trace: seq<Effect>

    function Ctx(): Context
    {
      Context(traceId, projectId, projectRegion, env)
    }

    /** NewProcessor. fileUrl and jobName are stored and never read. */
    constructor (traceId: string, fileUrl: seq<string>, projectId: string, region: string,
                 jobName: string, env: Oracles)
      ensures this.traceId == traceId && this.fileUrl == fileUrl && this.projectId == projectId
      ensures this.projectRegion == region && this.jobName == jobName
      ensures Ctx() == Context(traceId, projectId, region, env)
      ensures trace == []
    {
      this.traceId := traceId;
      this.fileUrl := fileUrl;
      this.projectId := projectId;
      this.projectRegion := region;
      this.jobName := jobName;
      this.env := env;
      trace := [];
    }

    /** client.LogAuditData: appends one row; it always returns nil. */
    method LogAuditData(event: AuditEvent)
      modifies this
      ensures trace == old(trace) + [Audit(event)]
    {
      trace := trace + [Audit(event)];
    }

    /** compute.TriggerFileStreamerJob against this processor's project and region. */
    method TriggerFileStreamerJob(job: string, args: seq<string>) returns (err: Option<string>)
      modifies this
      ensures trace == old(trace) + [JobRun(Compute.NewRunJobRequest(projectId, projectRegion, job, args))]
      ensures err == env.runJob(Compute.NewRunJobRequest(projectId, projectRegion, job, args))
    {
      trace := trace + [JobRun(Compute.NewRunJobRequest(projectId, projectRegion, job, args))];
      err := Compute.TriggerFileStreamerJob(projectId, projectRegion, job, args, env.runJob);
    }

    /** decideCompute. */
    method DecideCompute(request: FileInfo) returns (err: Option<string>)
      modifies this
      ensures trace == old(trace) + Dispatched(Ctx(), request).effects
      ensures err == Dispatched(Ctx(), request).err
    {
      var ext := request.fileExtension;
      if ext == C.JSON {
        LogAuditData(ProcessorEvent(traceId, C.TRIGGER_CLOUD_RUN_JOB, C.IN_PROGRESS, request.fileUrl));
        var args := [request.traceId, request.fileUrl, request.fileSizeBytes, request.requestUuid];
        err := TriggerFileStreamerJob(C.CLOUD_RUN_JOB_NAME, args);
      } else if ext == C.GZ {
        LogAuditData(ProcessorEvent(traceId, C.TRIGGER_CLOUD_RUN_JOB, C.IN_PROGRESS, request.fileUrl));
        var args := [request.traceId, request.fileUrl, request.fileSizeBytes, request.requestUuid];
        err := TriggerFileStreamerJob(C.GZ_JOB_NAME, args);
      } else if ext == C.ZIP {
        LogAuditData(ProcessorEvent(traceId, C.TRIGGER_CLOUD_RUN_JOB, C.IN_PROGRESS, request.fileUrl));
        var args := [request.traceId, request.fileUrl, request.fileName];
        err := TriggerFileStreamerJob(C.ZIP_DOWNLOADER_JOB_NAME, args);
      } else {
        err := None;
      }
    }

    /** analyzeFile: fills info field by field, returning at the first failure. */
    method AnalyzeFile(fileUrl: string, requestUuid: string) returns (info: FileInfo)
      modifies this
      ensures info == Analyzed(Ctx(), fileUrl, requestUuid).info
      ensures trace == old(trace) + Analyzed(Ctx(), fileUrl, requestUuid).effects
    {
      info := EmptyFileInfo;
      info := info.(requestUuid := requestUuid);

      var parsedUrl := env.parse(fileUrl);
      if parsedUrl.ParseError? {
        info := info.(error := InvalidUrlMessage(fileUrl, parsedUrl.message));
        return;
      }
      LogAuditData(ProcessorEvent(traceId, C.ANALYZE_FILE_STARTED, C.IN_PROGRESS, fileUrl));
      ghost var started := trace;

      info := info.(fileExtension := Paths.Ext(parsedUrl.path));
      ghost var rest := Requested(Ctx(), fileUrl, parsedUrl.path, info);

      var buildErr := NewHeadRequest(fileUrl, env.parse);
      HeadRequestAfterParse(fileUrl, env.parse);
      if buildErr.Some? {
        // the same URL parsed above, so this branch is dead
        assert false;
      }

      var resp := env.head(fileUrl);
      if resp.DoFailed? {
        info := info.(error := RequestSendMessage(fileUrl, resp.cause));
        assert info == rest.info && rest.effects == [];
        return;
      }

      var fileSize := resp.contentLength;
      var acceptRanges := resp.acceptRanges;
      if acceptRanges == C.BYTES {
        info := info.(rangeSupported := true);
      } else {
        info := info.(rangeSupported := false);
      }

      var fileName := FileNameFromUrl(fileUrl, env.parse);
      FileNameAfterParse(fileUrl, env.parse);
      if fileName.Failure? {
        // the same URL parsed above, so this branch is dead
        assert false;
      }
      info := info.(fileName := fileName.value);
      assert rest == Measured(Ctx(), fileUrl, info, fileSize, resp.contentType);

      var fileSizeConverted := Decimal.ParseInt(fileSize);
      if fileSizeConverted.Failure? {
        info := info.(error := ContentLengthMessage(fileUrl, fileSize, fileSizeConverted.error));
        assert info == rest.info && rest.effects == [];
        return;
      }

      info := info.(fileSizeValue := Some(fileSizeConverted.value));
      info := info.(fileSizeBytes := fileSize);
      info := info.(contentType := resp.contentType);
      info := info.(traceId := traceId);
      info := info.(fileUrl := fileUrl);

      if info.fileExtension == "" && info.contentType != "" {
        var parts := Paths.Split(info.contentType, '/');
        if |parts| == 2 {
          info := info.(fileExtension := "." + parts[1]);
        }
      }
      assert info == rest.info;

      LogAuditData(ProcessorEvent(traceId, C.ANALYZE_FILE_COMPLETED, C.IN_PROGRESS, fileUrl));
      assert trace == started + rest.effects;
    }

    method ProcessFileUrl(fileUrl: string, requestUuid: string) returns (fileInfo: FileInfo)
      modifies this
      ensures fileInfo == Processed(Ctx(), fileUrl, requestUuid).info
      ensures trace == old(trace) + Processed(Ctx(), fileUrl, requestUuid).effects
    {
      ghost var probe := Analyzed(Ctx(), fileUrl, requestUuid);
      fileInfo := AnalyzeFile(fileUrl, requestUuid);
      ghost var before := old(trace);
      var check := Gcs.CheckAlreadyProcessed(fileInfo, requestUuid, env.attrs);
      var isProcessed, err := check.0, check.1;
      if err.Some? {
        LogAuditData(ProcessorEvent(traceId, C.FAILED_TO_CHECK_IF_FILE_EXISTS, C.FAILED, fileUrl));
        fileInfo := fileInfo.(error := err.value);
        AppendAssoc(before, probe.effects, [Audit(ProcessorEvent(traceId, C.FAILED_TO_CHECK_IF_FILE_EXISTS, C.FAILED, fileUrl))]);
      } else if !isProcessed {
        ghost var d := Dispatched(Ctx(), probe.info);
        var triggerErr := DecideCompute(fileInfo);
        AppendAssoc(before, probe.effects, d.effects);
        if triggerErr.Some? {
          LogAuditData(ProcessorEvent(traceId, C.FAILED_TRIGGER_CLOUD_RUN_JOB, C.FAILED, fileUrl));
          fileInfo := fileInfo.(error := triggerErr.value);
          AppendAssoc(before, probe.effects + d.effects, [Audit(ProcessorEvent(traceId, C.FAILED_TRIGGER_CLOUD_RUN_JOB, C.FAILED, fileUrl))]);
        }
      }
    }

    /** AnalyzeFileUrls: probe, dedup check and decision for each URL in turn,
        collecting every FileInfo. requestUUID is the one the batch was given. */
    method AnalyzeFileUrls(fileUrls: seq<string>, requestUuid: string) returns (requests: seq<FileInfo>)
      modifies this
      ensures requests == Batched(Ctx(), fileUrls, requestUuid).infos
      ensures trace == old(trace) + Batched(Ctx(), fileUrls, requestUuid).effects
    {
      requests := [];
      var i := 0;
      assert fileUrls[..0] == [];
      while i < |fileUrls|
        invariant 0 <= i <= |fileUrls|
        invariant requests == Batched(Ctx(), fileUrls[..i], requestUuid).infos
        invariant trace == old(trace) + Batched(Ctx(), fileUrls[..i], requestUuid).effects
      {
        var fileUrl := fileUrls[i];
        ghost var settled := Processed(Ctx(), fileUrl, requestUuid);
        var fileInfo := ProcessFileUrl(fileUrl, requestUuid);
        requests := requests + [fileInfo];
        BatchedPrefix(Ctx(), fileUrls, i, requestUuid);
        ghost var done := Batched(Ctx(), fileUrls[..i], requestUuid).effects;
        AppendAssoc(old(trace), done, settled.effects);
        i := i + 1;
      }
      assert fileUrls[..i] == fileUrls;
    }
  }
}
