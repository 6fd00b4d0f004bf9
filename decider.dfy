/** main.go: AnalyzeFileHandler, the HTTP entry point.

    The request, the process environment (os.Getenv), the outcome of constructing
    each Google client and the fresh trace id (uuid.New) are inputs. The audit rows
    the handler writes and those its Processor writes share one ghost trace, in call
    order. JSON decoding and encoding are left abstract: the request body is given
    already decoded, and a successful reply carries the results it encodes. */
module Decider {
  import opened Wrappers
  import opened Model
  import C = Constants
  import Paths
  import Processor

  /** http.MethodGet. */
  const MethodGet := "GET"

  /** The body AnalyzeFileHandler writes for GET /health. */
  const HealthBody := "{\"status\":\"ok\"}"

  /** json.Unmarshal into model.RequestBody: the error text, or the two fields. A body
      without "fileUrl" decodes to an empty list. */
  datatype JsonDecode = InvalidJson(message: string) | Decoded(fileUrl: seq<string>, requestUuid: string)

  /** io.ReadAll(r.Body): the error text, or the decoded body. */
  datatype BodyRead = ReadFailed(message: string) | Read(json: JsonDecode)

  datatype Request = Request(httpMethod: string, path: string, body: BodyRead)

  /** PROJECT_ID, BUCKET_NAME and JOB_NAME from the process environment. */
  datatype Environment = Environment(projectId: string, bucketName: string, jobName: string)

  /** The error, if any, of bigquery.NewClient, compute.NewCompute and gcs.NewGCSClient. */
  datatype Clients = Clients(bigquery: Option<string>, compute: Option<string>, gcs: Option<string>)

  /** What the handler writes to the ResponseWriter: http.Error with a status and a
      text line, an explicit status and body, the JSON-encoded results under
      Content-Type application/json, or nothing at all. */
  datatype Reply =
    | ErrorReply(status: int, message: string)
    | Written(status: int, body: string)
    | Encoded(results: seq<FileInfo>)
    | Unwritten

  /** The status the client receives. net/http sends 200 for a handler that writes a
      body without a status, and for one that writes nothing. */
  function StatusOf(reply: Reply): int
  {
    match reply
    case ErrorReply(status, _) => status
    case Written(status, _) => status
    case Encoded(_) => C.StatusOK
    case Unwritten => C.StatusOK
  }

  /** The audit rows the handler writes. */
  function HandlerEvent(traceId: string, name: string, status: string, message: string, url: string): AuditEvent
  {
    AuditEvent(traceId, traceId, name, status, C.APPLICATION_NAME, "", message, url)
  }

  /** The index of the first result whose Error is set, if there is one. */
  function FirstError(results: seq<FileInfo>): (k: Option<nat>)
    ensures k.Some? ==> k.value < |results| && results[k.value].error != ""
    ensures k.Some? ==> forall j :: 0 <= j < k.value ==> results[j].error == ""
    ensures k.None? <==> forall j :: 0 <= j < |results| ==> results[j].error == ""
  {
    if results == [] then None
    else if results[0].error != "" then Some(0)
    else
      match FirstError(results[1..])
      case None => None
      case Some(j) => Some(j + 1)
  }

  datatype Outcome = Outcome(reply: Reply, effects: seq<Processor.Effect>)

  /** The Processor the handler builds reads this context. */
  function HandlerContext(env: Environment, traceId: string, oracles: Processor.Oracles): Processor.Context
  {
    Processor.Context(traceId, env.projectId, C.REGION, oracles)
  }

  /** The URL list and request UUID of a decoded body; nothing otherwise. */
  function RequestedUrls(r: Request): seq<string>
  {
    if r.body.Read? && r.body.json.Decoded? then r.body.json.fileUrl else []
  }

  function RequestedUuid(r: Request): string
  {
    if r.body.Read? && r.body.json.Decoded? then r.body.json.requestUuid else ""
  }

  /** AnalyzeFileHandler, with the processor run on the request's URL list. */
  function Handled(r: Request, env: Environment, clients: Clients, traceId: string,
                   oracles: Processor.Oracles): (o: Outcome)
    ensures o.reply.Encoded? ==>
      && ReachesProcessor(r, env, clients)
      && o.reply.results
         == Processor.Batched(HandlerContext(env, traceId, oracles), r.body.json.fileUrl, r.body.json.requestUuid).infos
      && forall j :: 0 <= j < |o.reply.results| ==> o.reply.results[j].error == ""
  {
    Respond(r, env, clients, traceId,
            Processor.Batched(HandlerContext(env, traceId, oracles), RequestedUrls(r), RequestedUuid(r)))
  }

  /** The handler's checks in order, given what AnalyzeFileUrls returns and writes
      for the request's URL list (batch is consulted only once every check passed). */
  function Respond(r: Request, env: Environment, clients: Clients, traceId: string, batch: Processor.Batch): (o: Outcome)
    ensures o.effects == [] <==>
      env.projectId == "" || (r.httpMethod == MethodGet && r.path == C.HEALTH)
      || clients.bigquery.Some? || clients.compute.Some?
    ensures o.effects != [] ==> o.effects[0] == Started(traceId)[0]
    ensures o.reply.Encoded? ==>
      && ReachesProcessor(r, env, clients)
      && o.reply.results == batch.infos
      && forall j :: 0 <= j < |batch.infos| ==> batch.infos[j].error == ""
  {
    if env.projectId == "" then Outcome(ErrorReply(C.StatusBadRequest, "project id not specified"), [])
    else if r.httpMethod == MethodGet && r.path == C.HEALTH then Outcome(Written(C.StatusOK, HealthBody), [])
    else if clients.bigquery.Some? then Outcome(ErrorReply(C.StatusBadRequest, "bigquery client creation failed"), [])
    else if clients.compute.Some? then Outcome(ErrorReply(C.StatusBadRequest, "unable to create cloud run job client"), [])
    else
      var started := Started(traceId);
      match r.body
      case ReadFailed(e) =>
        Outcome(ErrorReply(C.StatusBadRequest, "Failed to read request body"),
                started + [Processor.Audit(HandlerEvent(traceId, C.REQUEST_BODY_FAILED, C.FAILED, e, ""))])
      case Read(InvalidJson(e)) =>
        Outcome(Unwritten, started + [Processor.Audit(HandlerEvent(traceId, C.INVALID_JSON_FORMAT, C.FAILED, e, ""))])
      case Read(Decoded(urls, _)) =>
        if |urls| == 0 then
          Outcome(ErrorReply(C.StatusBadRequest, "Missing 'fileUrl' parameter"),
                  started + [Processor.Audit(HandlerEvent(traceId, C.FILE_URL_MISSING, C.FAILED, "missing fileUrl Parameter", ""))])
        else if clients.gcs.Some? then
          Outcome(ErrorReply(C.StatusInternalServerError, "error fetching file size"),
                  started + [Processor.Audit(HandlerEvent(traceId, C.ERROR_CREATING_GCS_CLIENT, C.FAILED, clients.gcs.value, ""))])
        else
          Reported(traceId, started + batch.effects, batch.infos)
  }

  /** The scan of the results: the first one with an Error is audited and answered
      with 500; with none the results are encoded and completion is audited. */
  function Reported(traceId: string, effects: seq<Processor.Effect>, results: seq<FileInfo>): (o: Outcome)
    ensures |o.effects| == |effects| + 1 && o.effects[..|effects|] == effects
    ensures o.reply.Encoded? <==> forall j :: 0 <= j < |results| ==> results[j].error == ""
    ensures o.reply.Encoded? ==> o.reply.results == results
    ensures !o.reply.Encoded? ==> o.reply == ErrorReply(C.StatusInternalServerError, "error fetching file size")
  {
    match FirstError(results)
    case Some(k) =>
      Outcome(ErrorReply(C.StatusInternalServerError, "error fetching file size"),
              effects + [Processor.Audit(HandlerEvent(traceId, C.ERROR_FETCHING_FILE_SIZE, C.FAILED,
                                                      results[k].error, results[k].fileUrl))])
    case None =>
      Outcome(Encoded(results),
              effects + [Processor.Audit(HandlerEvent(traceId, C.APPLICATION_COMPLETED_EVENT, C.COMPLETED,
                                                      "application completed", ""))])
  }

  /** The APPLICATION_STARTED row, written once the clients are built. */
  function Started(traceId: string): seq<Processor.Effect>
  {
    [Processor.Audit(HandlerEvent(traceId, C.APPLICATION_STARTED_EVENT, C.STARTED, "application started", ""))]
  }

  /** Every check passed and the processor ran. */
  predicate ReachesProcessor(r: Request, env: Environment, clients: Clients)
  {
    && env.projectId != "" && !(r.httpMethod == MethodGet && r.path == C.HEALTH)
    && clients == Clients(None, None, None)
    && r.body.Read? && r.body.json.Decoded? && r.body.json.fileUrl != []
  }

  // ---------------------------------------------------------------------------
  // Counting audit rows

  /** The number of audit rows named name among effects. */
  function EventCount(effects: seq<Processor.Effect>, name: string): nat
  {
    if effects == [] then 0
    else (if effects[0].Audit? && effects[0].event.event == name then 1 else 0) + EventCount(effects[1..], name)
  }

  lemma {:induction false} EventCountAppend(a: seq<Processor.Effect>, b: seq<Processor.Effect>, name: string)
    ensures EventCount(a + b, name) == EventCount(a, name) + EventCount(b, name)
  {
    if a == [] {
      assert a + b == b;
    } else {
      assert (a + b)[0] == a[0] && (a + b)[1..] == a[1..] + b;
      EventCountAppend(a[1..], b, name);
    }
  }

  lemma {:induction false} EventCountOfProcessorEffects(effects: seq<Processor.Effect>, name: string)
    requires Processor.OwnEffects(effects)
    requires name !in Processor.ProcessorEventNames
    ensures EventCount(effects, name) == 0
  {
    if effects != [] {
      assert effects[0] in effects;
      assert forall e :: e in effects[1..] ==> e in effects;
      EventCountOfProcessorEffects(effects[1..], name);
    }
  }

  /** A trace of audit rows only holds no RunJob call. */
  lemma {:induction false} AuditsRunNoJob(effects: seq<Processor.Effect>)
    requires forall e :: e in effects ==> e.Audit?
    ensures Processor.JobRuns(effects) == 0
  {
    if effects != [] {
      assert effects[0] in effects;
      assert forall e :: e in effects[1..] ==> e in effects;
      AuditsRunNoJob(effects[1..]);
    }
  }

  // ---------------------------------------------------------------------------
  // What the handler promises

  /** Until every check has passed, the processor's results play no part: the reply
      and the rows written are the same whatever it would return, and no job runs. */
  lemma EarlyReturnsIgnoreProcessor(r: Request, env: Environment, clients: Clients, traceId: string,
                                    b1: Processor.Batch, b2: Processor.Batch)
    requires !ReachesProcessor(r, env, clients)
    ensures Respond(r, env, clients, traceId, b1) == Respond(r, env, clients, traceId, b2)
    ensures Processor.JobRuns(Respond(r, env, clients, traceId, b1).effects) == 0
  {
    AuditsRunNoJob(Respond(r, env, clients, traceId, b1).effects);
  }

  /** With no project id the reply is 400 before anything else, /health included,
      and nothing is audited. */
  lemma ProjectIdFirst(r: Request, env: Environment, clients: Clients, traceId: string, batch: Processor.Batch)
    requires env.projectId == ""
    ensures Respond(r, env, clients, traceId, batch)
         == Outcome(ErrorReply(C.StatusBadRequest, "project id not specified"), [])
  {
  }

  /** GET /health answers 200 {"status":"ok"} before any client is built: a failing
      client construction cannot change it, and nothing is audited. */
  lemma HealthBeforeClients(r: Request, env: Environment, clients: Clients, traceId: string, batch: Processor.Batch)
    requires env.projectId != "" && r.httpMethod == MethodGet && r.path == C.HEALTH
    ensures var o := Respond(r, env, clients, traceId, batch);
      StatusOf(o.reply) == C.StatusOK && o.reply == Written(C.StatusOK, HealthBody) && o.effects == []
  {
  }

  /** A BigQuery or Cloud Run client that cannot be built gives 400 with nothing
      audited; a Storage client that cannot be built gives 500 once a URL list is
      present, after ERROR_CREATING_GCS_CLIENT. */
  lemma ClientFailures(r: Request, env: Environment, clients: Clients, traceId: string, batch: Processor.Batch)
    requires env.projectId != "" && !(r.httpMethod == MethodGet && r.path == C.HEALTH)
    ensures var o := Respond(r, env, clients, traceId, batch);
      && (clients.bigquery.Some? || clients.compute.Some? ==>
            StatusOf(o.reply) == C.StatusBadRequest && o.effects == [])
      && (clients.bigquery.None? && clients.compute.None? && clients.gcs.Some?
          && r.body.Read? && r.body.json.Decoded? && |r.body.json.fileUrl| > 0 ==>
            && o.reply == ErrorReply(C.StatusInternalServerError, "error fetching file size")
            && o.effects[|o.effects| - 1]
               == Processor.Audit(HandlerEvent(traceId, C.ERROR_CREATING_GCS_CLIENT, C.FAILED, clients.gcs.value, "")))
  {
  }

  /** Invalid JSON writes no error status: the reply is empty (an implicit 200), after
      INVALID_JSON_FORMAT is audited with the decoder's message. */
  lemma InvalidJsonWritesNothing(r: Request, env: Environment, clients: Clients, traceId: string, batch: Processor.Batch)
    requires env.projectId != "" && !(r.httpMethod == MethodGet && r.path == C.HEALTH)
    requires clients.bigquery.None? && clients.compute.None?
    requires r.body.Read? && r.body.json.InvalidJson?
    ensures var o := Respond(r, env, clients, traceId, batch);
      && o.reply == Unwritten && StatusOf(o.reply) == C.StatusOK
      && o.effects[|o.effects| - 1]
         == Processor.Audit(HandlerEvent(traceId, C.INVALID_JSON_FORMAT, C.FAILED, r.body.json.message, ""))
  {
  }

  /** An empty URL list gives 400 "Missing 'fileUrl' parameter"; the only rows are
      APPLICATION_STARTED and FILE_URL_MISSING. */
  lemma MissingFileUrl(r: Request, env: Environment, clients: Clients, traceId: string, batch: Processor.Batch)
    requires env.projectId != "" && !(r.httpMethod == MethodGet && r.path == C.HEALTH)
    requires clients.bigquery.None? && clients.compute.None?
    requires r.body.Read? && r.body.json.Decoded? && r.body.json.fileUrl == []
    ensures var o := Respond(r, env, clients, traceId, batch);
      && o.reply == ErrorReply(C.StatusBadRequest, "Missing 'fileUrl' parameter")
      && o.effects == [Processor.Audit(HandlerEvent(traceId, C.APPLICATION_STARTED_EVENT, C.STARTED, "application started", "")),
                       Processor.Audit(HandlerEvent(traceId, C.FILE_URL_MISSING, C.FAILED, "missing fileUrl Parameter", ""))]
  {
  }

  /** The scan of the results: if any has an Error the reply is 500, the results are
      not encoded, and exactly one ERROR_FETCHING_FILE_SIZE row is added, carrying the
      first erroring result's message and URL; otherwise the results are encoded and
      exactly one APPLICATION_COMPLETED row is added, as the last row. */
  lemma {:induction false} ReportedScan(traceId: string, effects: seq<Processor.Effect>, results: seq<FileInfo>)
    requires EventCount(effects, C.ERROR_FETCHING_FILE_SIZE) == 0
    requires EventCount(effects, C.APPLICATION_COMPLETED_EVENT) == 0
    ensures var o := Reported(traceId, effects, results);
      && ((exists k :: 0 <= k < |results| && results[k].error != "") ==>
            && o.reply == ErrorReply(C.StatusInternalServerError, "error fetching file size")
            && EventCount(o.effects, C.ERROR_FETCHING_FILE_SIZE) == 1
            && EventCount(o.effects, C.APPLICATION_COMPLETED_EVENT) == 0
            && o.effects[|o.effects| - 1].event.message == results[FirstError(results).value].error)
      && ((forall k :: 0 <= k < |results| ==> results[k].error == "") ==>
            && o.reply == Encoded(results)
            && EventCount(o.effects, C.APPLICATION_COMPLETED_EVENT) == 1
            && EventCount(o.effects, C.ERROR_FETCHING_FILE_SIZE) == 0
            && o.effects[|o.effects| - 1].event.event == C.APPLICATION_COMPLETED_EVENT)
  {
    var o := Reported(traceId, effects, results);
    var last := o.effects[|effects|..];
    assert o.effects == effects + last && |last| == 1;
    assert last[1..] == [];
    EventCountAppend(effects, last, C.ERROR_FETCHING_FILE_SIZE);
    EventCountAppend(effects, last, C.APPLICATION_COMPLETED_EVENT);
  }

  /** Handled is Respond on the batch the processor produces for the request. */
  lemma HandledResponds(r: Request, env: Environment, clients: Clients, traceId: string,
                        oracles: Processor.Oracles, batch: Processor.Batch)
    requires batch == Processor.Batched(HandlerContext(env, traceId, oracles), RequestedUrls(r), RequestedUuid(r))
    ensures Handled(r, env, clients, traceId, oracles) == Respond(r, env, clients, traceId, batch)
  {
  }

  /** Once every check passed, the reply is the scan of what the processor returned,
      after APPLICATION_STARTED and the processor's own rows. */
  lemma RespondAfterChecks(r: Request, env: Environment, clients: Clients, traceId: string, batch: Processor.Batch)
    requires ReachesProcessor(r, env, clients)
    ensures Respond(r, env, clients, traceId, batch)
         == Reported(traceId, Started(traceId) + batch.effects, batch.infos)
  {
  }

  /** Once the processor ran, the rows before the scan's are APPLICATION_STARTED and
      the processor's own (which BatchedOwnEffects shows of every batch), so the
      scan's counts are the counts of the whole trace. */
  lemma {:induction false} HandlerScan(r: Request, env: Environment, clients: Clients, traceId: string,
                                       batch: Processor.Batch)
    requires ReachesProcessor(r, env, clients)
    requires Processor.OwnEffects(batch.effects)
    ensures var o := Respond(r, env, clients, traceId, batch);
      && ((exists k :: 0 <= k < |batch.infos| && batch.infos[k].error != "") ==>
            && o.reply == ErrorReply(C.StatusInternalServerError, "error fetching file size")
            && EventCount(o.effects, C.ERROR_FETCHING_FILE_SIZE) == 1
            && EventCount(o.effects, C.APPLICATION_COMPLETED_EVENT) == 0
            && o.effects[|o.effects| - 1].Audit?
            && o.effects[|o.effects| - 1].event.message == batch.infos[FirstError(batch.infos).value].error)
      && ((forall k :: 0 <= k < |batch.infos| ==> batch.infos[k].error == "") ==>
            && o.reply == Encoded(batch.infos)
            && EventCount(o.effects, C.APPLICATION_COMPLETED_EVENT) == 1
            && EventCount(o.effects, C.ERROR_FETCHING_FILE_SIZE) == 0
            && o.effects[|o.effects| - 1].Audit?
            && o.effects[|o.effects| - 1].event.event == C.APPLICATION_COMPLETED_EVENT)
  {
    var started := Started(traceId);
    RespondAfterChecks(r, env, clients, traceId, batch);
    EventCountOfProcessorEffects(batch.effects, C.ERROR_FETCHING_FILE_SIZE);
    EventCountOfProcessorEffects(batch.effects, C.APPLICATION_COMPLETED_EVENT);
    assert started[1..] == [];
    EventCountAppend(started, batch.effects, C.ERROR_FETCHING_FILE_SIZE);
    EventCountAppend(started, batch.effects, C.APPLICATION_COMPLETED_EVENT);
    ReportedScan(traceId, started + batch.effects, batch.infos);
  }

  /** The loop over the results at the end of AnalyzeFileHandler: it stops at the
      first result with an Error. */
  method ScanResults(traceId: string, ghost written: seq<Processor.Effect>, result: seq<FileInfo>)
    returns (reply: Reply, ghost effects: seq<Processor.Effect>)
    ensures reply == Reported(traceId, written, result).reply
    ensures Outcome(reply, effects) == Reported(traceId, written, result)
  {
    effects := written;
    var i := 0;
    while i < |result|
      invariant 0 <= i <= |result|
      invariant forall k :: 0 <= k < i ==> result[k].error == ""
      invariant effects == written
    {
      var res := result[i];
      if res.error != "" {
        effects := effects + [Processor.Audit(HandlerEvent(traceId, C.ERROR_FETCHING_FILE_SIZE, C.FAILED, res.error, res.fileUrl))];
        reply := ErrorReply(C.StatusInternalServerError, "error fetching file size");
        assert FirstError(result) == Some(i);
        return;
      }
      i := i + 1;
    }
    reply := Encoded(result);
    effects := effects + [Processor.Audit(HandlerEvent(traceId, C.APPLICATION_COMPLETED_EVENT, C.COMPLETED, "application completed", ""))];
  }

  /** AnalyzeFileHandler: the early-return checks in order, then the processor, then a
      scan of the results that stops at the first error. */
  method AnalyzeFileHandler(r: Request, env: Environment, clients: Clients, traceId: string,
                            oracles: Processor.Oracles)
    returns (reply: Reply, ghost effects: seq<Processor.Effect>)
    ensures reply == Handled(r, env, clients, traceId, oracles).reply
    ensures Outcome(reply, effects) == Handled(r, env, clients, traceId, oracles)
  {
    effects := [];
    var projectId := env.projectId;
    if projectId == "" {
      reply := ErrorReply(C.StatusBadRequest, "project id not specified");
      return;
    }
    if r.httpMethod == MethodGet && r.path == C.HEALTH {
      reply := Written(C.StatusOK, HealthBody);
      return;
    }
    if clients.bigquery.Some? {
      reply := ErrorReply(C.StatusBadRequest, "bigquery client creation failed");
      return;
    }
    if clients.compute.Some? {
      reply := ErrorReply(C.StatusBadRequest, "unable to create cloud run job client");
      return;
    }
    effects := Started(traceId);

    if r.body.ReadFailed? {
      effects := effects + [Processor.Audit(HandlerEvent(traceId, C.REQUEST_BODY_FAILED, C.FAILED, r.body.message, ""))];
      reply := ErrorReply(C.StatusBadRequest, "Failed to read request body");
      return;
    }
    var requestData := r.body.json;
    if requestData.InvalidJson? {
      effects := effects + [Processor.Audit(HandlerEvent(traceId, C.INVALID_JSON_FORMAT, C.FAILED, requestData.message, ""))];
      reply := Unwritten;
      return;
    }

    var fileUrl := requestData.fileUrl;
    var requestUuid := requestData.requestUuid;
    if |fileUrl| == 0 {
      effects := effects + [Processor.Audit(HandlerEvent(traceId, C.FILE_URL_MISSING, C.FAILED, "missing fileUrl Parameter", ""))];
      reply := ErrorReply(C.StatusBadRequest, "Missing 'fileUrl' parameter");
      return;
    }
    if clients.gcs.Some? {
      effects := effects + [Processor.Audit(HandlerEvent(traceId, C.ERROR_CREATING_GCS_CLIENT, C.FAILED, clients.gcs.value, ""))];
      reply := ErrorReply(C.StatusInternalServerError, "error fetching file size");
      return;
    }

    ghost var started := effects;
    var processor := new Processor.Processor(traceId, fileUrl, projectId, C.REGION, env.jobName, oracles);
    var result := processor.AnalyzeFileUrls(fileUrl, requestUuid);
    ghost var batch := Processor.Batch(result, processor.trace);
    assert processor.Ctx() == HandlerContext(env, traceId, oracles);
    assert batch == Processor.Batched(HandlerContext(env, traceId, oracles), RequestedUrls(r), RequestedUuid(r));
    HandledResponds(r, env, clients, traceId, oracles, batch);
    RespondAfterChecks(r, env, clients, traceId, batch);
    reply, effects := ScanResults(traceId, effects + processor.trace, result);
  }
}
