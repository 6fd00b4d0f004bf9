# prj-wayne-compute-decider in Dafny

A model of the compute decider: an HTTP Cloud Function. It receives a list of
file URLs and probes each one with an HTTP HEAD request. It checks in Cloud
Storage whether the file was already processed. For a new file it starts the
Cloud Run job that its extension selects:

- `.json` starts the file streamer;
- `.gz` starts the gz streamer;
- `.zip` starts the zip downloader.

Most steps write an audit row to BigQuery. None is written for a URL that does not
parse, for a HEAD request that cannot be sent, for an extension that selects no job,
or when the handler returns at main.go:48-87.

| module | file | models |
|---|---|---|
| `Wrappers` | wrappers.dfy | `Option` and `Result` |
| `Constants` | constants.dfy | pkg/constants/constants.go |
| `Model` | model.dfy | `FileInfo` and `AuditEvent` of internal/model/types.go |
| `Paths` | paths.dfy | `strings.Split`, `path.Ext`, `path.Base`, `filepath.Clean` and `filepath.Join`, for '/' paths |
| `Decimal` | decimal.dfy | `strconv.ParseInt(s, 10, 64)` and the text of its errors |
| `Gcs` | gcs.dfy | `CheckAlreadyProcessed`: the object path and the mapping of the storage answer |
| `Compute` | compute.dfy | `TriggerFileStreamerJob`: the request built, and the error passed through |
| `Processor` | processor.dfy | internal/processor/analyze.go |
| `Decider` | decider.dfy | `AnalyzeFileHandler` in main.go |

### How the model is built

**Oracles.** The outside world is given to the model as deterministic functions, bundled in `Processor.Oracles`:

- `url.Parse`;
- sending the HEAD request (it fails, or returns the three header strings). Building the request re-parses the URL, so after a successful parse it cannot fail (`NewHeadRequest`, `HeadRequestAfterParse`);
- the storage `Attrs` call;
- the Jobs client's `RunJob`.

The handler also takes as inputs:

- the request, with its body already decoded;
- the environment variables;
- the error, if any, of each client constructor;
- the fresh trace id.

**The trace.** Audit rows and `RunJob` calls are recorded in call order. The `Processor` class keeps them in one ghost trace, and the `Effect` values go in the same sequence.

**Imperative code.** `analyzeFile`, the loop of `AnalyzeFileUrls` and the handler are written as methods. Each one is proved equal to a specification function:

| method | specification |
|---|---|
| `AnalyzeFile` | `Analyzed` |
| `AnalyzeFileUrls` | `Batched` |
| `AnalyzeFileHandler` | `Handled` |

The lemmas state the source's promises about those functions.

## Model

| member | source | states |
|---|---|---|
| Paths.SplitThenJoin | internal/processor/analyze.go:282 | strings.Split gives pieces that join back to the input, hold no separator, and number one more than the separators |
| Paths.Split | internal/processor/analyze.go:282 | strings.Split always gives at least one piece, so `len(parts) == 2` is the only case with a subtype |
| Paths.Ext | internal/processor/analyze.go:219 | path.Ext is a suffix of the path |
| Paths.ExtOfLastElement | internal/processor/analyze.go:219 | path.Ext is "" exactly when the last element has no '.'; otherwise it starts with its only '.' and lies within the last element |
| Paths.ExtOfSuffix | internal/processor/analyze.go:219 | a path ending in '.' plus characters without '.' or '/' has exactly that suffix as path.Ext |
| Paths.Base | internal/processor/analyze.go:191 | path.Base is never empty, and holds no '/' unless it is "/" |
| Paths.BaseUnderDirectory | internal/processor/analyze.go:191 | path.Base ignores the directory and any trailing slashes |
| Paths.BaseOfSlashes | internal/processor/analyze.go:191 | a path made only of slashes has base "/" |
| Paths.Join | internal/gcs/client.go:45 | filepath.Join is "" exactly when every element is empty |
| Paths.JoinOfPlainElements | internal/gcs/client.go:45 | joining two plain names puts exactly one '/' between them |
| Paths.Clean | internal/gcs/client.go:45 | filepath.Clean never returns "": an empty result is "." |
| Paths.ResolveDropsTrailingEmpty | internal/gcs/client.go:45 | a trailing empty element, as a trailing slash gives, changes nothing that Clean keeps |
| Paths.CleanDropsTrailingSlash | internal/gcs/client.go:45 | filepath.Clean of a non-empty path ignores one trailing slash |
| Decimal.ParseIntMeaning | internal/processor/analyze.go:263-271 | ParseInt succeeds exactly on an optionally signed run of digits whose value fits int64, and its result is that value |
| Decimal.ParseInt | internal/processor/analyze.go:263 | a successful conversion is a value inside int64 |
| Decimal.ParseIntExamples | internal/processor/analyze.go:263 | "500000000" and "-12" parse; "" and "12a" are syntax errors |
| Decimal.ErrorTextDetermines | internal/processor/analyze.go:265 | the NumError text determines both the Content-Length string and the reason (syntax or range) |
| Gcs.CheckAlreadyProcessed | internal/gcs/client.go:44-90 | it queries HARDCODED_BUCKET_NAME at filepath.Join(uuid, FileName); processed iff the object exists; an error iff Attrs failed with something other than not-exist, carrying the "error checking object existence :" prefix |
| Gcs.CheckErrorShape | internal/gcs/client.go:68-79 | a failed check never also reports the file as processed, and its message is non-empty |
| Gcs.ObjectPath | internal/gcs/client.go:45 | the object path is empty exactly when both the requestUUID and the FileName are |
| Gcs.ObjectPathOfPlainNames | internal/gcs/client.go:45 | the object path is "uuid/name"; an empty name, or ".", leaves the bare uuid |
| Gcs.ObjectPathEmptyComponents | internal/gcs/client.go:45 | without a FileName the object path is filepath.Clean of the requestUUID, with no trailing slash; without a requestUUID it is filepath.Clean of the FileName; without both it is "" |
| Compute.TriggerFileStreamerJob | internal/compute/compute.go:67-82 | the RunJob error is returned unchanged, and None on success |
| Compute.RunJobRequestShape | internal/compute/compute.go:47-65 | name = "projects/P/locations/R/jobs/J"; exactly one container override, whose Args are the given args; TaskCount 1 |
| Compute.JobResourceNameSegments | internal/compute/compute.go:47 | for '/'-free inputs the resource name splits back into its six segments, so it determines project, region and job |
| Processor.Decide | internal/processor/analyze.go:93-183 | a job is chosen exactly for .json, .gz and .zip, and every job's arguments start with TraceId and FIleUrl |
| Processor.Dispatched | internal/processor/analyze.go:93-183 | decideCompute has effects exactly for a routed file, and only a routed file can return an error |
| Processor.DecideRoutes | internal/processor/analyze.go:93-183 | a job is chosen iff the extension is .json, .gz or .zip; each routed extension gets its own job and argument vector; "", ".JSON", ".Gz", ".ZIP" and ".tar" are skipped |
| Processor.DispatchedShape | internal/processor/analyze.go:96-181 | a routed file writes exactly [IN_PROGRESS TRIGGER_CLOUD_RUN_JOB row, one RunJob], and the RunJob error is the result; any other file has no effect and no error |
| Processor.Processor.DecideCompute | internal/processor/analyze.go:93-183 | the switch writes exactly the effects of Dispatched and returns its error |
| Processor.Processor.TriggerFileStreamerJob | internal/processor/analyze.go:113 | one RunJob call is added to the trace, and its error is returned |
| Processor.Processor.LogAuditData | internal/bigquery/client.go:48-62 | appends exactly one audit row; it cannot fail |
| Processor.Processor.constructor | internal/processor/analyze.go:37-49 | NewProcessor stores its arguments; the trace starts empty |
| Processor.FileNameFromUrl | internal/processor/analyze.go:186-192 | getFileNameFromURL succeeds iff url.Parse does, with a non-empty name that holds no '/' unless it is "/"; on failure it returns the parse error |
| Processor.NewHeadRequest | internal/processor/analyze.go:221-229 | building the HEAD request fails exactly when url.Parse of the same URL fails |
| Processor.HeadRequestAfterParse | internal/processor/analyze.go:200-229 | once the parse at line 200 succeeded, building the HEAD request cannot fail, so the branch at lines 222-229 is dead |
| Processor.FileNameAfterParse | internal/processor/analyze.go:251-259 | once url.Parse succeeded for a URL, getFileNameFromURL succeeds with path.Base, so the error branch cannot be taken |
| Processor.ContentTypeFallback | internal/processor/analyze.go:281-286 | without a path extension, the extension is non-empty iff Content-Type holds exactly one '/', and is then '.' plus what follows it |
| Processor.ContentTypeSubtype | internal/processor/analyze.go:281-286 | "type/subtype" gives ".subtype" only when the path gave no extension; it never overrides one |
| Processor.ContentTypeWithoutSubtype | internal/processor/analyze.go:281-286 | "a/b/c" and "" give no extension |
| Processor.ErrorNamesStep | internal/processor/analyze.go:206-265 | the Error texts of the four failing steps never coincide, so the text tells which step failed |
| Processor.Analyzed | internal/processor/analyze.go:196-305 | RequestUUID is always set; no audit row is written exactly when the URL does not parse; at most two rows |
| Processor.Requested | internal/processor/analyze.go:221-296 | RequestUUID is kept; a row after ANALYZE_FILE_STARTED only when the HEAD request returned headers; at most one row |
| Processor.Measured | internal/processor/analyze.go:263-296 | RequestUUID is kept; ANALYZE_FILE_COMPLETED is written exactly when Content-Length converts |
| Processor.AnalyzedInvalidUrl | internal/processor/analyze.go:197-208 | a URL that does not parse gives a FileInfo with only RequestUUID and Error set, and no audit row |
| Processor.AnalyzedHeadFailure | internal/processor/analyze.go:209-239 | a HEAD request that cannot be sent sets only RequestUUID, FileExtension (path.Ext of the URL path) and Error, which carries the cause; only ANALYZE_FILE_STARTED is written |
| Processor.AnalyzedCompletesIffNoError | internal/processor/analyze.go:209-296 | Error stays empty iff ANALYZE_FILE_COMPLETED is written, and then the rows are exactly [STARTED, COMPLETED]; analyzeFile runs no job |
| Processor.AnalyzedSuccess | internal/processor/analyze.go:243-286 | success iff Content-Length is an int64 literal; then: RangeSupported iff Accept-Ranges == "bytes"; FileSizeBytes is the raw header and its value the literal's; FIleUrl, TraceId, FileName, ContentType and the derived extension are set as the code sets them |
| Processor.AnalyzedBadContentLength | internal/processor/analyze.go:243-271 | a Content-Length that ParseInt rejects (not a literal, or outside int64) sets Error after FileName and RangeSupported, keeps path.Ext without the Content-Type fallback, leaves size, URL, trace id and content type unset, and writes only ANALYZE_FILE_STARTED |
| Processor.Processor.AnalyzeFile | internal/processor/analyze.go:196-305 | the method's FileInfo and rows are those of Analyzed, step by step with its early returns |
| Processor.ProcessedRules | internal/processor/analyze.go:55-85 | dedup error: Error := its message, FAILED_TO_CHECK_IF_FILE_EXISTS, no job; already processed: the FileInfo as probed; trigger error: Error overwritten, FAILED_TRIGGER_CLOUD_RUN_JOB last; at most one job per URL, and exactly one iff the check passed, the file is new and its extension is routed |
| Processor.Settled | internal/processor/analyze.go:57-85 | RequestUUID is kept; the loop body only appends rows after analyzeFile's rows, at most three |
| Processor.Processed | internal/processor/analyze.go:56-85 | RequestUUID is the batch's, and analyzeFile's rows come first |
| Processor.Processor.ProcessFileUrl | internal/processor/analyze.go:56-85 | one loop iteration produces the FileInfo and rows of Processed |
| Processor.Processor.AnalyzeFileUrls | internal/processor/analyze.go:53-89 | the results and rows are those of Batched for the same URLs and requestUUID |
| Processor.Batched | internal/processor/analyze.go:53-89 | every result carries the batch's requestUUID |
| Processor.BatchedLength | internal/processor/analyze.go:53-88 | one FileInfo per input URL |
| Processor.BatchedAt | internal/processor/analyze.go:53-88 | result k is what URL k alone gives: in input order, and unaffected by earlier failures |
| Processor.BatchedSplit | internal/processor/analyze.go:53-88 | a batch is its two halves processed one after the other; no failure stops the loop |
| Processor.BatchedOwnEffects | internal/processor/analyze.go:53-88 | the processor writes only its own five audit events, plus RunJob calls |
| Processor.ErroredProbeStillTriggers | internal/processor/analyze.go:56-70 | a .json URL whose HEAD cannot be sent still reaches decideCompute, and the file streamer is started with empty trace id, URL and size |
| Processor.ZipScenario | internal/processor/analyze.go:151-178 | a good new .zip gives exactly one RunJob, of the zip downloader, with [TraceId, FIleUrl, FileName], and no error |
| Decider.FirstError | main.go:196-217 | the index of the first result with an Error, and None iff every Error is empty |
| Decider.Reported | main.go:196-231 | exactly one row is appended; the results are encoded iff none has an Error, and otherwise the reply is 500 "error fetching file size" |
| Decider.Respond | main.go:48-231 | nothing is written exactly when the handler returns on the project id, /health, or a BigQuery or Cloud Run client failure; otherwise APPLICATION_STARTED comes first; a JSON reply comes only after every check and holds the processor's results, none with an Error |
| Decider.EarlyReturnsIgnoreProcessor | main.go:48-186 | until every check has passed, the reply and rows do not depend on the processor, and no job runs |
| Decider.ProjectIdFirst | main.go:48-57 | an empty project id gives 400 "project id not specified" before anything else, /health included, with no row |
| Decider.HealthBeforeClients | main.go:59-63 | GET /health gives 200 {"status":"ok"} whatever the client constructors would do, with no row |
| Decider.ClientFailures | main.go:66-87 | a BigQuery or Cloud Run client failure gives 400 with no row; a Storage client failure gives 500 after ERROR_CREATING_GCS_CLIENT |
| Decider.InvalidJsonWritesNothing | main.go:122-141 | invalid JSON writes no status (an implicit 200) after INVALID_JSON_FORMAT with the decoder's message |
| Decider.MissingFileUrl | main.go:146-164 | an empty URL list gives 400 "Missing 'fileUrl' parameter"; the rows are exactly APPLICATION_STARTED and FILE_URL_MISSING, and the processor is not run |
| Decider.ReportedScan | main.go:196-231 | any erroring result gives 500, no encoding, exactly one ERROR_FETCHING_FILE_SIZE row carrying the first error; otherwise the results are encoded and exactly one APPLICATION_COMPLETED row comes last |
| Decider.RespondAfterChecks | main.go:188-231 | once every check passed, the reply is the scan of the processor's results, after APPLICATION_STARTED and the processor's rows |
| Decider.HandlerScan | main.go:188-231 | the scan's counts hold for the handler's whole trace: the processor never writes either row |
| Decider.ScanResults | main.go:196-231 | the loop stops at the first erroring result; its reply and the rows it adds are those of Reported |
| Decider.Handled | main.go:27-231 | a JSON reply comes only when every check passed, and holds exactly the processor's results for the request's URLs and requestUUID, none with an Error |
| Decider.AnalyzeFileHandler | main.go:27-236 | the reply and every row written, the processor's included, are those of Handled |

## Left out

- HTTP: building and sending the HEAD request, and `resp.Body.Close`. Its outcome is the `head` oracle.
- The internals of `net/url` parsing. Its outcome is the `parse` oracle, a function, so the same URL always parses the same way.
- The storage and Cloud Run clients. Their answers are the `attrs` and `runJob` oracles.
- `errors.Is` on a wrapped error is taken as the oracle's `ObjectNotExist` case.
- The BigQuery client: `LogAuditData` is an append to the ghost trace. It always returns nil.
- `ContractFileQueue` is never called by the processor or the handler.
- `FileSizeFloat` and `FileSize` (a float64 division and "%.2f GB") are left out, because they are floating point. The model keeps the parsed Content-Length value instead.
- JSON decoding and encoding in the handler. The body is given already decoded, and `Encoded` carries the results it would encode.
- Which fields JSON omits is not modelled.
- Constructing, and closing, the BigQuery, Cloud Run and Storage clients. Each constructor is reduced to its error.
- The `Content-Type: application/json` header set at main.go:193 is not modelled.
- `http.Error`'s trailing newline and its own headers are not modelled.
- Contexts, timeouts, logging (zap), `time.Now()` timestamps and `uuid.New()`. The trace id is an input.
- `MAX_FILE_SIZE` and the processor's `jobName` are defined but never read, so there is no size-based routing.
- Decimal.ErrorText: `strconv.Quote` is modelled for strings that need no escaping.
- The error texts of a failed `url.Parse`, HEAD request, storage call or RunJob are the oracles' texts, taken as given.
- Go's path/filepath uses '/' here, as on Linux, where the service runs.
- Processor.Processor.ProcessFileUrl: this method is the loop body of `AnalyzeFileUrls`, factored out. The source has no function of its own for it.
- Points where the model takes the code as written:
  - `AnalyzeFileUrls` does not skip the dedup check or `decideCompute` for a `FileInfo` whose probe failed (see `ErroredProbeStillTriggers`).
  - internal/processor/analyze.go:56 calls `analyzeFile` with two arguments, but it is declared with three at line 196. The model passes the batch's `requestUUID`.
  - analyze.go sets and reads `FileInfo.RequestUUID` and `AuditEvent.FileUrl`, but internal/model/types.go declares neither field. The model has both.
