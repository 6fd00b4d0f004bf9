/** The records of internal/model/types.go that the service builds. */
module Model {
  import opened Wrappers

  /** Per-URL result. Go's zero values stand for unset fields: "" for strings,
      false for the flag. FileSizeFloat and FileSize (float64(n) / 1073741824 and its
      "%.2f GB" rendering) are both functions of the parsed Content-Length n, so the
      model keeps n itself in fileSizeValue, None while unset.
      RequestUUID is not declared in types.go but analyze.go assigns and reads it. */
  datatype FileInfo = FileInfo(
    traceId: string,
    fileUrl: string,
    fileName: string,
    rangeSupported: bool,
    fileExtension: string,
    fileSizeValue: Option<int>,
    fileSizeBytes: string,
    contentType: string,
    requestUuid: string,
    error: string)

  /** A FileInfo with every field unset: `var info model.FileInfo`. */
  const EmptyFileInfo := FileInfo("", "", "", false, "", None, "", "", "", "")

  /** One row of the audit table. The timestamp is left out; FileUrl is set by
      every caller although types.go does not declare it. */
  datatype AuditEvent = AuditEvent(
    traceId: string,
    contractId: string,
    event: string,
    status: string,
    functionName: string,
    environment: string,
    message: string,
    fileUrl: string)
}
