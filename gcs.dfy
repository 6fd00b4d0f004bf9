/** internal/gcs/client.go, CheckAlreadyProcessed: where the processed copy of a file
    would be, and how the storage answer maps to (processed, error). */
module Gcs {
  import opened Wrappers
  import opened Model
  import Constants
  import Paths

  /** What bucket.Object(path).Attrs(ctx) reports. */
  datatype AttrsResult =
    | Attrs                        // the object exists
    | ObjectNotExist               // an error matching storage.ErrObjectNotExist
    | AttrsError(message: string)  // any other error

  const ExistenceErrorPrefix := "error checking object existence :"

  /** filepath.Join(requestUUID, fileInfo.FileName). */
  function ObjectPath(requestUuid: string, fileName: string): (path: string)
    ensures path == "" <==> requestUuid == "" && fileName == ""
  {
    var elems := [requestUuid, fileName];
    assert elems[0] == requestUuid && elems[1] == fileName;
    Paths.Join(elems)
  }

  /** CheckAlreadyProcessed. The bucket is always HARDCODED_BUCKET_NAME, whatever
      bucket the client was configured with. */
  function CheckAlreadyProcessed(fileInfo: FileInfo, requestUuid: string,
                                 attrs: (string, string) -> AttrsResult): (r: (bool, Option<string>))
    ensures var answer := attrs(Constants.HARDCODED_BUCKET_NAME, ObjectPath(requestUuid, fileInfo.fileName));
      && (r.0 <==> answer == Attrs)
      && (r.1 == None <==> !answer.AttrsError?)
      && (answer.AttrsError? ==> r.1 == Some(ExistenceErrorPrefix + answer.message))
  {
    var objectPath := ObjectPath(requestUuid, fileInfo.fileName);
    match attrs(Constants.HARDCODED_BUCKET_NAME, objectPath)
    case ObjectNotExist => (false, None)
    case AttrsError(m) => (false, Some(ExistenceErrorPrefix + m))
    case Attrs => (true, None)
  }

  /** A failed check never also claims the file is processed, and its message is
      never empty. */
  lemma CheckErrorShape(fileInfo: FileInfo, requestUuid: string, attrs: (string, string) -> AttrsResult)
    ensures var r := CheckAlreadyProcessed(fileInfo, requestUuid, attrs);
      r.1.Some? ==> !r.0 && r.1.value != ""
  {
  }

  /** For a plain request id and file name the object path is "<uuid>/<name>"; an
      empty name (or the "." that path.Base gives for an empty path) leaves just the
      request id. */
  lemma ObjectPathOfPlainNames(requestUuid: string, fileName: string)
    requires Paths.IsPlainElement(requestUuid)
    ensures Paths.IsPlainElement(fileName) ==> ObjectPath(requestUuid, fileName) == requestUuid + "/" + fileName
    ensures fileName == "" || fileName == "." ==> ObjectPath(requestUuid, fileName) == requestUuid
  {
    if Paths.IsPlainElement(fileName) {
      Paths.JoinOfPlainElements(requestUuid, fileName);
    }
    if fileName == "" || fileName == "." {
      Paths.JoinOfPlainAndEmpty(requestUuid, fileName);
    }
  }

  /** Empty components are dropped: with no file name the path is the cleaned
      request id, with no request id it is the cleaned file name, and with neither
      it is empty. */
  lemma ObjectPathEmptyComponents(requestUuid: string, fileName: string)
    ensures ObjectPath(requestUuid, "") == (if requestUuid == "" then "" else Paths.Clean(requestUuid))
    ensures ObjectPath("", fileName) == (if fileName == "" then "" else Paths.Clean(fileName))
  {
    assert [requestUuid, ""][1..] == [""];
    assert Paths.JoinWith([requestUuid, ""], '/') == requestUuid + "/";
    if requestUuid != "" {
      Paths.CleanDropsTrailingSlash(requestUuid);
    }
    assert ["", fileName][1..] == [fileName];
    assert Paths.JoinWith([fileName], '/') == fileName;
    var none: seq<string> := [];
    assert [fileName][1..] == none;
    assert Paths.Join(["", fileName]) == Paths.Join([fileName]);
  }
}
