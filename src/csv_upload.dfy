/**
 * The batch upload panel (frontend/src/components/prediction/CSVUpload.jsx):
 * the selected file, the error banner, the results and the uploading flag,
 * set step by step by file selection, the upload and the "New Upload"
 * button. The server's answer to the upload is a parameter; the results
 * are kept as the undecoded response body.
 */
module CsvUpload {
  import opened Wrappers
  import opened Text
  import Api
  import Preprocessing

  datatype FileInfo = FileInfo(name: string, size: nat)

  /** How the batch request ended: a body, an error status with its `detail`, or a thrown error. */
  datatype FetchOutcome = Received(body: string) | Rejected(detail: string) | Thrown(message: string)

  /** The reason the panel refuses a file, checked in this order: extension, then size. */
  function SelectionError(f: FileInfo): (e: Option<string>)
    ensures !EndsWith(f.name, ".csv") ==> e == Some("Please upload a CSV file")
    ensures EndsWith(f.name, ".csv") && f.size > Api.MaxUploadBytes ==> e == Some("File size exceeds 5MB limit")
    ensures e.None? <==> EndsWith(f.name, ".csv") && f.size <= Api.MaxUploadBytes
  {
    if !EndsWith(f.name, ".csv") then Some("Please upload a CSV file")
    else if f.size > Api.MaxUploadBytes then Some("File size exceeds 5MB limit")
    else None
  }

  /**
   * The panel accepts exactly the files that pass the server's extension
   * and size checks: an accepted file is refused by the server only for its
   * contents, and a refused one would be refused by the server too.
   */
  lemma SelectionAgreesWithServer(f: FileInfo, parsed: Result<Api.Table>)
    ensures SelectionError(f).None? ==>
              Api.CheckUpload(f.name, f.size, parsed) != Err("File must be a CSV")
              && Api.CheckUpload(f.name, f.size, parsed) != Err("File size exceeds 5MB limit")
    ensures SelectionError(f).Some? ==> Api.CheckUpload(f.name, f.size, parsed).Err?
  {
    var r := Api.CheckUpload(f.name, f.size, parsed);
    if SelectionError(f).None? && parsed.Err? {
      assert r == Err("Invalid CSV format: " + parsed.message);
      assert r.message[0] == 'I';
    } else if SelectionError(f).None? && r.Err? {
      var missing := Api.MissingFrom(Api.RequiredColumns, parsed.value.columns);
      assert r == Err("Missing required columns: " + Join(missing, ", "));
      assert r.message[0] == 'M';
    }
  }

  const BackendHint := ". Make sure the backend is running on http://127.0.0.1:8000"

  /** The error banner shown when the request fails. */
  function UploadError(outcome: FetchOutcome): (m: string)
    requires !outcome.Received?
    ensures outcome.Rejected? && outcome.detail == [] ==> m == "Error: " + "Upload failed" + BackendHint
    ensures outcome.Rejected? && outcome.detail != [] ==> m == "Error: " + outcome.detail + BackendHint
    ensures outcome.Thrown? ==> m == "Error: " + outcome.message + BackendHint
  {
    var message := if outcome.Rejected? then (if outcome.detail == [] then "Upload failed" else outcome.detail)
                   else outcome.message;
    "Error: " + message + BackendHint
  }

  /** The red shared by the two top categories. */
  const Red := "#dc3545"
  const Grey := "#6c757d"

  /** `getRiskColor`. */
  function RiskColor(category: string): (c: string)
    ensures category == "Critical" || category == "High" <==> c == Red
    ensures category == "Moderate" <==> c == "#f59e0b"
    ensures category == "Low" <==> c == "#28a745"
    ensures c == Grey <==> category !in {"Critical", "High", "Moderate", "Low"}
  {
    match category
    case "Critical" => Red
    case "High" => Red
    case "Moderate" => "#f59e0b"
    case "Low" => "#28a745"
    case _ => Grey
  }

  /** Every category the server assigns to a score gets a colour of its own band, never the fallback grey. */
  lemma ServerCategoriesColoured(score: real)
    ensures RiskColor(Preprocessing.RiskCategory(score)) != Grey
    ensures RiskColor(Preprocessing.RiskCategory(score)) == Red <==> score >= 60.0
  {
  }

  class Panel {
    var file: Option<FileInfo>
    var uploading: bool
    var results: Option<string>
    var error: Option<string>

    constructor()
      ensures file == None && !uploading && results == None && error == None
    {
      file := None;
      uploading := false;
      results := None;
      error := None;
    }

    /**
     * `handleFileSelect`: a refused file only sets the error; an accepted
     * one becomes the file and clears the error and the results.
     */
    method HandleFileSelect(f: FileInfo)
      modifies this
      ensures SelectionError(f).Some? ==>
                error == SelectionError(f) && file == old(file) && results == old(results)
      ensures SelectionError(f).None? ==> file == Some(f) && error == None && results == None
      ensures uploading == old(uploading)
    {
      if !EndsWith(f.name, ".csv") {
        error := Some("Please upload a CSV file");
        return;
      }
      if f.size > 5 * 1024 * 1024 {
        error := Some("File size exceeds 5MB limit");
        return;
      }
      file := Some(f);
      error := None;
      results := None;
    }

    /**
     * `handleUpload`: without a file only the error is set and nothing is
     * sent; otherwise the request's outcome becomes the results or the
     * error, and the uploading flag is down again either way.
     */
    method HandleUpload(outcome: FetchOutcome) returns (sent: bool)
      modifies this
      ensures sent <==> old(file).Some?
      ensures !sent ==> error == Some("Please select a file first")
                        && results == old(results) && uploading == old(uploading)
      ensures sent && outcome.Received? ==> results == Some(outcome.body) && error == None
      ensures sent && !outcome.Received? ==> error == Some(UploadError(outcome)) && results == old(results)
      ensures sent ==> !uploading
      ensures file == old(file)
    {
      if file.None? {
        error := Some("Please select a file first");
        return false;
      }
      uploading := true;
      error := None;
      if outcome.Received? {
        results := Some(outcome.body);
      } else {
        error := Some(UploadError(outcome));
      }
      uploading := false;
      return true;
    }

    /** "New Upload": results and file are cleared. */
    method NewUpload()
      modifies this
      ensures results == None && file == None
      ensures error == old(error) && uploading == old(uploading)
    {
      results := None;
      file := None;
    }
  }
}
