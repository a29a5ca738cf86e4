/**
 * The client-side download helper: it refuses a call with a missing argument,
 * otherwise posts the request to the download endpoint and returns the stored
 * file's path. The endpoint itself is an oracle: its reply is a parameter.
 */
module FileUtils {
  import opened JsValues

  const MissingParameters := "Missing required parameters for file download"
  const DownloadFailed := "Failed to download file"

  /** The download endpoint's answer: `{ filePath }` when ok, else `{ error }`. */
  datatype DownloadReply = Stored(filePath: string) | Refused(error: Option<string>)

  /**
   * `downloadFile(url, filename, analysisId)`. Each argument is checked for
   * truthiness first; a call that leaves `analysisId` out passes `None`.
   * `reply` is what the endpoint would answer, or the fault the request throws.
   */
  function DownloadFile(url: string, filename: string, analysisId: Option<string>,
                        reply: Result<DownloadReply, Fault>): (r: Result<string, Fault>)
    ensures url == "" || filename == "" || !Truthy(analysisId) ==> r == Err(Error(MissingParameters))
    ensures r.Ok? <==> url != "" && filename != "" && Truthy(analysisId) && reply.Ok? && reply.value.Stored?
    ensures r.Ok? ==> reply == Ok(Stored(r.value))
    ensures url != "" && filename != "" && Truthy(analysisId) && reply.Ok? && reply.value.Refused? ==>
              r == Err(Error(Interpolate(Or(reply.value.error, Some(DownloadFailed)))))
  {
    if url == "" || filename == "" || !Truthy(analysisId) then Err(Error(MissingParameters))
    else match reply
      case Err(f) => Err(f)
      case Ok(Stored(path)) => Ok(path)
      case Ok(Refused(e)) => Err(Error(Interpolate(Or(e, Some(DownloadFailed)))))
  }
}
