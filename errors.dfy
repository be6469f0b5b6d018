/**
 * The worker's transcoding exceptions. Each subclass of the base exception
 * fixes an `error_type` string, which is what ends up in the job row and in
 * the result message; the message text is whatever the exception was raised
 * with.
 */
module TranscodeErrors {
  import opened Wrappers

  /** The four subclasses of the base exception. */
  datatype Kind = FailedToPlay | FailedToParsePipeline | FailedMidTranscode | PipelineTimeout

  /** The `error_type` each subclass passes to the base exception. */
  function ErrorType(k: Kind): (t: string)
    ensures t != S3Download && t != S3Upload && t != Unknown
  {
    match k
    case FailedToPlay => "pipeline_play"
    case FailedToParsePipeline => "pipeline_parse"
    case FailedMidTranscode => "mid_transcode"
    case PipelineTimeout => "pipeline_timeout"
  }

  // The error types the worker uses without a subclass.
  const S3Download := "s3_download"
  const S3Upload := "s3_upload"
  const Unknown := "unknown"

  /** Which subclass an `error_type` names, if any. */
  function KindOf(errorType: string): (k: Option<Kind>)
    ensures forall j :: ErrorType(j) == errorType <==> k == Some(j)
  {
    if errorType == "pipeline_play" then Some(FailedToPlay)
    else if errorType == "pipeline_parse" then Some(FailedToParsePipeline)
    else if errorType == "mid_transcode" then Some(FailedMidTranscode)
    else if errorType == "pipeline_timeout" then Some(PipelineTimeout)
    else None
  }

  /** The base exception: an error type and the text `str(e)` gives. */
  datatype TranscodeException = TranscodeException(errorType: string, message: string)

  /** Raising subclass `k` with a message. */
  function Raise(k: Kind, message: string): (e: TranscodeException)
    ensures KindOf(e.errorType) == Some(k) && e.message == message
  {
    TranscodeException(ErrorType(k), message)
  }

  /** An exception's error type tells which subclass raised it. */
  lemma {:induction false} ErrorTypeIdentifiesKind(j: Kind, k: Kind, m: string, n: string)
    ensures Raise(j, m).errorType == Raise(k, n).errorType <==> j == k
  {
    assert KindOf(ErrorType(j)) == Some(j);
    assert KindOf(ErrorType(k)) == Some(k);
  }
}
