/**
 * The three message shapes a progress socket delivers to the browser, and
 * the field-presence tests that tell them apart.
 */
module Messages {
  import opened Wrappers
  import opened Domain
  import opened Browser

  /** A parsed socket message: any subset of the fields the three shapes use. */
  datatype WireMessage = WireMessage(
    status: Field<string>,
    jobId: Field<string>,
    outputPath: Field<string>,
    error: Field<string>,
    errorType: Field<string>,
    progress: Field<real>)

  /** `isJobResultMessage`: a `status` field is present, even if null. */
  predicate IsJobResult(m: WireMessage)
  {
    m.status != Undefined
  }

  /** `isProgressMessage`: a `progress` field is present; its value is not checked. */
  predicate IsProgress(m: WireMessage)
  {
    m.progress != Undefined
  }

  /** `isErrorMessage`: an `error` field is present, even if null. */
  predicate IsError(m: WireMessage)
  {
    m.error != Undefined
  }

  /** The tests are independent: every combination of answers is met by some message. */
  lemma ShapesIndependent(result: bool, progress: bool, error: bool)
    ensures exists m :: IsJobResult(m) == result && IsProgress(m) == progress && IsError(m) == error
  {
    var m := WireMessage(if result then Value(Completed) else Undefined, Undefined, Undefined,
                         if error then Null else Undefined, Undefined, if progress then Null else Undefined);
    assert IsJobResult(m) == result && IsProgress(m) == progress && IsError(m) == error;
  }

  /** How Python's `None` arrives: as a JSON `null`. */
  function FromOption(o: Option<string>): (f: Field<string>)
    ensures f != Undefined
    ensures f == Null <==> o.None?
    ensures o.Some? ==> f == Value(o.value)
  {
    match o
    case None => Null
    case Some(s) => Value(s)
  }

  /** What the browser parses from each payload the API writes to a progress socket. */
  function Received(p: Payload): (m: WireMessage)
    ensures p.ProgressUpdate? ==>
      IsProgress(m) && !IsJobResult(m) && !IsError(m) && m.progress == Value(p.progress.progress)
      && m.jobId == Value(p.progress.jobId)
    ensures p.ResultUpdate? ==>
      IsJobResult(m) && IsError(m) && !IsProgress(m) && m.status == Value(p.result.status)
      && m.error == FromOption(p.result.error) && m.jobId == Value(p.result.jobId)
    ensures p.ErrorNotice? ==> IsError(m) && !IsJobResult(m) && !IsProgress(m) && m.error == Value(p.error)
  {
    match p
    case ProgressUpdate(g) =>
      WireMessage(Undefined, Value(g.jobId), Undefined, Undefined, Undefined, Value(g.progress))
    case ResultUpdate(r) =>
      WireMessage(Value(r.status), Value(r.jobId), FromOption(r.outputPath), FromOption(r.error),
                  FromOption(r.errorType), Undefined)
    case ErrorNotice(e) =>
      WireMessage(Undefined, Undefined, Undefined, Value(e), Undefined, Undefined)
  }
}
