/** `Updater.fetch`: the default HTTP requester or the caller's `Requester`. */
module Transport {
  import opened Wrappers
  import opened Types

  /**
   * The bytes behind `url`, or why there are none. A caller-supplied
   * requester that answers with a nil reader and no error is a failure.
   */
  function FetchOutcome(requester: Option<string -> Fetched>, httpGet: string -> Option<Bytes>, url: string)
    : (r: Result<Bytes, FetchFailure>)
    ensures r == Err(NilReader) <==> requester.Some? && requester.value(url) == NilStream
    ensures requester.None? ==> (r.Ok? <==> httpGet(url).Some?) && (r.Ok? ==> r.value == httpGet(url).value)
    ensures requester.Some? ==> (r.Ok? <==> requester.value(url).Stream?) &&
                                (r.Ok? ==> r.value == requester.value(url).body)
  {
    match requester
    case None =>
      (match httpGet(url)
       case Some(body) => Ok(body)
       case None => Err(TransportError))
    case Some(fetch) =>
      (match fetch(url)
       case Stream(body) => Ok(body)
       case NilStream => Err(NilReader)
       case FetchFailed => Err(TransportError))
  }
}
