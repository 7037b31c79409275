/** `fetchInfo`: fetch and decode the metadata JSON into `Updater.Info`. */
module Resolver {
  import opened Wrappers
  import opened Types
  import opened Trace
  import opened Urls
  import opened Transport

  /**
   * One `fetchInfo` call starting from `info`: the metadata URL is fetched
   * once; a transport failure leaves `info` alone; otherwise `info` becomes
   * whatever the decoder left in it, and the call succeeds only when
   * decoding succeeded and the digest is exactly 32 bytes. A bad digest is
   * reported after `Info` has already been overwritten.
   */
  function FetchInfoRun(c: Config, info: Info, w: World): (r: Run)
    ensures r.calls == [Fetch(InfoJson, InfoURL(c.apiURL, c.cmdName, w.platform, w.queryEscape))]
    ensures r.err.None? ==> |r.info.sha256| == SHA256_SIZE
    ensures var f := FetchOutcome(c.requester, w.httpGet, r.calls[0].url);
            && (f.Err? ==> r.err == Some(InfoFetch(f.error)) && r.info == info)
            && (f.Ok? ==> r.info == w.decodeInfo(info, f.value).info)
            && (f.Ok? && !w.decodeInfo(info, f.value).ok ==> r.err == Some(InfoDecode))
            && (f.Ok? && w.decodeInfo(info, f.value).ok ==>
                  (r.err.None? <==> |r.info.sha256| == SHA256_SIZE) &&
                  (r.err.Some? ==> r.err == Some(BadInfoHash)))
  {
    var url := InfoURL(c.apiURL, c.cmdName, w.platform, w.queryEscape);
    var calls := [Fetch(InfoJson, url)];
    match FetchOutcome(c.requester, w.httpGet, url)
    case Err(e) => Run(Some(InfoFetch(e)), info, calls)
    case Ok(body) =>
      var decoded := w.decodeInfo(info, body);
      if !decoded.ok then Run(Some(InfoDecode), decoded.info, calls)
      else if |decoded.info.sha256| != SHA256_SIZE then Run(Some(BadInfoHash), decoded.info, calls)
      else Run(None, decoded.info, calls)
  }
}
