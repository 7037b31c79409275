/**
 * The two ways to obtain the new executable: patch the running one with a
 * downloaded bsdiff blob, or download the gzipped full binary. Each comes as
 * the fetch step (`fetchAndApplyPatch`, `fetchBin`) and the verifying step
 * (`fetchAndVerifyPatch`, `fetchAndVerifyFullBin`).
 */
module Fetcher {
  import opened Wrappers
  import opened Types
  import opened Trace
  import opened Urls
  import opened Transport
  import opened Verifier

  function PatchURLOf(c: Config, info: Info, w: World): string {
    PatchURL(c.diffURL, c.cmdName, c.currentVersion, info.version, w.platform, w.queryEscape)
  }

  function BinURLOf(c: Config, info: Info, w: World): string {
    BinURL(c.binURL, c.cmdName, info.version, w.platform, w.queryEscape)
  }

  /**
   * `fetchAndApplyPatch`: one fetch of the patch URL, then, if bytes came
   * back, one bspatch of those bytes against the running executable; the
   * result is exactly what bspatch produced.
   */
  function ApplyPatchAttempt(c: Config, info: Info, w: World): (a: Attempt)
    ensures 1 <= |a.calls| <= 2 && a.calls[0] == Fetch(PatchBlob, PatchURLOf(c, info, w))
    ensures Transfers(a.calls)
    ensures var f := FetchOutcome(c.requester, w.httpGet, PatchURLOf(c, info, w));
            && (f.Err? ==> a.bin == Err(PatchFetch(f.error)) && |a.calls| == 1)
            && (f.Ok? ==> a.calls[1..] == [ApplyPatch(f.value)] &&
                          match w.bspatch(w.selfImage, f.value)
                          case Some(bin) => a.bin == Ok(bin)
                          case None => a.bin == Err(PatchApply))
  {
    var url := PatchURLOf(c, info, w);
    match FetchOutcome(c.requester, w.httpGet, url)
    case Err(e) => Attempt(Err(PatchFetch(e)), [Fetch(PatchBlob, url)])
    case Ok(blob) =>
      var calls := [Fetch(PatchBlob, url), ApplyPatch(blob)];
      match w.bspatch(w.selfImage, blob)
      case Some(bin) => Attempt(Ok(bin), calls)
      case None => Attempt(Err(PatchApply), calls)
  }

  /**
   * `fetchAndVerifyPatch`: the patched bytes are returned only when their
   * digest is the expected one; patched bytes that hash differently fail
   * with `HashMismatch`; other failures pass through.
   */
  function PatchAttempt(c: Config, info: Info, w: World): (a: Attempt)
    ensures var applied := ApplyPatchAttempt(c, info, w);
            && a.calls == applied.calls
            && (a.bin.Ok? <==> applied.bin.Ok? && VerifySha(applied.bin.value, info.sha256, w.sha256))
            && (a.bin.Ok? ==> a.bin == applied.bin)
            && (applied.bin.Err? ==> a.bin == applied.bin)
            && (applied.bin.Ok? && a.bin.Err? ==> a.bin.error == HashMismatch)
  {
    var applied := ApplyPatchAttempt(c, info, w);
    match applied.bin
    case Err(e) => Attempt(Err(e), applied.calls)
    case Ok(bin) =>
      if VerifySha(bin, info.sha256, w.sha256) then applied else Attempt(Err(HashMismatch), applied.calls)
  }

  /**
   * `fetchBin`: one fetch of the full-binary URL, then, if bytes came back,
   * one gzip decompression of them; the result is the decompressed bytes.
   */
  function FetchBinAttempt(c: Config, info: Info, w: World): (a: Attempt)
    ensures 1 <= |a.calls| <= 2 && a.calls[0] == Fetch(FullBinary, BinURLOf(c, info, w))
    ensures Transfers(a.calls)
    ensures var f := FetchOutcome(c.requester, w.httpGet, BinURLOf(c, info, w));
            && (f.Err? ==> a.bin == Err(FullFetch(f.error)) && |a.calls| == 1)
            && (f.Ok? ==> a.calls[1..] == [Decompress(f.value)] &&
                          match w.gunzip(f.value)
                          case Some(bin) => a.bin == Ok(bin)
                          case None => a.bin == Err(GunzipFailed))
  {
    var url := BinURLOf(c, info, w);
    match FetchOutcome(c.requester, w.httpGet, url)
    case Err(e) => Attempt(Err(FullFetch(e)), [Fetch(FullBinary, url)])
    case Ok(gz) =>
      var calls := [Fetch(FullBinary, url), Decompress(gz)];
      match w.gunzip(gz)
      case Some(bin) => Attempt(Ok(bin), calls)
      case None => Attempt(Err(GunzipFailed), calls)
  }

  /**
   * `fetchAndVerifyFullBin`: the downloaded bytes are returned only when
   * their digest is the expected one, otherwise `FullHashMismatch`.
   */
  function FullAttempt(c: Config, info: Info, w: World): (a: Attempt)
    ensures var fetched := FetchBinAttempt(c, info, w);
            && a.calls == fetched.calls
            && (a.bin.Ok? <==> fetched.bin.Ok? && VerifySha(fetched.bin.value, info.sha256, w.sha256))
            && (a.bin.Ok? ==> a.bin == fetched.bin)
            && (fetched.bin.Err? ==> a.bin == fetched.bin)
            && (fetched.bin.Ok? && a.bin.Err? ==> a.bin.error == FullHashMismatch)
  {
    var fetched := FetchBinAttempt(c, info, w);
    match fetched.bin
    case Err(e) => Attempt(Err(e), fetched.calls)
    case Ok(bin) =>
      if VerifySha(bin, info.sha256, w.sha256) then fetched else Attempt(Err(FullHashMismatch), fetched.calls)
  }
}
