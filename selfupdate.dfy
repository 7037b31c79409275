/**
 * The `Updater` object and the persisted check token, as state updated in
 * place. Each method follows its Go counterpart step by step and is proved
 * to do exactly what the matching function of the model describes.
 * The ghost `calls` records the calls made so far, and the ghost `selfOpen`
 * records whether the running executable's handle is open.
 */
module SelfUpdate {
  import opened Wrappers
  import opened Types
  import opened Trace
  import opened Urls
  import opened Verifier
  import opened Transport
  import opened Resolver
  import opened Fetcher
  import opened Schedule
  import opened Orchestrator
  import UpdateProperties

  /** The token file under the state directory. */
  class CheckTokenFile {
    var state: TokenFile

    constructor (state: TokenFile)
      ensures this.state == state
    {
      this.state := state;
    }

    /**
     * `writeTime`: store `t` in RFC 3339 form; true exactly when the write
     * succeeded. A failed write leaves the token as it was.
     */
    method WriteTime(t: Time, w: World) returns (ok: bool)
      modifies this
      ensures ok == w.writeOk
      ensures state == if ok then Present(w.formatTime(t)) else old(state)
    {
      ok := w.writeOk;
      if ok {
        state := Present(w.formatTime(t));
      }
    }
  }

  class Updater {
    const currentVersion: string
    const apiURL: string
    const cmdName: string
    const binURL: string
    const diffURL: string
    const dir: string
    const forceCheck: bool
    const requester: Option<string -> Fetched>
    var info: Info
    ghost var selfOpen: bool
    ghost var calls: seq<Call>

    function Cfg(): Config {
      Config(currentVersion, apiURL, cmdName, binURL, diffURL, dir, forceCheck, requester)
    }

    constructor (currentVersion: string, apiURL: string, cmdName: string, binURL: string,
                 diffURL: string, dir: string, forceCheck: bool, requester: Option<string -> Fetched>)
      ensures this.currentVersion == currentVersion && this.apiURL == apiURL && this.cmdName == cmdName
      ensures this.binURL == binURL && this.diffURL == diffURL && this.dir == dir
      ensures this.forceCheck == forceCheck && this.requester == requester
      ensures info == EMPTY_INFO && !selfOpen && calls == []
    {
      this.currentVersion, this.apiURL, this.cmdName := currentVersion, apiURL, cmdName;
      this.binURL, this.diffURL, this.dir := binURL, diffURL, dir;
      this.forceCheck, this.requester := forceCheck, requester;
      info := EMPTY_INFO;
      selfOpen, calls := false, [];
    }

    /** `fetch`: ask the requester for `url`; a nil reader without an error is a failure. */
    method Fetch(artifact: Artifact, url: string, w: World) returns (r: Result<Bytes, FetchFailure>)
      modifies this`calls
      ensures r == FetchOutcome(requester, w.httpGet, url)
      ensures calls == old(calls) + [Call.Fetch(artifact, url)]
    {
      calls := calls + [Call.Fetch(artifact, url)];
      if requester.None? {
        var body := w.httpGet(url);
        if body.None? {
          return Err(TransportError);
        }
        return Ok(body.value);
      }
      var fetched := requester.value(url);
      if fetched.FetchFailed? {
        return Err(TransportError);
      }
      if fetched.NilStream? {
        return Err(NilReader);
      }
      return Ok(fetched.body);
    }

    /** `fetchInfo`: decode the metadata into `info`, rejecting a digest that is not 32 bytes. */
    method FetchInfo(w: World) returns (err: Option<Error>)
      modifies this`info, this`calls
      ensures var r := FetchInfoRun(Cfg(), old(info), w);
              err == r.err && info == r.info && calls == old(calls) + r.calls
    {
      var url := InfoURL(apiURL, cmdName, w.platform, w.queryEscape);
      var fetched := Fetch(InfoJson, url, w);
      if fetched.Err? {
        return Some(InfoFetch(fetched.error));
      }
      var decoded := w.decodeInfo(info, fetched.value);
      info := decoded.info;
      if !decoded.ok {
        return Some(InfoDecode);
      }
      if |info.sha256| != SHA256_SIZE {
        return Some(BadInfoHash);
      }
      return None;
    }

    /** `fetchAndApplyPatch`: fetch the patch and apply it to the open executable. */
    method FetchAndApplyPatch(w: World) returns (bin: Result<Bytes, Error>)
      requires selfOpen
      modifies this`calls
      ensures var a := ApplyPatchAttempt(Cfg(), info, w); bin == a.bin && calls == old(calls) + a.calls
    {
      var url := PatchURL(diffURL, cmdName, currentVersion, info.version, w.platform, w.queryEscape);
      var fetched := Fetch(PatchBlob, url, w);
      if fetched.Err? {
        return Err(PatchFetch(fetched.error));
      }
      calls := calls + [ApplyPatch(fetched.value)];
      var patched := w.bspatch(w.selfImage, fetched.value);
      if patched.None? {
        return Err(PatchApply);
      }
      return Ok(patched.value);
    }

    /** `fetchAndVerifyPatch`: the patched bytes, if their digest is the expected one. */
    method FetchAndVerifyPatch(w: World) returns (bin: Result<Bytes, Error>)
      requires selfOpen
      modifies this`calls
      ensures var a := PatchAttempt(Cfg(), info, w); bin == a.bin && calls == old(calls) + a.calls
      ensures bin.Ok? ==> VerifySha(bin.value, info.sha256, w.sha256)
    {
      bin := FetchAndApplyPatch(w);
      if bin.Err? {
        return;
      }
      if !VerifySha(bin.value, info.sha256, w.sha256) {
        return Err(HashMismatch);
      }
    }

    /** `fetchBin`: fetch the gzipped full binary and decompress it. */
    method FetchBin(w: World) returns (bin: Result<Bytes, Error>)
      modifies this`calls
      ensures var a := FetchBinAttempt(Cfg(), info, w); bin == a.bin && calls == old(calls) + a.calls
    {
      var url := BinURL(binURL, cmdName, info.version, w.platform, w.queryEscape);
      var fetched := Fetch(FullBinary, url, w);
      if fetched.Err? {
        return Err(FullFetch(fetched.error));
      }
      calls := calls + [Decompress(fetched.value)];
      var unzipped := w.gunzip(fetched.value);
      if unzipped.None? {
        return Err(GunzipFailed);
      }
      return Ok(unzipped.value);
    }

    /** `fetchAndVerifyFullBin`: the full binary, if its digest is the expected one. */
    method FetchAndVerifyFullBin(w: World) returns (bin: Result<Bytes, Error>)
      modifies this`calls
      ensures var a := FullAttempt(Cfg(), info, w); bin == a.bin && calls == old(calls) + a.calls
      ensures bin.Ok? ==> VerifySha(bin.value, info.sha256, w.sha256)
    {
      bin := FetchBin(w);
      if bin.Err? {
        return;
      }
      if !VerifySha(bin.value, info.sha256, w.sha256) {
        return Err(FullHashMismatch);
      }
    }

    /** The fallback inside `update`: the patch path, then the full binary if the patch failed. */
    method FetchVerifiedBinary(w: World) returns (bin: Result<Bytes, Error>)
      requires selfOpen
      modifies this`calls
      ensures var a := ObtainBinary(Cfg(), info, w); bin == a.bin && calls == old(calls) + a.calls
    {
      ghost var start := calls;
      bin := FetchAndVerifyPatch(w);
      if bin.Err? {
        ghost var patchCalls := calls[|start|..];
        bin := FetchAndVerifyFullBin(w);
        assert calls == start + (patchCalls + FullAttempt(Cfg(), info, w).calls);
      }
    }

    /** `os.Open` on the running executable, once it is known to succeed. */
    method OpenSelf()
      modifies this`selfOpen, this`calls
      ensures selfOpen && calls == old(calls) + [Call.OpenSelf]
    {
      selfOpen := true;
      calls := calls + [Call.OpenSelf];
    }

    /** `old.Close()` on the running executable. */
    method CloseSelf()
      modifies this`selfOpen, this`calls
      ensures !selfOpen && calls == old(calls) + [Call.CloseSelf]
    {
      selfOpen := false;
      calls := calls + [Call.CloseSelf];
    }

    /**
     * `up.FromStream`: replace the executable with `bin`. The handle must be
     * closed first, since on Windows an open file cannot be renamed.
     */
    method InstallFromStream(bin: Bytes, w: World) returns (report: InstallReport)
      requires !selfOpen
      modifies this`calls
      ensures report == w.install(bin) && calls == old(calls) + [Install(bin)]
    {
      calls := calls + [Install(bin)];
      report := w.install(bin);
    }

    /**
     * The steps of `update` while the executable is open: fetch the
     * metadata, stop when it failed or the version is current, otherwise
     * obtain verified bytes through the fallback.
     */
    method Prepare(w: World) returns (d: Decision)
      requires selfOpen
      modifies this`info, this`calls
      ensures var p := PlanUpdate(Cfg(), old(info), w);
              d == p.decision && info == p.info && calls == old(calls) + p.transfers
    {
      var err := FetchInfo(w);
      if err.Some? {
        return Finish(err);
      }
      if info.version == currentVersion {
        return Finish(None);
      }
      var bin := FetchVerifiedBinary(w);
      if bin.Err? {
        return Finish(Some(bin.error));
      }
      return InstallBytes(bin.value);
    }

    /**
     * `update`: fetch the metadata, stop when already current, try the
     * patch and fall back to the full binary, close the executable, install
     * and classify the outcome. The handle is closed on every way out, and
     * only verified bytes reach the installer. The steps themselves are in
     * `UpdateSteps`; keeping the proof about the installed bytes apart keeps
     * each method's proof small.
     */
    method Update(w: World) returns (err: Option<Error>)
      requires !selfOpen
      modifies this`info, this`calls, this`selfOpen
      ensures var r := UpdateRun(Cfg(), old(info), w);
              err == r.err && info == r.info && calls == old(calls) + r.calls
      ensures !selfOpen
      ensures forall i :: |old(calls)| <= i < |calls| && calls[i].Install? ==>
                w.sha256(calls[i].bin) == info.sha256 && |info.sha256| == SHA256_SIZE
    {
      ghost var before, info0 := calls, info;
      err := UpdateSteps(w);
      ghost var r := UpdateRun(Cfg(), info0, w);
      UpdateProperties.InstalledBytesVerified(Cfg(), info0, w);
      forall i | |before| <= i < |calls| && calls[i].Install?
        ensures w.sha256(calls[i].bin) == info.sha256 && |info.sha256| == SHA256_SIZE
      {
        assert calls[i] == r.calls[i - |before|];
      }
    }

    /** The steps of `update`, in the order the Go code takes them. */
    method UpdateSteps(w: World) returns (err: Option<Error>)
      requires !selfOpen
      modifies this`info, this`calls, this`selfOpen
      ensures var r := UpdateRun(Cfg(), old(info), w);
              err == r.err && info == r.info && calls == old(calls) + r.calls
      ensures !selfOpen
    {
      if !w.executableFound {
        return Some(ExecutableNotFound);
      }
      if !w.openOk {
        return Some(OpenSelfFailed);
      }
      err := RunOpened(w);
    }

    /** `update` once the executable was found and opened: the plan, then its conclusion. */
    method RunOpened(w: World) returns (err: Option<Error>)
      requires !selfOpen && w.executableFound && w.openOk
      modifies this`info, this`calls, this`selfOpen
      ensures var r := UpdateRun(Cfg(), old(info), w);
              err == r.err && info == r.info && calls == old(calls) + r.calls
      ensures !selfOpen
    {
      ghost var before, plan := calls, PlanUpdate(Cfg(), info, w);
      assert UpdateRun(Cfg(), info, w) ==
               Run(Outcome(plan.decision, w), plan.info, [Call.OpenSelf] + plan.transfers + Tail(plan.decision));
      OpenSelf();
      var d := Prepare(w);
      err := Conclude(d, w);
      assert calls == before + ([Call.OpenSelf] + plan.transfers + Tail(d));
    }

    /**
     * The end of `update`: with bytes to install, close the executable
     * (Windows cannot rename an open file), install and classify the
     * outcome; then the deferred `Close`.
     */
    method Conclude(d: Decision, w: World) returns (err: Option<Error>)
      requires selfOpen
      modifies this`calls, this`selfOpen
      ensures err == Outcome(d, w) && calls == old(calls) + Tail(d) && !selfOpen
    {
      match d {
        case Finish(e) =>
          err := e;
        case InstallBytes(bin) =>
          CloseSelf();
          var report := InstallFromStream(bin, w);
          err := ClassifyInstall(report);
      }
      CloseSelf();  // the deferred Close
    }

    /**
     * `wantUpdate`: skip in a dev build or before the stored deadline unless
     * forced; otherwise store a deadline 24 to 48 hours ahead and want the
     * check exactly when that write succeeded.
     */
    method WantUpdate(token: CheckTokenFile, w: World) returns (want: bool)
      modifies token
      ensures var r := WantUpdateRun(Cfg(), old(token.state), w); want == r.want && token.state == r.file
    {
      if !w.executableFound {
        return false;
      }
      if currentVersion == DEV_VERSION || (!forceCheck && After(ReadTime(token.state, w.parseTime, w.now), w.now)) {
        return false;
      }
      var wait := CHECK_INTERVAL + RandDuration(CHECK_INTERVAL, w.jitter);
      want := token.WriteTime(w.now + wait, w);
    }

    /**
     * `BackgroundRun`: create the state directory, consult the scheduler,
     * check that the executable can be replaced, then update.
     */
    method BackgroundRun(token: CheckTokenFile, w: World) returns (err: Option<Error>)
      requires !selfOpen
      modifies this`info, this`calls, this`selfOpen, token
      ensures var r := BackgroundRunOutcome(Cfg(), old(info), old(token.state), w);
              err == r.err && info == r.info && token.state == r.file && calls == old(calls) + r.calls
      ensures !selfOpen
    {
      if !w.executableFound {
        return Some(ExecutableNotFound);
      }
      if !w.mkdirOk {
        return Some(StateDirFailed);
      }
      var want := WantUpdate(token, w);
      if want {
        if !w.canUpdate {
          return Some(CannotUpdate);
        }
        err := Update(w);
        return;
      }
      return None;
    }
  }
}
