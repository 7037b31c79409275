/**
 * `update` and `BackgroundRun` as functions of the configuration, the
 * current `Info`, the token file and the world: what they return, what
 * `Info` ends up holding and the calls they make, in order.
 */
module Orchestrator {
  import opened Wrappers
  import opened Types
  import opened Trace
  import opened Verifier
  import opened Resolver
  import opened Fetcher
  import opened Schedule

  /**
   * The outcome of `up.FromStream`: a failed recovery is reported whatever
   * the install error was; otherwise the install error, or none.
   */
  function ClassifyInstall(report: InstallReport): (err: Option<Error>)
    ensures report.recoveryFailed ==> err == Some(InstallAndRecoveryFailed)
    ensures !report.recoveryFailed ==> (err.None? <==> !report.failed) && (report.failed ==> err == Some(InstallFailed))
  {
    if report.recoveryFailed then Some(InstallAndRecoveryFailed)
    else if report.failed then Some(InstallFailed)
    else None
  }

  /** Where `update` is headed once the executable is open: install these bytes, or return. */
  datatype Decision = InstallBytes(bin: Bytes) | Finish(err: Option<Error>)

  datatype Plan = Plan(info: Info, transfers: seq<Call>, decision: Decision)

  /**
   * The fallback in `update`: the patch path first and, only when it fails,
   * the full binary, once. Bytes come out only when their digest verified.
   */
  function ObtainBinary(c: Config, info: Info, w: World): (a: Attempt)
    ensures Transfers(a.calls)
    ensures a.bin.Ok? ==> VerifySha(a.bin.value, info.sha256, w.sha256)
    ensures PatchAttempt(c, info, w).bin.Ok? ==> a == PatchAttempt(c, info, w)
    ensures PatchAttempt(c, info, w).bin.Err? ==>
              a.bin == FullAttempt(c, info, w).bin &&
              a.calls == PatchAttempt(c, info, w).calls + FullAttempt(c, info, w).calls
  {
    var patch := PatchAttempt(c, info, w);
    if patch.bin.Ok? then patch
    else
      var full := FullAttempt(c, info, w);
      TransfersAppend(patch.calls, full.calls);
      Attempt(full.bin, patch.calls + full.calls)
  }

  /**
   * The part of `update` between opening and closing the executable:
   * fetch the metadata; stop if that failed or the version is current;
   * otherwise obtain verified bytes by the fallback. Only bytes whose
   * digest is the 32-byte one in `Info` are ever headed for install.
   */
  function PlanUpdate(c: Config, info: Info, w: World): (p: Plan)
    ensures Transfers(p.transfers)
    ensures p.decision.InstallBytes? ==>
              VerifySha(p.decision.bin, p.info.sha256, w.sha256) && |p.info.sha256| == SHA256_SIZE
  {
    var fetched := FetchInfoRun(c, info, w);
    if fetched.err.Some? then Plan(fetched.info, fetched.calls, Finish(fetched.err))
    else if fetched.info.version == c.currentVersion then Plan(fetched.info, fetched.calls, Finish(None))
    else
      var obtained := ObtainBinary(c, fetched.info, w);
      TransfersAppend(fetched.calls, obtained.calls);
      Plan(fetched.info, fetched.calls + obtained.calls,
           if obtained.bin.Ok? then InstallBytes(obtained.bin.value) else Finish(Some(obtained.bin.error)))
  }

  /**
   * The calls after the plan: when there are bytes to install, the
   * executable is closed first (Windows cannot rename an open file), then
   * the install runs; the deferred `Close` comes last on every way out.
   */
  function Tail(d: Decision): (t: seq<Call>)
    ensures |t| >= 1 && t[|t| - 1] == CloseSelf
    ensures forall i :: 0 <= i < |t| && t[i].Install? ==> d.InstallBytes? && t[i] == Install(d.bin)
  {
    match d
    case InstallBytes(bin) => [CloseSelf, Install(bin), CloseSelf]
    case Finish(_) => [CloseSelf]
  }

  /** The error `update` returns for a decision: the plan's own, or the install's classified outcome. */
  function Outcome(d: Decision, w: World): (err: Option<Error>)
    ensures err.None? <==> (d.Finish? && d.err.None?) ||
                           (d.InstallBytes? && !w.install(d.bin).failed && !w.install(d.bin).recoveryFailed)
  {
    match d
    case InstallBytes(bin) => ClassifyInstall(w.install(bin))
    case Finish(err) => err
  }

  /**
   * `update`: locate and open the running executable, carry out the plan,
   * close the executable before installing, install, and close it again
   * when the deferred `Close` runs on the way out.
   */
  function UpdateRun(c: Config, info: Info, w: World): (r: Run)
    ensures r.calls == [] <==> !w.executableFound || !w.openOk
    ensures r.calls != [] ==> r.calls[0] == OpenSelf && r.calls[|r.calls| - 1] == CloseSelf
  {
    if !w.executableFound then Run(Some(ExecutableNotFound), info, [])
    else if !w.openOk then Run(Some(OpenSelfFailed), info, [])
    else
      var plan := PlanUpdate(c, info, w);
      Run(Outcome(plan.decision, w), plan.info, [OpenSelf] + plan.transfers + Tail(plan.decision))
  }

  datatype BackgroundOutcome = BackgroundOutcome(err: Option<Error>, info: Info, file: TokenFile, calls: seq<Call>)

  /**
   * `BackgroundRun`: find and create the state directory, ask the
   * scheduler, check that the executable can be replaced, and update.
   * A declined check is not an error.
   */
  function BackgroundRunOutcome(c: Config, info: Info, file: TokenFile, w: World): BackgroundOutcome {
    if !w.executableFound then BackgroundOutcome(Some(ExecutableNotFound), info, file, [])
    else if !w.mkdirOk then BackgroundOutcome(Some(StateDirFailed), info, file, [])
    else
      var check := WantUpdateRun(c, file, w);
      if !check.want then BackgroundOutcome(None, info, check.file, [])
      else if !w.canUpdate then BackgroundOutcome(Some(CannotUpdate), info, check.file, [])
      else
        var run := UpdateRun(c, info, w);
        BackgroundOutcome(run.err, run.info, check.file, run.calls)
  }
}
