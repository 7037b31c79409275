/**
 * What `update` and `BackgroundRun` guarantee, stated over the calls they
 * make: when the artifact paths are taken, the patch-then-full fallback,
 * the digest check in front of the installer, the executable's handle and
 * how the install outcome is reported.
 */
module UpdateProperties {
  import opened Wrappers
  import opened Types
  import opened Trace
  import opened Urls
  import opened Verifier
  import opened Resolver
  import opened Fetcher
  import opened Schedule
  import opened Orchestrator

  /** The run gets past comparing versions: the executable is open, the metadata is good and names a new version. */
  predicate ReachesArtifacts(c: Config, info: Info, w: World) {
    var fetched := FetchInfoRun(c, info, w);
    w.executableFound && w.openOk && fetched.err.None? && fetched.info.version != c.currentVersion
  }

  lemma OccurrencesSingle(x: Call, k: Kind)
    ensures Occurrences([x], k) == if KindOf(x) == k then 1 else 0
  {
  }

  lemma OccurrencesPair(x: Call, y: Call, k: Kind)
    ensures Occurrences([x, y], k) == Occurrences([x], k) + Occurrences([y], k)
  {
  }

  /** Already up to date: no artifact is fetched, nothing is installed, and the result is success. */
  lemma UpToDateFinishes(c: Config, info: Info, w: World)
    requires w.executableFound && w.openOk
    requires FetchInfoRun(c, info, w).err.None?
    requires FetchInfoRun(c, info, w).info.version == c.currentVersion
    ensures var r := UpdateRun(c, info, w);
            && r.err.None?
            && r.calls == [OpenSelf, Fetch(InfoJson, InfoURL(c.apiURL, c.cmdName, w.platform, w.queryEscape)), CloseSelf]
  {
  }

  /** A metadata failure is returned as it is, with no artifact fetched and nothing installed. */
  lemma InfoFailureStops(c: Config, info: Info, w: World)
    requires w.executableFound && w.openOk
    requires FetchInfoRun(c, info, w).err.Some?
    ensures var r := UpdateRun(c, info, w);
            && r.err == FetchInfoRun(c, info, w).err
            && r.calls == [OpenSelf, Fetch(InfoJson, InfoURL(c.apiURL, c.cmdName, w.platform, w.queryEscape)), CloseSelf]
  {
  }

  /** Nothing is opened, fetched or installed when the executable cannot be found or opened. */
  lemma NoExecutableNoCalls(c: Config, info: Info, w: World)
    requires !w.executableFound || !w.openOk
    ensures UpdateRun(c, info, w).calls == []
    ensures UpdateRun(c, info, w).err == Some(if !w.executableFound then ExecutableNotFound else OpenSelfFailed)
  {
  }

  /** The metadata step makes one call: the fetch of the metadata URL. */
  lemma InfoCallsCount(c: Config, info: Info, w: World, k: Kind)
    ensures Occurrences(FetchInfoRun(c, info, w).calls, k) == if k == KFetch(InfoJson) then 1 else 0
  {
  }

  /** The patch path fetches the patch URL once and, apart from applying the patch, does nothing else. */
  lemma PatchCallsCount(c: Config, info: Info, w: World, k: Kind)
    requires k != KApply
    ensures Occurrences(PatchAttempt(c, info, w).calls, k) == if k == KFetch(PatchBlob) then 1 else 0
  {
    var calls := PatchAttempt(c, info, w).calls;
    if |calls| == 1 {
      OccurrencesSingle(calls[0], k);
    } else {
      assert calls == [calls[0], calls[1]];
      OccurrencesPair(calls[0], calls[1], k);
      OccurrencesSingle(calls[0], k);
      OccurrencesSingle(calls[1], k);
    }
  }

  /** The full path fetches the full-binary URL once and, apart from decompressing, does nothing else. */
  lemma FullCallsCount(c: Config, info: Info, w: World, k: Kind)
    requires k != KDecompress
    ensures Occurrences(FullAttempt(c, info, w).calls, k) == if k == KFetch(FullBinary) then 1 else 0
  {
    var calls := FullAttempt(c, info, w).calls;
    if |calls| == 1 {
      OccurrencesSingle(calls[0], k);
    } else {
      assert calls == [calls[0], calls[1]];
      OccurrencesPair(calls[0], calls[1], k);
      OccurrencesSingle(calls[0], k);
      OccurrencesSingle(calls[1], k);
    }
  }

  /** The calls `update` makes after the transfers: the closes and at most one install. */
  lemma TailCount(d: Decision, k: Kind)
    ensures Occurrences(Tail(d), k) ==
              (if k == KClose then (if d.InstallBytes? then 2 else 1) else 0) +
              (if k == KInstall && d.InstallBytes? then 1 else 0)
  {
    if d.InstallBytes? {
      assert Tail(d) == [CloseSelf] + [Install(d.bin), CloseSelf];
      OccurrencesAppend([CloseSelf], [Install(d.bin), CloseSelf], k);
      OccurrencesPair(Install(d.bin), CloseSelf, k);
      OccurrencesSingle(Install(d.bin), k);
    }
    OccurrencesSingle(CloseSelf, k);
  }

  /** Past the version comparison the transfers are the metadata fetch, the patch path and, only if that failed, the full path. */
  lemma TransfersShape(c: Config, info: Info, w: World)
    requires ReachesArtifacts(c, info, w)
    ensures var fetched := FetchInfoRun(c, info, w);
            var patch := PatchAttempt(c, fetched.info, w);
            PlanUpdate(c, info, w).transfers ==
              fetched.calls + patch.calls + (if patch.bin.Ok? then [] else FullAttempt(c, fetched.info, w).calls)
  {
  }

  /**
   * Past the version comparison the patch is always tried first, whatever
   * `DiffURL` holds, and exactly once.
   */
  lemma PatchTriedFirst(c: Config, info: Info, w: World)
    requires ReachesArtifacts(c, info, w)
    ensures var r := UpdateRun(c, info, w);
            && |r.calls| > 2
            && r.calls[2] == Fetch(PatchBlob, PatchURLOf(c, FetchInfoRun(c, info, w).info, w))
            && Occurrences(r.calls, KFetch(PatchBlob)) == 1
  {
    var fetched := FetchInfoRun(c, info, w);
    var patch := PatchAttempt(c, fetched.info, w);
    var plan := PlanUpdate(c, info, w);
    var rest := if patch.bin.Ok? then [] else FullAttempt(c, fetched.info, w).calls;
    var k := KFetch(PatchBlob);
    TransfersShape(c, info, w);
    var calls := [OpenSelf] + fetched.calls + patch.calls + (rest + Tail(plan.decision));
    assert UpdateRun(c, info, w).calls == calls;
    assert calls[2] == patch.calls[0];
    OccurrencesAppend([OpenSelf] + fetched.calls + patch.calls, rest + Tail(plan.decision), k);
    OccurrencesAppend([OpenSelf] + fetched.calls, patch.calls, k);
    OccurrencesAppend([OpenSelf], fetched.calls, k);
    OccurrencesAppend(rest, Tail(plan.decision), k);
    OccurrencesSingle(OpenSelf, k);
    InfoCallsCount(c, info, w, k);
    PatchCallsCount(c, fetched.info, w, k);
    if !patch.bin.Ok? { FullCallsCount(c, fetched.info, w, k); }
    TailCount(plan.decision, k);
  }

  /**
   * In `[OpenSelf] + transfers + Tail(d)` the only install is the one the
   * decision asks for, right after the first `CloseSelf`.
   */
  lemma InstallAt(transfers: seq<Call>, d: Decision, i: int)
    requires Transfers(transfers)
    requires 0 <= i < |[OpenSelf] + transfers + Tail(d)|
    requires ([OpenSelf] + transfers + Tail(d))[i].Install?
    ensures d.InstallBytes? && i == |transfers| + 2
    ensures ([OpenSelf] + transfers + Tail(d))[i] == Install(d.bin)
    ensures ([OpenSelf] + transfers + Tail(d))[..i] == [OpenSelf] + transfers + [CloseSelf]
  {
  }

  /**
   * Past the version comparison, the full binary is fetched exactly once
   * when the patch path failed (a fetch error, an apply error or a digest
   * mismatch), right after the patch calls, and never when it succeeded.
   */
  lemma FallbackExactlyOnce(c: Config, info: Info, w: World)
    requires ReachesArtifacts(c, info, w)
    ensures var fetched := FetchInfoRun(c, info, w);
            var patch := PatchAttempt(c, fetched.info, w);
            var r := UpdateRun(c, info, w);
            && Occurrences(r.calls, KFetch(FullBinary)) == (if patch.bin.Ok? then 0 else 1)
            && (patch.bin.Err? ==> |r.calls| > 2 + |patch.calls| &&
                                   r.calls[2 + |patch.calls|] == Fetch(FullBinary, BinURLOf(c, fetched.info, w)))
  {
    var fetched := FetchInfoRun(c, info, w);
    var patch := PatchAttempt(c, fetched.info, w);
    var plan := PlanUpdate(c, info, w);
    var rest := if patch.bin.Ok? then [] else FullAttempt(c, fetched.info, w).calls;
    var k := KFetch(FullBinary);
    TransfersShape(c, info, w);
    var calls := [OpenSelf] + fetched.calls + patch.calls + (rest + Tail(plan.decision));
    assert UpdateRun(c, info, w).calls == calls;
    if patch.bin.Err? {
      assert calls[2 + |patch.calls|] == rest[0];
    }
    OccurrencesAppend([OpenSelf] + fetched.calls + patch.calls, rest + Tail(plan.decision), k);
    OccurrencesAppend([OpenSelf] + fetched.calls, patch.calls, k);
    OccurrencesAppend([OpenSelf], fetched.calls, k);
    OccurrencesAppend(rest, Tail(plan.decision), k);
    OccurrencesSingle(OpenSelf, k);
    InfoCallsCount(c, info, w, k);
    PatchCallsCount(c, fetched.info, w, k);
    if patch.bin.Err? { FullCallsCount(c, fetched.info, w, k); }
    TailCount(plan.decision, k);
  }

  /**
   * A patch that applies and verifies is what gets installed: the full
   * binary is never fetched, and the run reports the install's outcome.
   */
  lemma PatchSucceededInstalls(c: Config, info: Info, w: World)
    requires ReachesArtifacts(c, info, w)
    requires PatchAttempt(c, FetchInfoRun(c, info, w).info, w).bin.Ok?
    ensures var fetched := FetchInfoRun(c, info, w);
            var patch := PatchAttempt(c, fetched.info, w);
            var r := UpdateRun(c, info, w);
            && r.calls == [OpenSelf] + fetched.calls + patch.calls + [CloseSelf, Install(patch.bin.value), CloseSelf]
            && r.err == ClassifyInstall(w.install(patch.bin.value))
  {
  }

  /**
   * When the patch path and then the full path both fail, the full path's
   * error is returned and the installer is never called.
   */
  lemma FullFailureStops(c: Config, info: Info, w: World)
    requires ReachesArtifacts(c, info, w)
    requires PatchAttempt(c, FetchInfoRun(c, info, w).info, w).bin.Err?
    requires FullAttempt(c, FetchInfoRun(c, info, w).info, w).bin.Err?
    ensures var r := UpdateRun(c, info, w);
            && r.err == Some(FullAttempt(c, FetchInfoRun(c, info, w).info, w).bin.error)
            && Occurrences(r.calls, KInstall) == 0
  {
    var plan := PlanUpdate(c, info, w);
    OccurrencesAppend([OpenSelf] + plan.transfers, Tail(plan.decision), KInstall);
    OccurrencesAppend([OpenSelf], plan.transfers, KInstall);
    OccurrencesSingle(OpenSelf, KInstall);
    TransfersHaveNo(plan.transfers, KInstall);
    TailCount(plan.decision, KInstall);
  }

  /**
   * A failed patch path followed by a full binary that downloads,
   * decompresses and verifies ends in installing that binary, and the run
   * reports exactly the install outcome: with a clean install, no error.
   */
  lemma PatchFailureRecovered(c: Config, info: Info, w: World)
    requires ReachesArtifacts(c, info, w)
    requires PatchAttempt(c, FetchInfoRun(c, info, w).info, w).bin.Err?
    requires FullAttempt(c, FetchInfoRun(c, info, w).info, w).bin.Ok?
    ensures var bin := FullAttempt(c, FetchInfoRun(c, info, w).info, w).bin.value;
            var r := UpdateRun(c, info, w);
            && r.calls[|r.calls| - 3..] == [CloseSelf, Install(bin), CloseSelf]
            && r.err == ClassifyInstall(w.install(bin))
            && (!w.install(bin).failed && !w.install(bin).recoveryFailed ==> r.err.None?)
  {
  }

  /** The installer only ever receives bytes whose SHA-256 is the 32-byte digest in the final `Info`. */
  lemma InstalledBytesVerified(c: Config, info: Info, w: World)
    ensures var r := UpdateRun(c, info, w);
            forall i :: 0 <= i < |r.calls| && r.calls[i].Install? ==>
              w.sha256(r.calls[i].bin) == r.info.sha256 && |r.info.sha256| == SHA256_SIZE
  {
  }

  /**
   * The executable's handle is closed when the installer is called, and on
   * every way out of `update`.
   */
  lemma HandleClosedForInstall(c: Config, info: Info, w: World)
    ensures var r := UpdateRun(c, info, w);
            && !HandleOpen(r.calls)
            && forall i :: 0 <= i < |r.calls| && r.calls[i].Install? ==> !HandleOpen(r.calls[..i])
  {
  }

  /**
   * Every fetch, patch and decompression of `update` happens while the
   * executable's handle is open: the patch is applied to the open file.
   */
  lemma TransfersWhileOpen(c: Config, info: Info, w: World)
    ensures var r := UpdateRun(c, info, w);
            forall i :: 0 <= i < |r.calls| && IsTransfer(r.calls[i]) ==> HandleOpen(r.calls[..i])
  {
    var r := UpdateRun(c, info, w);
    if w.executableFound && w.openOk {
      var plan := PlanUpdate(c, info, w);
      var n := |plan.transfers|;
      assert r.calls == [OpenSelf] + plan.transfers + Tail(plan.decision);
      forall i | 0 <= i < |r.calls| && IsTransfer(r.calls[i]) ensures HandleOpen(r.calls[..i]) {
        assert 1 <= i <= n;
        assert r.calls[..i] == [OpenSelf] + plan.transfers[..i - 1];
        TransfersKeepHandle([OpenSelf], plan.transfers[..i - 1]);
      }
    }
  }

  /**
   * `update` installs at most once, and when it installs, its result is
   * the classification of that install's outcome.
   */
  lemma InstallOutcomeReported(c: Config, info: Info, w: World)
    ensures var r := UpdateRun(c, info, w);
            && Occurrences(r.calls, KInstall) <= 1
            && forall i :: 0 <= i < |r.calls| && r.calls[i].Install? ==>
                 r.err == ClassifyInstall(w.install(r.calls[i].bin))
  {
    var r := UpdateRun(c, info, w);
    if w.executableFound && w.openOk {
      var plan := PlanUpdate(c, info, w);
        OccurrencesAppend([OpenSelf] + plan.transfers, Tail(plan.decision), KInstall);
      OccurrencesAppend([OpenSelf], plan.transfers, KInstall);
      OccurrencesSingle(OpenSelf, KInstall);
      TransfersHaveNo(plan.transfers, KInstall);
      TailCount(plan.decision, KInstall);
      forall i | 0 <= i < |r.calls| && r.calls[i].Install?
        ensures r.err == ClassifyInstall(w.install(r.calls[i].bin))
      {
        InstallAt(plan.transfers, plan.decision, i);
      }
    }
  }

  /**
   * A development build's `BackgroundRun` never updates: no call is made,
   * the token and `Info` are untouched, and it returns no error unless the
   * state directory could not be found or created first.
   */
  lemma DevBuildNeverUpdates(c: Config, info: Info, file: TokenFile, w: World)
    requires c.currentVersion == DEV_VERSION
    ensures var r := BackgroundRunOutcome(c, info, file, w);
            && r.calls == [] && r.file == file && r.info == info
            && r.err == (if !w.executableFound then Some(ExecutableNotFound)
                         else if !w.mkdirOk then Some(StateDirFailed) else None)
  {
  }

  /** A declined check is a normal outcome: no error, no call, nothing changed. */
  lemma DeclinedCheckIsQuiet(c: Config, info: Info, file: TokenFile, w: World)
    requires w.executableFound && w.mkdirOk
    requires !WantUpdateRun(c, file, w).want
    ensures BackgroundRunOutcome(c, info, file, w) == BackgroundOutcome(None, info, file, [])
  {
  }

  /**
   * `BackgroundRun` contacts nothing unless the scheduler wanted a check
   * (so the new deadline was written) and the executable can be replaced;
   * then it does exactly what `update` does.
   */
  lemma UpdatesOnlyWhenWanted(c: Config, info: Info, file: TokenFile, w: World)
    requires BackgroundRunOutcome(c, info, file, w).calls != []
    ensures var r := BackgroundRunOutcome(c, info, file, w);
            && WantUpdateRun(c, file, w).want && w.canUpdate
            && r.file == Present(w.formatTime(Deadline(w.now, w.jitter)))
            && r.calls == UpdateRun(c, info, w).calls && r.err == UpdateRun(c, info, w).err
  {
  }

  /** 32 zero bytes. */
  function ZeroDigest(): Bytes {
    seq(SHA256_SIZE, _ => 0 as byte)
  }

  /**
   * A concrete case: the metadata announces a new version with an
   * all-zero digest. Patched bytes whose SHA-256 is not all zero are
   * rejected with `HashMismatch` and the full binary is fetched instead,
   * once; whatever gets installed hashes to all zeros.
   */
  lemma ZeroDigestPatchFallsBack(c: Config, info: Info, w: World)
    requires ReachesArtifacts(c, info, w)
    requires FetchInfoRun(c, info, w).info.sha256 == ZeroDigest()
    requires var applied := ApplyPatchAttempt(c, FetchInfoRun(c, info, w).info, w);
             applied.bin.Ok? && w.sha256(applied.bin.value) != ZeroDigest()
    ensures var r := UpdateRun(c, info, w);
            && PatchAttempt(c, FetchInfoRun(c, info, w).info, w).bin == Err(HashMismatch)
            && Occurrences(r.calls, KFetch(FullBinary)) == 1
            && forall i :: 0 <= i < |r.calls| && r.calls[i].Install? ==> w.sha256(r.calls[i].bin) == ZeroDigest()
  {
    FallbackExactlyOnce(c, info, w);
    InstalledBytesVerified(c, info, w);
  }
}
