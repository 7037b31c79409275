# go-selfupdate: the update cycle, modelled in Dafny

This project models the self-update cycle of `go-selfupdate` (`selfupdate/selfupdate.go`).
A program built with the library calls `Updater.BackgroundRun`, which goes through these steps:

1. It locates its own executable and the state directory next to it.
2. The check scheduler (`wantUpdate`) decides whether a check is due. The decision rests on a persisted
   token holding the earliest instant of the next check. When a check goes ahead, a new deadline
   24 to 48 hours ahead is written first.
3. It asks the installer whether the executable can be replaced.
4. It runs `update`:
   - open the running executable;
   - fetch the JSON metadata into `Updater.Info` and stop if the version is already current;
   - try a bsdiff patch against the running executable;
   - if the patch fails, fall back once to the gzipped full binary;
   - check the SHA-256 of the bytes obtained against `Info`;
   - close the executable, install, and report the outcome.

The model is split into modules that follow these pieces:

- `Types`: the values involved (`Info`, the check token, the errors) and a `World` record.
  `World` stands for everything the package delegates to the operating system, the network or
  another library. A library call that only succeeds or fails is a yes/no field. Any other library
  call is an uninterpreted function field: HTTP GET, JSON decoding, bspatch, gunzip, SHA-256,
  `url.QueryEscape`, RFC 3339 formatting and parsing, and the installer.
- `Urls` and `Paths`: the three request URLs. Given an escaper that, like `url.QueryEscape`, never
  outputs '/' and is injective, each of the three URLs determines the values it was built from.
- `Transport`, `Verifier`, `Resolver`, `Fetcher`: `fetch`, `verifySha`, `fetchInfo` and the two
  artifact paths, as functions that return their result together with the calls they make.
- `Orchestrator`: the fallback (`ObtainBinary`), the part of `update` between open and close
  (`PlanUpdate`), all of `update` (`UpdateRun`) and `BackgroundRun` (`BackgroundRunOutcome`).
  Each is a function from the configuration, the current `Info`, the token and the world to the
  error returned, the final `Info`, and the sequence of calls made.
- `Schedule`: the check scheduler (`wantUpdate`, `readTime`, `randDuration`, the token write).
- `Trace`: the calls (`OpenSelf`, `Fetch`, `ApplyPatch`, `Decompress`, `CloseSelf`, `Install`),
  counted per kind, and whether the executable's handle is open after a prefix of them.
- `UpdateProperties`: what `update` and `BackgroundRun` guarantee:
  - which artifacts are fetched and when;
  - exactly one fallback;
  - only verified bytes reach the installer;
  - the handle is closed before the install and on the way out;
  - the install outcome is reported.
- `SelfUpdate`: the `Updater` as a class.
  - `Info` is a field that `fetchInfo` overwrites in place.
  - A ghost flag records whether the executable is open.
  - A ghost sequence records the calls made so far.
  - The check token is an object that the scheduler rewrites.
  - Each method follows the Go code step by step. It is proved to leave exactly the result, `Info`
    and calls that the matching function of the model describes.

Points where the code's behaviour is easy to misread:

- **Patch path.** The patch path is tried on every update, whatever `DiffURL` holds. `DiffURL` only
  decides whether a patch error is logged (`selfupdate/selfupdate.go:179`).
- **Token read policy.** `readTime` returns one of three values:
  - a missing file gives the zero time, so a check is due;
  - any other read error, or text that does not parse as RFC 3339, gives now + 1000 hours, so the
    check is skipped.

  A consequence, proved as `Schedule.CorruptTokenSuppressesForever`: an unreadable or unparseable
  token suppresses every unforced check at every later run. A skipped check never rewrites the token,
  and each run computes the 1000 hours from its own clock.
- **Full-binary digest failure.** On the full-binary path a bad digest is `ErrHashMismatch` wrapped
  in another error (`selfupdate/selfupdate.go:302`), so it is not equal to `ErrHashMismatch` at
  line 186. The model keeps it as its own error, `FullHashMismatch`, distinct from the patch path's
  `HashMismatch`. The two differ only in what gets logged; control flow is the same.

## Model

| member | source | states |
|---|---|---|
| Transport.FetchOutcome | selfupdate/selfupdate.go:356-372 | without a `Requester` the result is the default HTTP fetch; with one, a reader comes back only for a non-nil stream; a nil reader without an error is an error of its own kind, and that case is the only source of that error |
| Verifier.VerifySha | selfupdate/selfupdate.go:389-403 | true exactly when the SHA-256 of the bytes equals the expected digest; an expected digest that is not 32 bytes never matches |
| Urls.InfoURL | selfupdate/selfupdate.go:211 | the metadata URL starts with `ApiURL` and ends in `.json`; past `ApiURL` it splits on '/' into exactly the escaped command name and the escaped platform with `.json` |
| Urls.PatchURL | selfupdate/selfupdate.go:256-261 | the patch URL starts with `DiffURL`; past it, it splits into exactly four segments: escaped command, current version, new version and platform, in that order |
| Urls.BinURL | selfupdate/selfupdate.go:309-313 | the full-binary URL starts with `BinURL` and ends in `.gz`; past `BinURL` it splits into exactly escaped command, new version, and platform with `.gz` |
| Urls.InfoURLDeterminesTarget | selfupdate/selfupdate.go:211 | with an escaper that never outputs '/' and is injective, two equal metadata URLs over one base have the same command and platform |
| Urls.PatchURLDeterminesTransition | selfupdate/selfupdate.go:256-261 | with an escaper that never outputs '/' and is injective, two equal patch URLs over one base have the same command, current version, new version and platform |
| Urls.BinURLDeterminesVersion | selfupdate/selfupdate.go:309-313 | with such an escaper, two equal full-binary URLs have the same command, version and platform |
| Resolver.FetchInfoRun | selfupdate/selfupdate.go:210-229 | `fetchInfo` makes one fetch, of the metadata URL; a fetch error leaves `Info` untouched; otherwise `Info` is what the decoder left; success exactly when decoding succeeded and the digest is 32 bytes; a bad digest is reported after `Info` was already overwritten |
| Fetcher.ApplyPatchAttempt | selfupdate/selfupdate.go:255-292 | one fetch of the patch URL; a fetch error stops there; otherwise one bspatch of the fetched blob against the running executable, and its output is returned unchanged, or a patch-apply error |
| Fetcher.PatchAttempt | selfupdate/selfupdate.go:235-245 | the patched bytes are returned exactly when they verify against `Info.Sha256`; verified bytes pass unchanged; bytes that do not verify give `HashMismatch`; earlier errors pass through |
| Fetcher.FetchBinAttempt | selfupdate/selfupdate.go:308-349 | one fetch of the full-binary URL; a fetch error stops there; otherwise one gunzip of the fetched bytes, and its output or a decompression error |
| Fetcher.FullAttempt | selfupdate/selfupdate.go:294-306 | the full binary is returned exactly when it verifies against `Info.Sha256`; otherwise the digest error or the earlier error |
| Orchestrator.ClassifyInstall | selfupdate/selfupdate.go:199-206 | a recovery error is reported as the combined error whatever the install error was; otherwise the install error, or none exactly when the install succeeded |
| Orchestrator.ObtainBinary | selfupdate/selfupdate.go:174-193 | a patch that applies and verifies is the result, with only the patch calls; otherwise the result is the full path's, after the patch calls and the full path's calls; only transfer calls are made, and any bytes yielded verify against `Info.Sha256` |
| Orchestrator.PlanUpdate | selfupdate/selfupdate.go:165-193 | between open and close, `update` makes only transfer calls, and it heads for install only with bytes that verify against a 32-byte `Info.Sha256` |
| Orchestrator.Tail | selfupdate/selfupdate.go:195-207 | the calls after the plan end with the deferred close, and the only install among them is of the bytes the plan decided on |
| Orchestrator.Outcome | selfupdate/selfupdate.go:170-206 | `update` returns no error exactly when the plan finished without one (already current) or the install and its recovery both succeeded |
| Orchestrator.UpdateRun | selfupdate/selfupdate.go:152-207 | the model of `update`: no call at all exactly when the executable cannot be found or opened, and otherwise the calls begin with the open and end with the deferred close; the lemmas of `UpdateProperties` state what it fetches, installs and returns |
| Orchestrator.BackgroundRunOutcome | selfupdate/selfupdate.go:113-136 | the model of `BackgroundRun`: the state directory, the scheduler, `CanUpdate`, then `update`; `UpdateProperties.DevBuildNeverUpdates`, `DeclinedCheckIsQuiet` and `UpdatesOnlyWhenWanted` state what it does |
| Schedule.RandDuration | selfupdate/selfupdate.go:351-354 | the jitter is in `[0, n)`, and it is the random draw itself whenever the draw is in range |
| Schedule.Deadline | selfupdate/selfupdate.go:147-148 | the stored deadline lies in `[now + 24h, now + 48h)` |
| Schedule.ReadTime | selfupdate/selfupdate.go:374-387 | missing file: the zero time, so a check is due; unreadable or unparseable token: now + 1000h, so the check is skipped; otherwise the parsed time |
| Schedule.CheckDue | selfupdate/selfupdate.go:144 | the condition on line 144 negated: not a `dev` build, and forced or the stored deadline not after now; `Schedule.WantUpdateRun` states the check is wanted exactly when this holds and the write succeeds |
| Schedule.WantUpdateRun | selfupdate/selfupdate.go:138-149 | a check is wanted exactly when the state path is known, the build is not `dev`, the check is forced or the deadline has passed, and writing the new deadline succeeded; the token then holds that deadline; otherwise it is unchanged |
| Schedule.DevNeverChecks | selfupdate/selfupdate.go:144-145 | a `dev` build never wants a check and never touches the token, forced or not |
| Schedule.FutureDeadlineSuppresses | selfupdate/selfupdate.go:144-145 | without `ForceCheck`, a stored deadline after now suppresses the check and leaves the token as it was |
| Schedule.CorruptTokenSuppressesForever | selfupdate/selfupdate.go:374-387 | without `ForceCheck`, an unreadable or unparseable token suppresses the check and stays as it is, at every instant |
| Schedule.ThrottledAfterCheck | selfupdate/selfupdate.go:144-148 | after a check, an unforced run less than 24h minus one second later skips the check and leaves the written token alone |
| Schedule.CheckedWithin48Hours | selfupdate/selfupdate.go:144-148 | at least 48h after a check, a non-dev run wants a check exactly when it writes the next deadline |
| UpdateProperties.NoExecutableNoCalls | selfupdate/selfupdate.go:153-162 | when the executable cannot be found or opened, `update` makes no call and returns that error |
| UpdateProperties.InfoFailureStops | selfupdate/selfupdate.go:165-169 | a metadata failure is returned as it is, after only opening, fetching the metadata and closing |
| UpdateProperties.UpToDateFinishes | selfupdate/selfupdate.go:170-173 | when the fetched version equals the current one, `update` returns no error after only opening, fetching the metadata and closing: no artifact fetched, nothing installed |
| UpdateProperties.TransfersShape | selfupdate/selfupdate.go:174-193 | past the version comparison the transfers are the metadata fetch, the patch path, and the full path only if the patch path failed |
| UpdateProperties.PatchTriedFirst | selfupdate/selfupdate.go:174 | past the version comparison the first artifact fetched is the patch, whatever `DiffURL` holds, and it is fetched exactly once |
| UpdateProperties.FallbackExactlyOnce | selfupdate/selfupdate.go:174-193 | the full binary is fetched exactly once, right after the patch path, when the patch path fails for any reason (fetch, apply or digest), and never when it succeeds |
| UpdateProperties.PatchSucceededInstalls | selfupdate/selfupdate.go:174-206 | a patch that applies and verifies is what gets installed: the calls are open, metadata fetch, the patch calls, close, install of the patched bytes, close, with no full-binary fetch, and the result is the classified install outcome |
| UpdateProperties.FullFailureStops | selfupdate/selfupdate.go:184-192 | when both paths fail, `update` returns the full path's error and never calls the installer |
| UpdateProperties.PatchFailureRecovered | selfupdate/selfupdate.go:184-206 | when the patch path fails and the full binary verifies, `update` ends with close, install of that binary, close, and reports exactly the install's outcome (none on a clean install) |
| UpdateProperties.InstalledBytesVerified | selfupdate/selfupdate.go:174-199 | every byte buffer handed to the installer hashes to `Info.Sha256`, which is 32 bytes long |
| UpdateProperties.HandleClosedForInstall | selfupdate/selfupdate.go:163-199 | the executable's handle is closed whenever the installer is called, and at the end of every run |
| UpdateProperties.TransfersWhileOpen | selfupdate/selfupdate.go:158-193 | every fetch, patch application and decompression of `update` happens while the executable's handle is open |
| UpdateProperties.InstallOutcomeReported | selfupdate/selfupdate.go:195-206 | `update` installs at most once, and when it does, its result is the classification of that install's outcome |
| UpdateProperties.ZeroDigestPatchFallsBack | selfupdate/selfupdate.go:174-193 | with an all-zero expected digest, patched bytes that hash otherwise are rejected with `HashMismatch`, the full binary is fetched exactly once, and anything installed hashes to all zeros |
| UpdateProperties.DevBuildNeverUpdates | selfupdate/selfupdate.go:113-145 | a `dev` build's `BackgroundRun` makes no call, changes neither token nor `Info`, and returns no error unless locating or creating the state directory failed |
| UpdateProperties.DeclinedCheckIsQuiet | selfupdate/selfupdate.go:125-135 | a declined check returns no error, makes no call and changes nothing |
| UpdateProperties.UpdatesOnlyWhenWanted | selfupdate/selfupdate.go:125-134 | `BackgroundRun` makes calls only when a check was wanted (so the new deadline was written) and the executable can be replaced, and then it makes exactly the calls of `update` and returns its error |
| SelfUpdate.CheckTokenFile.WriteTime | selfupdate/selfupdate.go:405-410 | the token holds the formatted time exactly when the write succeeded, and the result says whether it did |
| SelfUpdate.Updater.constructor | selfupdate/selfupdate.go:78-91 | the configuration fields as given, an empty `Info`, the executable not open and no calls made |
| SelfUpdate.Updater.Fetch | selfupdate/selfupdate.go:356-372 | records one fetch of the URL and returns exactly `FetchOutcome` |
| SelfUpdate.Updater.FetchInfo | selfupdate/selfupdate.go:210-229 | the error returned, the new `Info` and the calls made are those of `FetchInfoRun` from the old `Info` |
| SelfUpdate.Updater.FetchAndApplyPatch | selfupdate/selfupdate.go:255-292 | needs the executable open; result and calls are those of `ApplyPatchAttempt` |
| SelfUpdate.Updater.FetchAndVerifyPatch | selfupdate/selfupdate.go:235-245 | needs the executable open; result and calls are those of `PatchAttempt`, and returned bytes verify |
| SelfUpdate.Updater.FetchBin | selfupdate/selfupdate.go:308-349 | result and calls are those of `FetchBinAttempt` |
| SelfUpdate.Updater.FetchAndVerifyFullBin | selfupdate/selfupdate.go:294-306 | result and calls are those of `FullAttempt`, and returned bytes verify |
| SelfUpdate.Updater.FetchVerifiedBinary | selfupdate/selfupdate.go:174-193 | result and calls are those of `ObtainBinary`: the patch path, then the full path only if the patch path failed |
| SelfUpdate.Updater.OpenSelf | selfupdate/selfupdate.go:158-163 | the executable is open and the open is recorded |
| SelfUpdate.Updater.CloseSelf | selfupdate/selfupdate.go:197 | the executable is closed and the close is recorded |
| SelfUpdate.Updater.InstallFromStream | selfupdate/selfupdate.go:199 | needs the executable closed; records the install and returns the installer's report |
| SelfUpdate.Updater.Prepare | selfupdate/selfupdate.go:165-193 | needs the executable open; the decision, the new `Info` and the calls are those of `PlanUpdate` |
| SelfUpdate.Updater.Conclude | selfupdate/selfupdate.go:195-207 | with bytes to install: close, install, and the classified install outcome; either way the deferred close last, leaving the executable closed |
| SelfUpdate.Updater.RunOpened | selfupdate/selfupdate.go:163-207 | once the executable is found and opened, the error, the new `Info` and the calls are those of `UpdateRun`, and the executable ends closed |
| SelfUpdate.Updater.UpdateSteps | selfupdate/selfupdate.go:152-207 | the error, the new `Info` and the calls are those of `UpdateRun`, and the executable ends closed |
| SelfUpdate.Updater.Update | selfupdate/selfupdate.go:152-207 | as `UpdateRun` describes, with the executable closed at the end, and every install the call makes receives bytes that hash to the final 32-byte `Info.Sha256` |
| SelfUpdate.Updater.WantUpdate | selfupdate/selfupdate.go:138-149 | the result and the new token are those of `WantUpdateRun` |
| SelfUpdate.Updater.BackgroundRun | selfupdate/selfupdate.go:113-136 | the error, the new `Info`, the new token and the calls are those of `BackgroundRunOutcome`, and the executable ends closed |

## Left out

- Locating the executable (`osext.Executable`, `getExecRelativeDir`, `filepath.Join`): one yes/no outcome per run. The token's path (`Dir + "cktime"`, with no separator added) is not modelled.
- `os.MkdirAll`, `os.Open`, `up.CanUpdate`: each is one yes/no outcome.
- Network I/O and the default HTTP requester: a function from URL to bytes, or none. The same URL gives the same answer within a run. A nil body from the default requester is not modelled.
- Closing response bodies (`defer r.Close()`): it affects no result.
- The internals of JSON and base64 decoding, bspatch, gzip, SHA-256, RFC 3339 formatting and parsing, and `url.QueryEscape`: uninterpreted functions. The URL lemmas are stated for any escaper that never outputs '/' and is injective.
- The installer `up.FromStream`: a function from bytes to its pair of errors. What it does to the disk is not modelled.
- The clock: one reading per run (`World.now`). The Go code reads `time.Now()` up to three times in one `wantUpdate`: in `readTime` on its error paths (`selfupdate/selfupdate.go:380`, `384`), in the comparison (line 144) and for the new deadline (line 148). These readings can differ by the time between the calls.
- Schedule.RandDuration: the random draw is a parameter, reduced into `[0, n)`. The distribution of `rand.Int63n` is not modelled.
- Overflow: 64-bit overflow of `time.Duration` and `time.Time` arithmetic is not modelled. The values involved (hours from now) are far from the limits.
- SelfUpdate.CheckTokenFile.WriteTime: a failed write is taken to leave the token unchanged. A partial write is not modelled.
- Logging, and the wording of the wrapped error messages: neither affects control flow. The errors are distinguished by cause only.
- Concurrency: the `go updater.BackgroundRun()` caller and the package-level `up` and `defaultHTTPRequester` values are not modelled.
- `devValidTime` is declared in the source but never used, so it is not modelled.
