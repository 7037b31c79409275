/**
 * The values the updater works on and the external world it talks to.
 * Everything the Go package delegates to a library, the operating system
 * or the network is a field of `World`: a yes/no outcome where the library
 * only succeeds or fails, an uninterpreted function where the result
 * depends on an input.
 */
module Types {
  import opened Wrappers

  newtype byte = x: int | 0 <= x < 256

  type Bytes = seq<byte>

  /** `sha256.Size`. */
  const SHA256_SIZE: nat := 32

  /** A SHA-256 digest: always 32 bytes. */
  type Digest = s: Bytes | |s| == SHA256_SIZE witness seq(32, _ => 0 as byte)

  /**
   * Instants, in nanoseconds counted from Go's zero `time.Time`
   * (January 1, year 1, 00:00:00 UTC); durations are plain differences.
   */
  type Time = int

  /** `Updater.Info`: the latest version and its expected digest. */
  datatype Info = Info(version: string, sha256: Bytes)

  /** The zero value of `Updater.Info` before anything is fetched. */
  const EMPTY_INFO: Info := Info("", [])

  /** What a caller-supplied `Requester.Fetch` returns. */
  datatype Fetched =
    | Stream(body: Bytes)   // a non-nil reader and no error
    | NilStream             // a nil reader and no error
    | FetchFailed           // an error

  /** Why `fetch` failed. */
  datatype FetchFailure = TransportError | NilReader

  /**
   * The result of JSON-decoding a body into the current `Info`: the value
   * the decoder leaves in the field, and whether it reported no error.
   */
  datatype Decoded = Decoded(info: Info, ok: bool)

  /** The pair of errors `go-update`'s `FromStream` returns. */
  datatype InstallReport = InstallReport(failed: bool, recoveryFailed: bool)

  /** The persisted check token, as `ioutil.ReadFile` finds it. */
  datatype TokenFile =
    | Absent                // the file does not exist
    | Unreadable            // any other read error
    | Present(text: string) // the file's content

  /** The errors an update attempt returns, one per distinct failure. */
  datatype Error =
    | ExecutableNotFound        // osext.Executable failed
    | StateDirFailed            // os.MkdirAll failed
    | CannotUpdate              // up.CanUpdate refused
    | OpenSelfFailed            // os.Open of the running executable failed
    | InfoFetch(cause: FetchFailure)
    | InfoDecode                // the metadata JSON did not decode
    | BadInfoHash               // the decoded digest is not 32 bytes long
    | PatchFetch(cause: FetchFailure)
    | PatchApply                // bspatch rejected the patch
    | HashMismatch              // ErrHashMismatch from the patch path
    | FullFetch(cause: FetchFailure)
    | GunzipFailed              // gzip reader creation or copy failed
    | FullHashMismatch          // ErrHashMismatch, wrapped, from the full path
    | InstallFailed             // FromStream's first error
    | InstallAndRecoveryFailed  // FromStream's recovery error was set

  /**
   * The `Updater` fields that configure a run. `requester` is `None` when
   * the field is nil and the default HTTP requester is used.
   */
  datatype Config = Config(
    currentVersion: string,
    apiURL: string,
    cmdName: string,
    binURL: string,
    diffURL: string,
    dir: string,
    forceCheck: bool,
    requester: Option<string -> Fetched>)

  /** The external world as one run of the updater sees it. */
  datatype World = World(
    executableFound: bool,                    // osext.Executable
    mkdirOk: bool,                            // os.MkdirAll of the state directory
    canUpdate: bool,                          // up.CanUpdate
    openOk: bool,                             // os.Open of the running executable
    selfImage: Bytes,                         // the bytes of the running executable
    httpGet: string -> Option<Bytes>,         // the default HTTP requester
    decodeInfo: (Info, Bytes) -> Decoded,     // json.Decode (base64 for Sha256)
    bspatch: (Bytes, Bytes) -> Option<Bytes>, // binarydist.Patch(old, patch)
    gunzip: Bytes -> Option<Bytes>,           // gzip.NewReader and io.Copy
    sha256: Bytes -> Digest,                  // crypto/sha256
    install: Bytes -> InstallReport,          // up.FromStream
    queryEscape: string -> string,            // url.QueryEscape
    platform: string,                         // runtime.GOOS + "-" + runtime.GOARCH
    now: nat,                                 // time.Now()
    jitter: int,                              // the draw behind rand.Int63n
    formatTime: Time -> string,               // Time.Format(time.RFC3339)
    parseTime: string -> Option<Time>,        // time.Parse(time.RFC3339, _)
    writeOk: bool)                            // ioutil.WriteFile of the token
}
