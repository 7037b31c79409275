/**
 * The check scheduler: `wantUpdate`, `readTime`, `randDuration` and the
 * token write. A check is performed at most once per stored deadline; each
 * check stores a new deadline 24 to 48 hours ahead.
 */
module Schedule {
  import opened Wrappers
  import opened Types

  const SECOND: int := 1_000_000_000
  const HOUR: int := 3600 * SECOND
  /** The fixed part of the wait, and also the range of the random jitter. */
  const CHECK_INTERVAL: int := 24 * HOUR
  /** How far ahead an unreadable or unparseable token puts the deadline. */
  const BAD_TOKEN_DELAY: int := 1000 * HOUR
  /** `time.Time{}`. */
  const ZERO_TIME: Time := 0
  /** The version string of a development build. */
  const DEV_VERSION: string := "dev"

  /** `t.After(u)`. */
  predicate After(t: Time, u: Time) {
    t > u
  }

  /**
   * `randDuration(n)`: a duration in `[0, n)`; `draw` stands for the
   * random generator's output. `rand.Int63n` panics unless `n > 0`.
   */
  function RandDuration(n: int, draw: int): (d: int)
    requires n > 0
    ensures 0 <= d < n
    ensures 0 <= draw < n ==> d == draw
  {
    draw % n
  }

  /** The deadline `wantUpdate` stores: 24 hours plus up to 24 hours of jitter. */
  function Deadline(now: Time, draw: int): (d: Time)
    ensures now + CHECK_INTERVAL <= d < now + 2 * CHECK_INTERVAL
  {
    now + CHECK_INTERVAL + RandDuration(CHECK_INTERVAL, draw)
  }

  /**
   * `readTime`: a missing token reads as the zero time, so a check is due;
   * an unreadable token or one that does not parse as RFC 3339 reads as
   * 1000 hours from now, so the check is skipped; otherwise the parsed time.
   */
  function ReadTime(file: TokenFile, parse: string -> Option<Time>, now: nat): (t: Time)
    ensures file.Absent? ==> t == ZERO_TIME && !After(t, now)
    ensures (file.Unreadable? || (file.Present? && parse(file.text).None?)) ==>
              t == now + BAD_TOKEN_DELAY && After(t, now)
    ensures file.Present? && parse(file.text).Some? ==> t == parse(file.text).value
  {
    match file
    case Absent => ZERO_TIME
    case Unreadable => now + BAD_TOKEN_DELAY
    case Present(text) =>
      match parse(text)
      case Some(t) => t
      case None => now + BAD_TOKEN_DELAY
  }

  /** Whether `wantUpdate` goes on to reschedule: not a dev build, and forced or past the deadline. */
  predicate CheckDue(c: Config, file: TokenFile, w: World) {
    c.currentVersion != DEV_VERSION &&
    (c.forceCheck || !After(ReadTime(file, w.parseTime, w.now), w.now))
  }

  datatype CheckRun = CheckRun(want: bool, file: TokenFile)

  /**
   * `wantUpdate`: a check is wanted exactly when the executable's directory
   * is known, the check is due and the new deadline was written; the token
   * is rewritten only then, and to the new deadline.
   */
  function WantUpdateRun(c: Config, file: TokenFile, w: World): (r: CheckRun)
    ensures r.want <==> w.executableFound && CheckDue(c, file, w) && w.writeOk
    ensures r.want ==> r.file == Present(w.formatTime(Deadline(w.now, w.jitter)))
    ensures !r.want ==> r.file == file
  {
    if !w.executableFound then CheckRun(false, file)
    else if c.currentVersion == DEV_VERSION ||
            (!c.forceCheck && After(ReadTime(file, w.parseTime, w.now), w.now)) then CheckRun(false, file)
    else
      var deadline := Deadline(w.now, w.jitter);
      if w.writeOk then CheckRun(true, Present(w.formatTime(deadline))) else CheckRun(false, file)
  }

  /** A development build never checks and never touches the token. */
  lemma DevNeverChecks(c: Config, file: TokenFile, w: World)
    requires c.currentVersion == DEV_VERSION
    ensures WantUpdateRun(c, file, w) == CheckRun(false, file)
  {
  }

  /** Without `ForceCheck` a stored deadline in the future suppresses the check and the write. */
  lemma FutureDeadlineSuppresses(c: Config, file: TokenFile, w: World)
    requires !c.forceCheck && After(ReadTime(file, w.parseTime, w.now), w.now)
    ensures WantUpdateRun(c, file, w) == CheckRun(false, file)
  {
  }

  /**
   * A token that cannot be read or parsed suppresses every unforced check,
   * at every instant: `readTime` moves its verdict 1000 hours past whatever
   * the clock says, and a skipped check never rewrites the token.
   */
  lemma CorruptTokenSuppressesForever(c: Config, file: TokenFile, w: World)
    requires file.Unreadable? || (file.Present? && w.parseTime(file.text).None?)
    requires !c.forceCheck
    ensures WantUpdateRun(c, file, w) == CheckRun(false, file)
  {
  }

  /** RFC 3339 as `time.RFC3339` writes it keeps whole seconds: formatting then parsing truncates. */
  ghost predicate KeepsSeconds(format: Time -> string, parse: string -> Option<Time>) {
    forall t :: parse(format(t)) == Some(t - t % SECOND)
  }

  /**
   * After a check at time `w1.now`, an unforced run that starts less than
   * 24 hours later, less the second that formatting may drop, skips the
   * check and leaves the token as the first run wrote it.
   */
  lemma ThrottledAfterCheck(c: Config, file: TokenFile, w1: World, w2: World)
    requires KeepsSeconds(w1.formatTime, w2.parseTime)
    requires WantUpdateRun(c, file, w1).want
    requires !c.forceCheck
    requires w2.now + SECOND <= w1.now + CHECK_INTERVAL
    ensures var written := WantUpdateRun(c, file, w1).file;
            WantUpdateRun(c, written, w2) == CheckRun(false, written)
  {
  }

  /**
   * Checks are never more than 48 hours apart: a run that starts at least
   * 48 hours after a check, in a non-dev build, wants an update exactly when
   * it manages to write the next deadline.
   */
  lemma CheckedWithin48Hours(c: Config, file: TokenFile, w1: World, w2: World)
    requires KeepsSeconds(w1.formatTime, w2.parseTime)
    requires WantUpdateRun(c, file, w1).want
    requires w2.executableFound
    requires w2.now >= w1.now + 2 * CHECK_INTERVAL
    ensures WantUpdateRun(c, WantUpdateRun(c, file, w1).file, w2).want == w2.writeOk
  {
  }
}
