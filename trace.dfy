/**
 * The observable steps of an update attempt, in the order they happen:
 * which collaborator is called and with what. Lemmas about runs are stated
 * over these traces.
 */
module Trace {
  import opened Wrappers
  import opened Types

  /** What a fetched URL is for. */
  datatype Artifact = InfoJson | PatchBlob | FullBinary

  datatype Call =
    | OpenSelf                          // os.Open of the running executable
    | Fetch(artifact: Artifact, url: string)
    | ApplyPatch(blob: Bytes)           // binarydist.Patch against the executable
    | Decompress(blob: Bytes)           // gzip decompression of a full binary
    | CloseSelf                         // old.Close()
    | Install(bin: Bytes)               // up.FromStream

  /** An attempt's outcome with the calls it made on the way. */
  datatype Run = Run(err: Option<Error>, info: Info, calls: seq<Call>)

  /** A fetch attempt's bytes or error, with the calls it made. */
  datatype Attempt = Attempt(bin: Result<Bytes, Error>, calls: seq<Call>)

  datatype Kind = KOpen | KFetch(of: Artifact) | KApply | KDecompress | KClose | KInstall

  function KindOf(c: Call): Kind {
    match c
    case OpenSelf => KOpen
    case Fetch(a, _) => KFetch(a)
    case ApplyPatch(_) => KApply
    case Decompress(_) => KDecompress
    case CloseSelf => KClose
    case Install(_) => KInstall
  }

  /** How many calls of kind `k` the trace holds. */
  function Occurrences(calls: seq<Call>, k: Kind): nat {
    if calls == [] then 0
    else (if KindOf(calls[0]) == k then 1 else 0) + Occurrences(calls[1..], k)
  }

  lemma {:induction false} OccurrencesAppend(a: seq<Call>, b: seq<Call>, k: Kind)
    ensures Occurrences(a + b, k) == Occurrences(a, k) + Occurrences(b, k)
  {
    if a == [] {
      assert a + b == b;
    } else {
      assert (a + b)[0] == a[0];
      assert (a + b)[1..] == a[1..] + b;
      OccurrencesAppend(a[1..], b, k);
    }
  }

  /** A call that moves bytes and touches neither the executable's handle nor the installer. */
  predicate IsTransfer(c: Call) {
    c.Fetch? || c.ApplyPatch? || c.Decompress?
  }

  predicate Transfers(calls: seq<Call>) {
    forall i :: 0 <= i < |calls| ==> IsTransfer(calls[i])
  }

  lemma TransfersAppend(a: seq<Call>, b: seq<Call>)
    requires Transfers(a) && Transfers(b)
    ensures Transfers(a + b)
  {
  }

  /** Whether the running executable's handle is open after the calls. */
  function HandleOpen(calls: seq<Call>): bool {
    if calls == [] then false
    else match calls[|calls| - 1]
      case OpenSelf => true
      case CloseSelf => false
      case _ => HandleOpen(calls[..|calls| - 1])
  }

  lemma {:induction false} TransfersKeepHandle(a: seq<Call>, b: seq<Call>)
    requires Transfers(b)
    ensures HandleOpen(a + b) == HandleOpen(a)
  {
    if b == [] {
      assert a + b == a;
    } else {
      var b' := b[..|b| - 1];
      assert (a + b)[..|a + b| - 1] == a + b';
      assert (a + b)[|a + b| - 1] == b[|b| - 1];
      assert IsTransfer(b[|b| - 1]);
      TransfersKeepHandle(a, b');
    }
  }

  lemma {:induction false} TransfersHaveNo(calls: seq<Call>, k: Kind)
    requires Transfers(calls)
    requires k == KOpen || k == KClose || k == KInstall
    ensures Occurrences(calls, k) == 0
  {
    if calls != [] {
      assert IsTransfer(calls[0]);
      TransfersHaveNo(calls[1..], k);
    }
  }
}
