/** `verifySha`: does a byte buffer hash to the expected digest? */
module Verifier {
  import opened Types

  /**
   * True exactly when the SHA-256 of `bin` equals `sha`, for every buffer,
   * the empty one included; an expected digest of the wrong length never
   * matches.
   */
  function VerifySha(bin: Bytes, sha: Bytes, sha256: Bytes -> Digest): (ok: bool)
    ensures ok <==> sha256(bin) == sha
    ensures ok ==> |sha| == SHA256_SIZE
  {
    sha256(bin) == sha
  }
}
