/** The value one `verify` call settles with, and the fixed error texts it can carry. */
module Results {
  import opened Wrappers

  /** An opaque JSON value (a proof or a QR payload), kept only in its serialised form. */
  datatype Json = Json(text: string)

  /** `{ success, proof?, error? }`: a missing property is `None`. */
  datatype VerificationResult = VerificationResult(success: bool, proof: Option<Json>, error: Option<string>)

  const ErrCancelled: string := "Verification cancelled"
  const ErrTimedOut: string := "Verification timed out"
  const ErrSessionNotFound: string := "Session not found or expired"
  const ErrSessionExpired: string := "Session expired"
  const ErrSessionRevoked: string := "Session revoked by user"
  const ErrNetworkFailures: string := "Too many network failures"
  const ErrCreateFailed: string := "Failed to create session"

  /** A successful result passes the relay's proof through unchanged (it may be absent). */
  function Succeeded(proof: Option<Json>): (r: VerificationResult)
    ensures r.success && r.proof == proof && r.error.None?
  {
    VerificationResult(true, proof, None)
  }

  /** A failed result carries its error text and no proof. */
  function Failed(error: string): (r: VerificationResult)
    ensures !r.success && r.proof.None? && r.error == Some(error)
  {
    VerificationResult(false, None, Some(error))
  }

  /** The shape every result has: an error exactly when it failed, and no proof with an error. */
  predicate WellShaped(r: VerificationResult)
  {
    (r.success <==> r.error.None?) && (!r.success ==> r.proof.None?)
  }
}
