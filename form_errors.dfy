/** How the sign-in and registration pages turn a failed result from the
    session store into the message they show. */
module FormErrors {
  import AuthContext

  /** `result.error || fallback`: a missing or empty error reads as the fallback. */
  function ErrorOr(r: AuthContext.AuthResult, fallback: string): (m: string)
    ensures r.error.Some? && r.error.value != "" ==> m == r.error.value
    ensures r.error.None? || r.error.value == "" ==> m == fallback
  {
    if r.error.Some? && r.error.value != "" then r.error.value else fallback
  }
}
