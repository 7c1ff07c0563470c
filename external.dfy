/**
 * The libraries the core calls but whose code is not part of this model, taken as
 * uninterpreted functions passed in by the caller: jsonwebtoken's `sign`/`verify`,
 * bcrypt's `hash`/`compare`, and google-auth-library's `verifyIdToken`.
 */
module External {
  import opened Wrappers

  /** The claims a session token carries: the subject's id and email, nothing else. */
  datatype Claims = Claims(id: nat, email: string)

  /** What is handed to `jwt.sign`: the payload and the `expiresIn` lifetime in seconds. */
  datatype SignRequest = SignRequest(payload: Claims, expiresInSeconds: nat)

  /** The outcome of `jwt.verify`: the decoded claims, or any thrown error (bad signature, expired, malformed). */
  datatype Verified = Decoded(claims: Claims) | Invalid

  /**
   * The outcome of `verifyIdToken`: the payload's email, name and picture (a claim the
   * token may omit), or any failure.
   */
  datatype Ticket = Ticket(email: string, name: string, picture: Option<string>) | TicketRejected

  /** `jwt.sign(payload, JWT_SECRET, { expiresIn })`, the secret fixed by the environment. */
  type Signer = SignRequest -> string

  /** `jwt.verify(token, JWT_SECRET)`. */
  type TokenVerifier = string -> Verified

  /** `bcrypt.hash(plaintext, 10)`; the salt it draws is folded into the function. */
  type Hasher = string -> string

  /** `bcrypt.compare(plaintext, digest)`. */
  type Comparer = (string, string) -> bool

  /** `client.verifyIdToken({ idToken, audience: GOOGLE_CLIENT_ID })`. */
  type IdTokenVerifier = string -> Ticket
}
