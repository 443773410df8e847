/** Shared vocabulary of the meal-management backend: record identifiers, clock
    values, optional values, the claims carried by an access token and the
    field errors produced by request validation. */
module Common {

  /** A document identifier. The store hands them out from a counter. */
  type Id = nat

  /** A point in time, as supplied by the caller's clock. */
  type Time = int

  datatype Option<+T> = None | Some(value: T)

  /** The `user` object of a token payload: what `req.user` holds once the
      token has been verified. A token issued at registration has no role. */
  datatype Claims = Claims(id: Id, role: Option<string>)

  /** The whole signed payload `{ user: { ... } }`. */
  datatype Payload = Payload(user: Claims)

  /** Token verification (jwt.verify with the server secret): the payload, or
      None when the signature or the token is not accepted. */
  type Verifier = string -> Option<Payload>

  /** One entry of the `errors` array of a 400 validation answer. */
  datatype FieldError = FieldError(field: string, msg: string)

  /** The error list contributed by one validation rule. */
  function Check(ok: bool, field: string, msg: string): seq<FieldError>
  {
    if ok then [] else [FieldError(field, msg)]
  }
}
