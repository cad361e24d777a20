/** What a handler returns, and the token check `@jwt_required()` performs
    before a handler runs. Token signing and decoding belong to the token
    library: a request arrives here already classified as carrying no token,
    a token the library rejects (with the library's status and message), or
    a valid token with its claims. */
module Http {
  import opened Wrappers
  import opened Json

  /** A handler's reply: a status with a JSON value, or a status with a
      `{"msg": ...}` body. */
  datatype Reply<T> = Data(code: int, value: T) | Message(code: int, msg: string)

  datatype Credential = NoToken | Rejected(code: int, msg: string) | Bearer(claims: Body)

  /** Whether a guard lets the handler run, or the reply it gives instead. */
  datatype Verdict = Allow | Deny(code: int, msg: string)

  /** The body of Flask's `abort(404)`. */
  const NotFound := "Not Found"

  /** `@jwt_required()` (optional = false) and `@jwt_required(optional=True)`:
      a valid token always passes, a rejected token never does, and a missing
      token passes only when the token is optional. */
  function JwtRequired(cred: Credential, optional: bool): (v: Verdict)
    ensures v == Allow <==> cred.Bearer? || (optional && cred.NoToken?)
    ensures cred.Rejected? ==> v == Deny(cred.code, cred.msg)
    ensures !optional && cred.NoToken? ==> v.Deny? && v.code == 401
  {
    match cred
    case Bearer(_) => Allow
    case NoToken => if optional then Allow else Deny(401, "Missing Authorization Header")
    case Rejected(c, m) => Deny(c, m)
  }

  /** `get_jwt()`: the token's claims, or `{}` when an optional token is absent. */
  function Claims(cred: Credential): Body {
    if cred.Bearer? then cred.claims else map[]
  }

  function Refusal<T>(v: Verdict): Reply<T>
    requires v.Deny?
  {
    Message(v.code, v.msg)
  }

  function Failure<T, U>(e: Result<U>): Reply<T>
    requires e.Err?
  {
    Message(e.code, e.msg)
  }
}
