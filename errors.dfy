/** The ways a client call ends in an exception instead of a value. */
module Errors {
  import opened Values

  datatype Error =
    /** A status outside 200..299. The source raises through `_request_not_successful`
        (or, where that helper is misbound, a `TypeError`); the model keeps status and body. */
    | RequestFailed(status: int, body: Json)
    /** `body[key]` on a decoded object that lacks `key`. */
    | KeyError(key: string)
    /** `body[key]` on a decoded value that is not an object. */
    | TypeError
    /** A filter target that is not a list of objects (see README, "Left out"). */
    | UnsupportedShape
    /** `place_limit_order` without a truthy `expirationTime`. */
    | MissingExpirationTime
    /** A name the code reads that is not bound in its scope. */
    | NameError(name: string)
}
