// HTTP exchanges of the printer clients, as values: the request that is sent and what comes back.
module Http {
  import opened Wrappers
  import opened Text

  /** Status codes of RFC 9110 that the clients single out. */
  const OK: nat := 200               // section 15.3.1 of RFC 9110
  const FORBIDDEN: nat := 403        // section 15.5.4 of RFC 9110
  const REQUEST_TIMEOUT: nat := 408  // section 15.5.9 of RFC 9110
  const GATEWAY_TIMEOUT: nat := 504  // section 15.6.5 of RFC 9110

  /**
   * A response status: the code and the canonical reason phrase that the `http` crate's
   * table gives for it (None for a code the table does not know).
   */
  datatype StatusCode = StatusCode(code: nat, canonicalReason: Option<string>)

  /** `{}` of a `StatusCode`: the code, a space, the reason phrase. */
  function StatusText(s: StatusCode): (r: string)
    ensures Decimal(s.code) <= r
  {
    Decimal(s.code) + " " + s.canonicalReason.GetOr("<unknown status code>")
  }

  /** The body of a response after JSON decoding into the expected structure. */
  datatype Body<T> = Decoded(value: T) | Undecodable(message: string)

  datatype Response<T> = Response(status: StatusCode, body: Body<T>)

  /** A failed send: the `is_timeout` and `is_connect` tests of the error and its message. */
  datatype TransportError = TransportError(isTimeout: bool, isConnect: bool, message: string)

  /** How a request authenticates. */
  datatype Auth =
    | ApiKeyHeader(key: string)                 // header `X-Api-Key: <key>`
    | DigestAuth(login: string, password: string)  // HTTP Digest authentication

  /** A `GET` of `url`. */
  datatype Request = Request(url: string, auth: Auth)

  /** The network: what sending a request gives. */
  type Transport<T> = Request -> Result<Response<T>, TransportError>

  /**
   * `HeaderValue::from_str`: accepted when every byte is a tab or at least 0x20 and not 0x7F
   * (every byte of a non-ASCII character is at least 0x80).
   */
  predicate IsValidHeaderValue(s: string) {
    forall i :: 0 <= i < |s| ==> s[i] == '\t' || (' ' <= s[i] && s[i] != '\U{7F}')
  }
}
