/** The helpers of the HTTP client: classifying auth failures and forwarding the session cookie. */
module Axios {
  import opened Wrappers

  /** Unauthorized and Forbidden (sections 15.5.2 and 15.5.4 of RFC 9110). */
  const Unauthorized := 401
  const Forbidden := 403

  datatype Response = Response(status: int)

  /** A failed request; a network failure has no response. */
  datatype AxiosError = AxiosError(response: Option<Response>)

  /** `error.response?.status || 0`. */
  function StatusOrZero(error: AxiosError): int {
    if error.response.Some? && error.response.value.status != 0 then error.response.value.status else 0
  }

  /** `[401, 403].includes(...)`: only those two statuses count as unauthorized. */
  function IsUnauthorizedError(error: AxiosError): (r: bool)
    ensures r <==> error.response.Some? && (error.response.value.status == 401 || error.response.value.status == 403)
    ensures error.response.None? ==> !r
  {
    StatusOrZero(error) in [Unauthorized, Forbidden]
  }

  /** A request-headers object, as the header names it holds and their values. */
  class Headers {
    var fields: map<string, string>

    constructor (fields: map<string, string>)
      ensures this.fields == fields
    {
      this.fields := fields;
    }
  }

  /** `setCookies`: sets `Cookie` on the given headers in place and hands back the same object. */
  method SetCookies(headers: Headers, cookie: string) returns (r: Headers)
    modifies headers
    ensures r == headers
    ensures headers.fields == old(headers.fields)["Cookie" := cookie]
    ensures forall name :: name != "Cookie" && name in old(headers.fields) ==>
      name in headers.fields && headers.fields[name] == old(headers.fields)[name]
  {
    headers.fields := headers.fields["Cookie" := cookie];
    r := headers;
  }
}
