/** domain/validator/headers.go: the ownership check. The HTTP round trip is a
    parameter: building the request (which can fail on a malformed host) and
    sending it (which can fail in transport). */
module Validator {
  import opened Wrappers

  datatype Request = Request(verb: string, url: string, host: string)

  /** The parts of an `http.Response` the check reads. `header` maps a
      canonical header name to its first value, as `Header.Get` returns it. */
  datatype Response = Response(statusCode: int, status: string, header: map<string, string>)

  datatype HttpClient = HttpClient(
    newRequest: (string, string) -> Result<Request>,
    send: Request -> Result<Response>)

  const HeadMethod := "HEAD"
  const HttpScheme := "http://"
  const StatusError := "error requesting domain headers: "
  const HeaderError := "error looking up header: "

  /** `Header.Get`: a header that is absent reads as the empty string. */
  function HeaderValue(resp: Response, header: string): string
  {
    if header in resp.header then resp.header[header] else []
  }

  /** The status range the check accepts: 200 to 304, both included. */
  predicate AcceptedStatus(code: int)
  {
    200 <= code <= 304
  }

  /** `readHeader`: a HEAD request to "http://" + address carrying the Host
      header `hostname`; an error for a failed request, a status outside
      [200, 304], or a missing or empty header, else the header's value. */
  function ReadHeader(address: string, hostname: string, header: string, http: HttpClient): (r: Result<string>)
    ensures r.Ok? <==> (
      && http.newRequest(HeadMethod, HttpScheme + address).Ok?
      && http.send(http.newRequest(HeadMethod, HttpScheme + address).value.(host := hostname)).Ok?
      && var resp := http.send(http.newRequest(HeadMethod, HttpScheme + address).value.(host := hostname)).value;
         AcceptedStatus(resp.statusCode) && HeaderValue(resp, header) != [])
    ensures r.Ok? ==> (
      && r.value != []
      && r.value == HeaderValue(http.send(http.newRequest(HeadMethod, HttpScheme + address).value.(host := hostname)).value, header))
  {
    match http.newRequest(HeadMethod, HttpScheme + address)
    case Err(e) => Err(e)
    case Ok(req) =>
      match http.send(req.(host := hostname))
      case Err(e) => Err(e)
      case Ok(resp) =>
        if resp.statusCode < 200 || resp.statusCode > 304 then
          Err(StatusError + hostname + " - " + resp.status)
        else
          var v := HeaderValue(resp, header);
          if v == [] then Err(HeaderError + hostname + " - " + header)
          else Ok(v)
  }

  /** `ValidHeader`: the header read from the host itself equals `expected`. */
  function ValidHeader(hostname: string, header: string, expected: string, http: HttpClient): (r: bool)
    ensures r ==> ReadHeader(hostname, hostname, header, http) == Ok(expected)
    ensures ReadHeader(hostname, hostname, header, http).Err? ==> !r
  {
    match ReadHeader(hostname, hostname, header, http)
    case Err(_) => false
    case Ok(v) => v == expected
  }

  /** The probe the check sends: what the client is given when the request
      for "http://" + hostname is built as `req`. */
  function Probe(hostname: string, req: Request): Request
  {
    req.(host := hostname)
  }

  /** The decision in full, once the round trip yields `resp`: valid iff the
      status is in [200, 304], the header is present and non-empty, and it
      equals `expected`. */
  lemma ValidHeaderIff(hostname: string, header: string, expected: string, http: HttpClient,
                       req: Request, resp: Response)
    requires http.newRequest(HeadMethod, HttpScheme + hostname) == Ok(req)
    requires http.send(Probe(hostname, req)) == Ok(resp)
    ensures ValidHeader(hostname, header, expected, http) <==>
      (AcceptedStatus(resp.statusCode) && header in resp.header
       && resp.header[header] != [] && resp.header[header] == expected)
  {
  }

  /** A failed request, in construction or in transport, is never valid. */
  lemma TransportErrorInvalid(hostname: string, header: string, expected: string, http: HttpClient)
    requires http.newRequest(HeadMethod, HttpScheme + hostname).Err?
          || http.send(Probe(hostname, http.newRequest(HeadMethod, HttpScheme + hostname).value)).Err?
    ensures !ValidHeader(hostname, header, expected, http)
  {
  }

  /** The empty expected value never validates: an empty header is an error. */
  lemma EmptyExpectedNeverValid(hostname: string, header: string, http: HttpClient)
    ensures !ValidHeader(hostname, header, [], http)
  {
  }

  /** Every status below 200 or above 304 is rejected. */
  lemma StatusOutsideRangeInvalid(hostname: string, header: string, expected: string, http: HttpClient,
                                  req: Request, resp: Response)
    requires http.newRequest(HeadMethod, HttpScheme + hostname) == Ok(req)
    requires http.send(Probe(hostname, req)) == Ok(resp)
    requires resp.statusCode < 200 || 304 < resp.statusCode
    ensures !ValidHeader(hostname, header, expected, http)
  {
  }
}
