/** The single-hop resolver of unwrap/unwrap.go: one HEAD request to https://{host}/{path}
    and a decision over the Location header of the response. The HTTP client (its pinned
    DNS upstream, timeouts and redirect policy) is represented by the `Head` oracle, and
    Go's url.Parse of a Location value by the `Parse` oracle. */
module Unwrap {
  import opened Wrappers
  import opened Urls
  import opened Errors

  /** An unwrapper for one short-link host. `upstreamDNS` stands for the HTTP client,
      whose only configurable part is the DNS server it dials. */
  datatype Unwrapper = Unwrapper(host: string, description: string, upstreamDNS: string)

  /** What one HEAD request yields: a transport failure, or a response whose header map
      sends each key to its list of values. */
  datatype Response = TransportFailure(cause: string) | Received(header: map<string, seq<string>>)

  /** The network: the response to a HEAD request for the given URL string. */
  type Head = string -> Response

  /** Go's url.Parse: a URL, or None where it reports an error. */
  type Parse = string -> Option<URL>

  /** unwrap.New without its transport plumbing: it keeps host and description. */
  function New(host: string, description: string, upstreamDNS: string): (u: Unwrapper)
    ensures Host(u) == host && Description(u) == description
  {
    Unwrapper(host, description, upstreamDNS)
  }

  function Host(u: Unwrapper): string
  {
    u.host
  }

  function Description(u: Unwrapper): string
  {
    u.description
  }

  /** The endpoint text Do formats before parsing it. */
  function EndpointString(host: string, path: string): string
  {
    "https://" + host + "/" + path
  }

  /** The URL Do queries. Do ignores the parse error of the endpoint text; it is modelled
      as the URL whose host is the unwrapper's and whose string is the formatted text. */
  function Endpoint(host: string, path: string): (e: URL)
    ensures e.host == host && e.scheme == "https"
    ensures ToString(e) == EndpointString(host, path)
  {
    URL("https", host, "/" + path, "", "")
  }

  /** Do's three results: the queried endpoint, the destination (nil in Go when absent)
      and the error (nil in Go when absent). */
  datatype Outcome = Outcome(endpoint: URL, result: Option<URL>, err: Option<Error>)

  /** The response redirects to `dest`: it carries a Location header whose first value
      parses to `dest`. */
  predicate RedirectsTo(resp: Response, parse: Parse, dest: URL)
  {
    && resp.Received?
    && "Location" in resp.header
    && |resp.header["Location"]| > 0
    && parse(resp.header["Location"][0]) == Some(dest)
  }

  /** The error a response without a usable redirect produces, by the case it falls into. */
  function FailureOf(resp: Response, parse: Parse): Error
  {
    match resp
    case TransportFailure(cause) => Transport(cause)
    case Received(header) =>
      if "Location" !in header then NoLocationHeader
      else if |header["Location"]| == 0 then LocationHeaderEmpty
      else LocationParseFailed
  }

  /** One hop: query the endpoint and classify the response. */
  function Do(u: Unwrapper, path: string, head: Head, parse: Parse): (r: Outcome)
    ensures r.endpoint == Endpoint(u.host, path)
    ensures r.result.None? <==> r.err.Some?
  {
    var endpoint := Endpoint(u.host, path);
    match head(ToString(endpoint))
    case TransportFailure(cause) => Outcome(endpoint, None, Some(Transport(cause)))
    case Received(header) =>
      if "Location" !in header then Outcome(endpoint, None, Some(NoLocationHeader))
      else if |header["Location"]| == 0 then Outcome(endpoint, None, Some(LocationHeaderEmpty))
      else
        match parse(header["Location"][0])
        case None => Outcome(endpoint, None, Some(LocationParseFailed))
        case Some(out) => Outcome(endpoint, Some(out), None)
  }

  /** Do succeeds with `dest` exactly when the endpoint's response redirects to `dest`. */
  lemma DoSucceedsIffRedirect(u: Unwrapper, path: string, head: Head, parse: Parse, dest: URL)
    ensures Do(u, path, head, parse).result == Some(dest)
            <==> RedirectsTo(head(EndpointString(u.host, path)), parse, dest)
  {
  }

  /** Do fails exactly when the response redirects nowhere, and the error names the case:
      the transport's own error, a missing Location key, an empty value list, or an
      unparseable first value. */
  lemma DoFailureClassified(u: Unwrapper, path: string, head: Head, parse: Parse)
    ensures var resp := head(EndpointString(u.host, path));
            var r := Do(u, path, head, parse);
            && (r.err.Some? <==> forall dest :: !RedirectsTo(resp, parse, dest))
            && (r.err.Some? ==> r.err == Some(FailureOf(resp, parse)))
  {
    var resp := head(EndpointString(u.host, path));
    var r := Do(u, path, head, parse);
    if r.err.None? {
      assert RedirectsTo(resp, parse, r.result.value);
    }
  }

  /** Two failing responses fall into the same failure case: both transport failures
      with the same cause, or both received with the Location key equally present and,
      when present, equally empty. */
  predicate SameFailureCase(r1: Response, r2: Response)
  {
    match (r1, r2)
    case (TransportFailure(a), TransportFailure(b)) => a == b
    case (Received(x), Received(y)) =>
      && ("Location" in x <==> "Location" in y)
      && ("Location" in x && "Location" in y ==> (|x["Location"]| == 0 <==> |y["Location"]| == 0))
    case _ => false
  }

  /** Failed hops report the same error exactly when their responses fall into the same
      failure case, so a missing Location key, an empty value list, an unparseable first
      value and each transport failure are told apart. */
  lemma DoFailuresDistinct(u: Unwrapper, path: string, h1: Head, h2: Head, parse: Parse)
    requires Do(u, path, h1, parse).err.Some? && Do(u, path, h2, parse).err.Some?
    ensures var e := EndpointString(u.host, path);
            Do(u, path, h1, parse).err == Do(u, path, h2, parse).err <==> SameFailureCase(h1(e), h2(e))
  {
  }

  /** Only the first Location value is read: responses that agree on it agree on Do. */
  lemma OnlyFirstLocationRead(u: Unwrapper, path: string, h1: Head, h2: Head, parse: Parse)
    requires var e := EndpointString(u.host, path);
             && h1(e).Received? && h2(e).Received?
             && "Location" in h1(e).header && "Location" in h2(e).header
             && |h1(e).header["Location"]| > 0 && |h2(e).header["Location"]| > 0
             && h1(e).header["Location"][0] == h2(e).header["Location"][0]
    ensures Do(u, path, h1, parse) == Do(u, path, h2, parse)
  {
  }

  /** Do consults the network only about its own endpoint. */
  lemma OnlyEndpointQueried(u: Unwrapper, path: string, h1: Head, h2: Head, parse: Parse)
    requires h1(EndpointString(u.host, path)) == h2(EndpointString(u.host, path))
    ensures Do(u, path, h1, parse) == Do(u, path, h2, parse)
  {
  }
}
