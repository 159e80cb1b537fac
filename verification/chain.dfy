/** The chain walker of chain/chain.go: a request-scoped state machine that resolves a
    short link one hop at a time, switching unwrapper when the destination's host is
    registered and stopping when it is not, on an error, or on a cycle. */
module Chain {
  import opened Wrappers
  import opened Urls
  import opened Errors
  import opened Unwrap
  import opened Registry

  /** The parts of the inbound request the walker reads. */
  datatype Request = Request(header: map<string, seq<string>>, url: URL)

  /** http.Header.Get: the first value under the key, or "" when there is none. */
  function HeaderGet(header: map<string, seq<string>>, key: string): (v: string)
    ensures key in header && |header[key]| > 0 ==> v == header[key][0]
    ensures (key !in header || |header[key]| == 0) ==> v == ""
  {
    if key in header && |header[key]| > 0 then header[key][0] else ""
  }

  /** One hop: the endpoint queried, the destination it redirected to, and the unwrapper
      that was active when it was queried. */
  datatype Entry = Entry(from: URL, to: URL, using: Unwrapper)

  /** The walker's state: the current URL, the active unwrapper (None once the chain has
      ended at an unregistered host), the hops so far, the endpoint strings queried so far,
      the registry and the last error. */
  datatype ChainedUnwrapper = ChainedUnwrapper(
    ur: URL,
    unwrapper: Option<Unwrapper>,
    chain: seq<Entry>,
    visitList: set<string>,
    unwrappers: Registry,
    err: Option<Error>)

  /** What one call of Next returns: whether to go on, and the state afterwards. */
  datatype Advance = Advance(more: bool, after: ChainedUnwrapper)

  /** The walker for a request, or NoUnwrapperFound when the X-Forwarded-Host header is
      empty or names no registered host. */
  function New(r: Request, unwrappers: Registry): (res: Result<ChainedUnwrapper, Error>)
    ensures var host := HeaderGet(r.header, "X-Forwarded-Host");
            && (res.Failure? <==> host == "" || host !in unwrappers)
            && (res.Failure? ==> res.error == NoUnwrapperFound)
            && (res.Success? ==>
                  && res.value.ur == r.url
                  && res.value.unwrapper == Some(unwrappers[host])
                  && res.value.chain == []
                  && res.value.visitList == {}
                  && res.value.unwrappers == unwrappers
                  && res.value.err == None)
  {
    var host := HeaderGet(r.header, "X-Forwarded-Host");
    if host != "" then
      if host in unwrappers then
        Success(ChainedUnwrapper(r.url, Some(unwrappers[host]), [], {}, unwrappers, None))
      else
        Failure(NoUnwrapperFound)
    else
      Failure(NoUnwrapperFound)
  }

  function Err(c: ChainedUnwrapper): Option<Error>
  {
    c.err
  }

  function Last(c: ChainedUnwrapper): URL
  {
    c.ur
  }

  function Visited(c: ChainedUnwrapper): seq<Entry>
  {
    c.chain
  }

  /** The cycle test of Next: the current URL's string is already in the visit list. */
  predicate CycleHit(c: ChainedUnwrapper)
  {
    ToString(c.ur) in c.visitList
  }

  /** Next returns without fault: either the cycle test stops it first, or there is an
      active unwrapper to call and a path to drop the first character of. */
  predicate CanNext(c: ChainedUnwrapper)
  {
    CycleHit(c) || (c.unwrapper.Some? && |c.ur.path| > 0)
  }

  /** Everything Next does after the cycle test, given the path handed to Do: call the
      active unwrapper, and on success record the hop, mark the endpoint visited, and
      either move to the destination's unwrapper or stop there. */
  function Resolve(c: ChainedUnwrapper, path: string, head: Head, parse: Parse): (r: Advance)
    requires c.unwrapper.Some?
    ensures var u := c.unwrapper.value;
            var d := Do(u, path, head, parse);
            && (d.err.Some? ==> !r.more && r.after == c.(err := d.err))
            && (d.err.None? ==>
                  && r.after.chain == c.chain + [Entry(Endpoint(u.host, path), d.result.value, u)]
                  && r.after.visitList == c.visitList + {EndpointString(u.host, path)}
                  && r.after.ur == d.result.value
                  && r.after.err == c.err
                  && r.after.unwrappers == c.unwrappers
                  && (r.more <==> d.result.value.host in c.unwrappers)
                  && (r.more ==> r.after.unwrapper == Some(c.unwrappers[d.result.value.host]))
                  && (!r.more ==> r.after.unwrapper == None))
  {
    var u := c.unwrapper.value;
    var d := Do(u, path, head, parse);
    if d.err.Some? then
      Advance(false, c.(err := d.err))
    else
      var visited := c.(visitList := c.visitList + {ToString(d.endpoint)});
      match d.result
      case Some(result) =>
        var recorded := visited.(chain := visited.chain + [Entry(d.endpoint, result, u)]);
        if result.host in c.unwrappers then
          Advance(true, recorded.(unwrapper := Some(c.unwrappers[result.host]), ur := result))
        else
          Advance(false, recorded.(unwrapper := None, ur := result))
      case None =>
        Advance(false, visited.(unwrapper := None))
  }

  /** ChainedUnwrapper.Next as written: the cycle test on the current URL's string, then
      one hop with the current path minus its first character. */
  function Next(c: ChainedUnwrapper, head: Head, parse: Parse): (r: Advance)
    requires CanNext(c)
    ensures c.chain <= r.after.chain && |r.after.chain| <= |c.chain| + 1
    ensures c.visitList <= r.after.visitList && r.after.unwrappers == c.unwrappers
    ensures r.more ==> r.after.unwrapper.Some? && r.after.err == c.err
  {
    if CycleHit(c) then Advance(false, c.(err := Some(CycleDetected)))
    else Resolve(c, c.ur.path[1..], head, parse)
  }

  /** strings.TrimPrefix(path, "/"): drop one leading '/', if there is one. */
  function TrimSlash(p: string): (q: string)
    ensures p == "/" + q || (p == q && (|p| == 0 || p[0] != '/'))
  {
    if |p| > 0 && p[0] == '/' then p[1..] else p
  }

  /** The endpoint string the next hop would query. */
  function PendingKey(c: ChainedUnwrapper): string
    requires c.unwrapper.Some?
  {
    EndpointString(c.unwrapper.value.host, TrimSlash(c.ur.path))
  }

  /** Next with the two defects of the written version corrected: the cycle test looks
      for the endpoint about to be queried, and the leading '/' is trimmed rather than
      sliced off, so an empty path is queried as the host's root. */
  function NextFixed(c: ChainedUnwrapper, head: Head, parse: Parse): (r: Advance)
    requires c.unwrapper.Some?
    ensures c.chain <= r.after.chain && |r.after.chain| <= |c.chain| + 1
    ensures c.visitList <= r.after.visitList && r.after.unwrappers == c.unwrappers
    ensures r.more ==> r.after.unwrapper.Some? && r.after.err == c.err
    ensures r.after.err == Some(CycleDetected) && c.err != Some(CycleDetected)
            ==> !r.more && r.after.chain == c.chain
  {
    if PendingKey(c) in c.visitList then Advance(false, c.(err := Some(CycleDetected)))
    else Resolve(c, TrimSlash(c.ur.path), head, parse)
  }
}
