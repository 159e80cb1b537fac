# theunwrapper: chain walker and single-hop resolver in Dafny

theunwrapper resolves a short or tracking link one hop at a time. The single-hop resolver
(`unwrap.Unwrapper.Do`) sends one HEAD request to `https://{host}/{path}` without following
redirects and reads the `Location` header of the response. The chain walker
(`chain.ChainedUnwrapper`) starts from the host named by the request's `X-Forwarded-Host`
header. It calls the active unwrapper, records each hop as an `Entry`, and switches to the
unwrapper registered for the destination's host. It stops when the destination's host is
unregistered, when a hop fails, or when its cycle test fires.

Modules, one per concern:

- `Wrappers` (wrappers.dfy): `Option` and `Result`. They stand in for nil pointers and `(T, error)` returns.
- `Errors` (errors.dfy): the errors the two packages create.
- `Urls` (urls.dfy): a `URL` datatype with scheme, host, path, raw query and fragment, plus `ToString`, a model of `URL.String()`.
- `Unwrap` (unwrap.dfy): the `Unwrapper` record, its accessors, the endpoint construction and `Do`. The HEAD request is an oracle `Head = string -> Response` over the endpoint string. Go's `url.Parse` of a Location value is an oracle `Parse = string -> Option<URL>`.
- `Registry` (registry.dfy): the host-to-unwrapper map built at start-up, where the last duplicate wins.
- `Chain` (chain.dfy):
  - `New`, `Err`, `Last` and `Visited`.
  - `Next` as written. Its cycle test is on the current URL's string and it slices `Path[1:]`.
  - `Resolve`: the part of `Next` after the cycle test.
  - `NextFixed`: the corrected step described under Findings.
- `ChainInvariants` (invariants.dfy): the walker invariant `Inv` and what one step does.
- `Walk` (walk.dfy): the driver loop `for chained.Next() {}`, bounded by one network oracle per hop, over `NextFixed`.
- `Findings` (findings.dfy): concrete walks that show the two defects and the corrected behaviour.

The walker invariant `Inv` holds from `New` on, after every `Next` and every walk:

- The registry is well keyed.
- The visit list is exactly the set of strings of the hops' queried endpoints.
- `Last` is the request URL until the first hop, and the latest destination after it.
- Every hop queried an https endpoint on its own unwrapper's host.
- Every hop used a registered unwrapper. Each later hop used the one registered for the previous destination's host.
- An active unwrapper is registered and, after the first hop, belongs to the current host.
- No active unwrapper means the walk ended on an unregistered host.

Behaviour of the code the model keeps:

- The visit list is filled only after a successful `Do` (chain/chain.go:82-86).
- The cycle test reads `c.ur.String()`, the current URL's string (chain/chain.go:75).
- The unwrapper stays set after an error or a cycle. Only the stop at an unregistered host clears it (chain/chain.go:103).

## Model

| member | source | states |
|---|---|---|
| Unwrap.New | unwrap/unwrap.go:20-61 | `Host()` and `Description()` of a new unwrapper return the host and description it was built with |
| Unwrap.Endpoint | unwrap/unwrap.go:66-67 | the queried endpoint has the unwrapper's host and scheme https, and its string is `"https://" + host + "/" + path` |
| Unwrap.Do | unwrap/unwrap.go:65-93 | the queried endpoint is returned on every outcome, and the destination is absent exactly when an error is returned |
| Unwrap.DoSucceedsIffRedirect | unwrap/unwrap.go:77-92 | Do yields destination `dest` iff the endpoint's response has a Location key with at least one value and the first value parses to `dest` |
| Unwrap.DoFailureClassified | unwrap/unwrap.go:71-90 | Do fails iff the response redirects nowhere. The error is the transport's own on a transport failure, "no location header" when the key is missing, "location header empty" when the key has no values, and a parse error otherwise |
| Unwrap.DoFailuresDistinct | unwrap/unwrap.go:71-90 | two failed hops report the same error iff their responses fall into the same failure case: the same transport failure, or the Location key equally present and, when present, equally empty |
| Unwrap.OnlyFirstLocationRead | unwrap/unwrap.go:87 | responses whose first Location values agree give the same Do result, so the other values are ignored |
| Unwrap.OnlyEndpointQueried | unwrap/unwrap.go:71 | Do depends on the network only through the response for its own endpoint string |
| Registry.Build | main.go:132-135 | every unwrapper in the built registry is filed under its own host |
| Registry.BuildKeys | main.go:132-135 | the registry's keys are exactly the configured hosts |
| Registry.BuildLastWins | main.go:132-135 | each host is filed with the unwrapper made from its last definition |
| Chain.HeaderGet | chain/chain.go:18 | the header value is the first value stored under the key when the key has values, and `""` when it is missing or has none |
| Chain.New | chain/chain.go:16-35 | fails with NoUnwrapperFound iff X-Forwarded-Host is empty or unregistered. Otherwise the walker stands on the request URL with `unwrappers[host]` active, no hops, an empty visit list and no error |
| Chain.Resolve | chain/chain.go:81-105 | a failed hop only sets the error to Do's. A successful hop appends exactly one entry (endpoint, destination, previously active unwrapper), adds the endpoint string to the visit list, moves to the destination and keeps the error. It goes on iff the destination host is registered, with that host's unwrapper, and otherwise clears the unwrapper |
| Chain.Next | chain/chain.go:73-106 | callable exactly on the states where the Go code does not panic: a cycle hit, or an active unwrapper and a non-empty path. Earlier hops stay a prefix, at most one hop is added, the visit list only grows, and a true return leaves an unwrapper active and the error unchanged |
| Chain.NextFixed | chain/chain.go:73-106 | the corrected step needs only an active unwrapper. It keeps the same growth properties as Next, a true return leaves it callable again, and a newly reported cycle records no hop |
| Chain.TrimSlash | chain/chain.go:81 | the corrected path trim removes exactly one leading '/' when there is one and otherwise leaves the path unchanged |
| ChainInvariants.NewEstablishesInv | chain/chain.go:29-35 | a walker built over a well-keyed registry satisfies the walker invariant |
| ChainInvariants.ResolvePreservesInv | chain/chain.go:81-105 | a hop keeps the walker invariant, whatever path it queries |
| ChainInvariants.NextPreservesInv | chain/chain.go:73-106 | Next keeps the walker invariant through success, error and cycle outcomes |
| ChainInvariants.NextFixedPreservesInv | chain/chain.go:73-106 | the corrected Next keeps the walker invariant |
| ChainInvariants.NextOutcomes | chain/chain.go:73-106 | on a cycle only the error changes and the network is not consulted. A resolver error is stored with nothing else changed. A success appends one entry and one visit key, and Next returns true iff the destination host is registered |
| ChainInvariants.NextMonotone | chain/chain.go:73-106 | earlier hops stay a prefix, at most one hop is added, the visit list only grows, and a true return leaves an unwrapper active and the error unchanged |
| ChainInvariants.NextIgnoresHistory | chain/chain.go:73-106 | Next reads the hop list only to append to it: with any other hop list it is equally callable and takes the same step |
| ChainInvariants.ResultNilBranchDead | chain/chain.go:95-99 | a running walker that stops without an error has recorded one more hop and stands on an unregistered host. This means the nil-destination branch is never taken |
| ChainInvariants.ObservedState | chain/chain.go:55-69 | the visit list is the set of the recorded hops' endpoint strings. `Last` is the request URL before any hop and the last hop's destination afterwards |
| ChainInvariants.EntriesQueryOwnHost | chain/chain.go:89 | every entry's queried endpoint is on the host of the unwrapper it records |
| ChainInvariants.BarePathNeverCycles | chain/chain.go:74-79 | while the walker stands on a bare request path, the cycle test cannot fire, because visit keys are https endpoint strings |
| Walk.NextFixedQueriesAfresh | chain/chain.go:74-86 | the corrected Next never queries an endpoint string already queried |
| Walk.NextFixedCycleExactly | chain/chain.go:74-79 | the corrected Next reports a cycle iff the endpoint it is about to query was queried before, and then records no hop |
| Walk.Run | main.go:66-67 | the driver loop over the corrected Next, bounded by one network oracle per hop. It only appends hops, at most one per oracle, and only adds to the visit list |
| Walk.RunPreservesInv | main.go:66-67 | a walk of any length over the corrected Next keeps the walker invariant |
| Walk.RunQueriesOnce | chain/chain.go:75 | over the corrected Next, no walk queries the same endpoint string twice. This is the corrected half of the cycle-test finding |
| Findings.EmptyPathStrandsNext | chain/chain.go:81 | as written, a redirect to `https://bit.ly` returns true but leaves a state on which Next slices an empty path |
| Findings.NextFixedNeverStranded | chain/chain.go:81 | the corrected Next can always be called again after it returns true, and it queries `https://bit.ly/` on that walk |
| Findings.QueryLoopUndetected | chain/chain.go:75 | as written, a t.co/a → bit.ly/b?q → t.co/a?q loop queries t.co/a twice and returns true at every step. It comes back to an earlier state, so it repeats forever |
| Findings.NextFixedCatchesQueryLoop | chain/chain.go:75 | the corrected Next stops that loop with CycleDetected on the third step, with two hops recorded |
| Findings.NextFixedAgreesWithNext | chain/chain.go:73-106 | when the path starts with '/' and, after the first hop, the current URL is plain https with no query or fragment, the corrected and the written Next take the same step |

## Findings

| source | as written | input that shows it | evidently intended | confidence | as-written member | corrected member |
|---|---|---|---|---|---|---|
| chain/chain.go:81 | `c.ur.Path[1:]` slices the current path | t.co and bit.ly registered, and t.co/a redirects to `https://bit.ly`. The first Next returns true with an empty path. The second Next finds no cycle and slices `""[1:]`, which panics | drop a leading '/' if present (`strings.TrimPrefix`), so that the host root is queried | medium, not executed | Findings.EmptyPathStrandsNext | Findings.NextFixedNeverStranded |
| chain/chain.go:75 | the cycle test looks up `c.ur.String()`, which includes the query and fragment, but the visit list holds endpoint strings, which have neither | t.co/a redirects to `https://bit.ly/b?q` and bit.ly/b redirects to `https://t.co/a?q`. `https://t.co/a?q` never equals `https://t.co/a`, so the walk never stops | test the endpoint about to be queried, `https://{host}/{path}` | high, not executed | Findings.QueryLoopUndetected | Findings.NextFixedCatchesQueryLoop |

`Chain.NextFixed` is the corrected step. The walk driver `Walk.Run` uses it. `Walk.RunQueriesOnce` proves the intended property of the cycle test for every walk over it. `ChainInvariants.NextIgnoresHistory` is why the written loop of the second row never ends: once the state repeats apart from the hop list, so does every later step.

## Left out

- unwrap.New's transport setup is not modelled: the UDP DNS dialer, the timeouts, `CheckRedirect` and the change to `http.DefaultTransport`. It is network plumbing. The `upstreamDNS` field stands for the client.
- The HEAD request is the `Head` oracle. Go's `url.Parse` of a Location value is the `Parse` oracle.
- The endpoint's own `url.Parse` is modelled as the URL `("https", host, "/" + path)`, whose string is the formatted text. Its parse error, which the source ignores, is assumed not to happen.
- Urls.ToString has no percent-escaping, no Opaque or User fields, no ForceQuery and no "./" prefix for a colon in the first segment.
- http.Header key canonicalisation is not modelled. Header maps are taken with canonical keys.
- A registry entry holding a nil pointer cannot be expressed. main.go only stores real unwrappers, so `unwrappers[host] == nil` in New is the same as a missing key.
- Chain.Next: calling it on a state where Go would panic is excluded by its precondition `CanNext`. A panic happens when there is no cycle hit and either no unwrapper is active or the path is empty.
- Walk.Run steps with the corrected Next, not the written one, and is bounded by its list of per-hop oracles. The written Next can be stranded or loop, as shown under Findings. Termination of the unbounded `for chained.Next() {}` loop is not claimed.
- Logging, the HTTP handler, the templates, configuration decoding, the display helpers, and concurrent reads of the registry are left out. They sit outside the walker and the resolver.
