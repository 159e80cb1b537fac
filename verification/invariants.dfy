/** The invariants the chain walker keeps, and what one call of Next does to its state. */
module ChainInvariants {
  import opened Wrappers
  import opened Urls
  import opened Errors
  import opened Unwrap
  import opened Registry
  import opened Chain

  /** The URL the walker stands on: the request URL before any hop, afterwards the
      destination of the latest hop. */
  function Latest(chain: seq<Entry>, start: URL): URL
  {
    if |chain| == 0 then start else chain[|chain| - 1].to
  }

  /** The strings of the endpoints the hops queried. */
  function QueriedKeys(chain: seq<Entry>): set<string>
  {
    set e | e in chain :: ToString(e.from)
  }

  /** The unwrapper is the one the registry files under its host. */
  predicate Registered(u: Unwrapper, reg: Registry)
  {
    u.host in reg && reg[u.host] == u
  }

  /** Each hop queried an https endpoint on its own unwrapper's host. */
  predicate HopsOnOwnHost(chain: seq<Entry>)
  {
    forall i :: 0 <= i < |chain| ==> chain[i].from.host == chain[i].using.host && chain[i].from.scheme == "https"
  }

  /** Each hop used a registered unwrapper, and each hop after the first used the one
      registered for the previous hop's destination host. */
  predicate Linked(chain: seq<Entry>, reg: Registry)
  {
    && (forall i :: 0 <= i < |chain| ==> Registered(chain[i].using, reg))
    && (forall i :: 0 <= i < |chain| - 1 ==> chain[i].to.host in reg && chain[i + 1].using == reg[chain[i].to.host])
  }

  /** The state of a walker started at `start` over the registry `reg`. */
  predicate Inv(c: ChainedUnwrapper, reg: Registry, start: URL)
  {
    && c.unwrappers == reg
    && WellKeyed(reg)
    && c.visitList == QueriedKeys(c.chain)
    && c.ur == Latest(c.chain, start)
    && HopsOnOwnHost(c.chain)
    && Linked(c.chain, reg)
    && (c.unwrapper.Some? ==> Registered(c.unwrapper.value, reg))
    && (c.unwrapper.Some? && |c.chain| > 0 ==> c.unwrapper.value.host == c.ur.host)
    && (c.unwrapper.None? ==> |c.chain| > 0 && c.ur.host !in reg)
  }

  lemma QueriedKeysAppend(chain: seq<Entry>, e: Entry)
    ensures QueriedKeys(chain + [e]) == QueriedKeys(chain) + {ToString(e.from)}
  {
    var ext := chain + [e];
    forall k | k in QueriedKeys(ext)
      ensures k in QueriedKeys(chain) + {ToString(e.from)}
    {
      var x :| x in ext && ToString(x.from) == k;
      if x != e {
        assert x in chain;
      }
    }
    forall k | k in QueriedKeys(chain)
      ensures k in QueriedKeys(ext)
    {
      var x :| x in chain && ToString(x.from) == k;
      assert x in ext;
    }
    assert e in ext;
  }

  /** A walker New produces over a well-keyed registry satisfies the invariant. */
  lemma NewEstablishesInv(r: Request, reg: Registry)
    requires WellKeyed(reg)
    requires Chain.New(r, reg).Success?
    ensures Inv(Chain.New(r, reg).value, reg, r.url)
  {
  }

  lemma HopsOnOwnHostAppend(chain: seq<Entry>, e: Entry)
    requires HopsOnOwnHost(chain) && e.from.host == e.using.host && e.from.scheme == "https"
    ensures HopsOnOwnHost(chain + [e])
  {
    var ext := chain + [e];
    forall i | 0 <= i < |ext|
      ensures ext[i].from.host == ext[i].using.host && ext[i].from.scheme == "https"
    {
      if i < |chain| {
        assert ext[i] == chain[i];
      }
    }
  }

  lemma LinkedAppend(chain: seq<Entry>, e: Entry, reg: Registry)
    requires Linked(chain, reg) && Registered(e.using, reg)
    requires |chain| > 0 ==> chain[|chain| - 1].to.host in reg && e.using == reg[chain[|chain| - 1].to.host]
    ensures Linked(chain + [e], reg)
  {
    var ext := chain + [e];
    forall i | 0 <= i < |ext|
      ensures Registered(ext[i].using, reg)
    {
      if i < |chain| {
        assert ext[i] == chain[i];
      }
    }
    forall i | 0 <= i < |ext| - 1
      ensures ext[i].to.host in reg && ext[i + 1].using == reg[ext[i].to.host]
    {
      assert ext[i] == chain[i];
      if i + 1 < |chain| {
        assert ext[i + 1] == chain[i + 1];
      }
    }
  }

  /** One hop keeps the invariant, whatever path it queries. */
  lemma ResolvePreservesInv(c: ChainedUnwrapper, reg: Registry, start: URL,
                            path: string, head: Head, parse: Parse)
    requires Inv(c, reg, start) && c.unwrapper.Some?
    ensures Inv(Resolve(c, path, head, parse).after, reg, start)
  {
    var u := c.unwrapper.value;
    var d := Do(u, path, head, parse);
    if d.err.None? {
      var e := Entry(Endpoint(u.host, path), d.result.value, u);
      QueriedKeysAppend(c.chain, e);
      HopsOnOwnHostAppend(c.chain, e);
      LinkedAppend(c.chain, e, reg);
    }
  }

  /** Next as written keeps the invariant. */
  lemma NextPreservesInv(c: ChainedUnwrapper, reg: Registry, start: URL, head: Head, parse: Parse)
    requires Inv(c, reg, start) && CanNext(c)
    ensures Inv(Next(c, head, parse).after, reg, start)
  {
    if !CycleHit(c) {
      ResolvePreservesInv(c, reg, start, c.ur.path[1..], head, parse);
    }
  }

  /** The corrected Next keeps the invariant. */
  lemma NextFixedPreservesInv(c: ChainedUnwrapper, reg: Registry, start: URL, head: Head, parse: Parse)
    requires Inv(c, reg, start) && c.unwrapper.Some?
    ensures Inv(NextFixed(c, head, parse).after, reg, start)
  {
    if PendingKey(c) !in c.visitList {
      ResolvePreservesInv(c, reg, start, TrimSlash(c.ur.path), head, parse);
    }
  }

  /** Next's three outcomes. On a cycle only the error changes and the network is not
      consulted. On a failed hop the error is Do's and nothing else changes. On a
      successful hop exactly one entry is appended, recording the queried endpoint, the
      destination and the unwrapper active before the step, and the endpoint's string
      joins the visit list; the walk goes on exactly when the destination's host is
      registered, with that host's unwrapper, and otherwise stops at the destination
      with no unwrapper and the error untouched. */
  lemma NextOutcomes(c: ChainedUnwrapper, head: Head, parse: Parse)
    requires CanNext(c)
    ensures var r := Next(c, head, parse);
            && (CycleHit(c) ==>
                  && !r.more
                  && r.after == c.(err := Some(CycleDetected))
                  && forall other: Head :: Next(c, other, parse) == r)
            && (!CycleHit(c) ==>
                  var u := c.unwrapper.value;
                  var path := c.ur.path[1..];
                  var d := Do(u, path, head, parse);
                  && (d.err.Some? ==> !r.more && r.after == c.(err := d.err))
                  && (d.err.None? ==>
                        var dest := d.result.value;
                        && r.after.chain == c.chain + [Entry(Endpoint(u.host, path), dest, u)]
                        && r.after.visitList == c.visitList + {EndpointString(u.host, path)}
                        && r.after.ur == dest
                        && r.after.err == c.err
                        && (r.more <==> dest.host in c.unwrappers)
                        && (r.more ==> r.after.unwrapper == Some(c.unwrappers[dest.host]))
                        && (!r.more ==> r.after.unwrapper.None?)))
  {
  }

  /** A step never rewrites history: the old hops stay a prefix, at most one is added,
      the visit list only grows, the registry is untouched, and a step that says "go on"
      leaves an unwrapper active and the error as it was. */
  lemma NextMonotone(c: ChainedUnwrapper, head: Head, parse: Parse)
    requires CanNext(c)
    ensures var r := Next(c, head, parse);
            && c.chain <= r.after.chain
            && |r.after.chain| <= |c.chain| + 1
            && c.visitList <= r.after.visitList
            && r.after.unwrappers == c.unwrappers
            && (r.more ==> r.after.unwrapper.Some? && r.after.err == c.err)
  {
  }

  /** Next reads the hop list only to append to it: on a state with any other hop list it
      is equally callable and takes the same step. */
  lemma NextIgnoresHistory(c: ChainedUnwrapper, ch: seq<Entry>, head: Head, parse: Parse)
    requires CanNext(c)
    ensures CanNext(c.(chain := ch))
    ensures var r, r' := Next(c, head, parse), Next(c.(chain := ch), head, parse);
            r'.more == r.more && r'.after.(chain := []) == r.after.(chain := [])
  {
  }

  /** Since Do returns a destination whenever it returns no error, Next's branch for a nil
      destination is dead: a running walker that stops without an error has recorded the
      final hop and stands on an unregistered host. */
  lemma ResultNilBranchDead(c: ChainedUnwrapper, reg: Registry, start: URL, head: Head, parse: Parse)
    requires Inv(c, reg, start) && CanNext(c) && c.err.None?
    ensures var r := Next(c, head, parse);
            !r.more && r.after.err.None? ==>
              && |r.after.chain| == |c.chain| + 1
              && r.after.unwrapper.None?
              && r.after.ur == r.after.chain[|c.chain|].to
              && r.after.ur.host !in reg
  {
    NextPreservesInv(c, reg, start, head, parse);
  }

  /** The visit list holds exactly the queried endpoints of the recorded hops, and Last
      is the request URL until the first hop and the latest destination afterwards. */
  lemma ObservedState(c: ChainedUnwrapper, reg: Registry, start: URL)
    requires Inv(c, reg, start)
    ensures c.visitList == set e | e in Visited(c) :: ToString(e.from)
    ensures |Visited(c)| == 0 ==> Last(c) == start
    ensures |Visited(c)| > 0 ==> Last(c) == Visited(c)[|Visited(c)| - 1].to
  {
  }

  /** Every hop queried its own unwrapper's host. */
  lemma EntriesQueryOwnHost(c: ChainedUnwrapper, reg: Registry, start: URL, i: int)
    requires Inv(c, reg, start) && 0 <= i < |c.chain|
    ensures c.chain[i].from.host == Host(c.chain[i].using)
  {
  }

  /** The string of an https URL is never a bare path's string. */
  lemma HttpsStringNotBare(u: URL, e: URL)
    requires IsBarePath(u) && e.scheme == "https"
    ensures ToString(u) != ToString(e)
  {
    BarePathString(u);
    assert ToString(e)[0] == 'h';
  }

  /** The cycle test of the written Next compares the current URL's string with endpoint
      strings, so while the walker stands on the request's bare path the test cannot fire. */
  lemma BarePathNeverCycles(c: ChainedUnwrapper, reg: Registry, start: URL)
    requires Inv(c, reg, start) && IsBarePath(c.ur)
    ensures !CycleHit(c)
  {
    if CycleHit(c) {
      var e :| e in c.chain && ToString(e.from) == ToString(c.ur);
      var i :| 0 <= i < |c.chain| && c.chain[i] == e;
      HttpsStringNotBare(c.ur, e.from);
    }
  }
}
