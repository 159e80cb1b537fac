/** The driver loop `for chained.Next() {}` of the request handler, bounded by one network
    oracle per hop, over the corrected Next; and what every walk preserves. */
module Walk {
  import opened Wrappers
  import opened Urls
  import opened Errors
  import opened Unwrap
  import opened Registry
  import opened Chain
  import opened ChainInvariants

  /** Call the corrected Next until it says stop or the oracles run out; `heads[k]`
      answers the k-th hop. A walk only appends hops, at most one per oracle, and only adds
      to the visit list. */
  function Run(c: ChainedUnwrapper, heads: seq<Head>, parse: Parse): (r: ChainedUnwrapper)
    requires c.unwrapper.Some?
    ensures c.chain <= r.chain && |r.chain| <= |c.chain| + |heads|
    ensures c.visitList <= r.visitList && r.unwrappers == c.unwrappers
    decreases |heads|
  {
    if |heads| == 0 then c
    else
      var r := NextFixed(c, heads[0], parse);
      if r.more then Run(r.after, heads[1..], parse) else r.after
  }

  /** No endpoint string appears twice among the queried endpoints. */
  predicate QueriedOnce(chain: seq<Entry>)
  {
    forall i, j :: 0 <= i < j < |chain| ==> ToString(chain[i].from) != ToString(chain[j].from)
  }

  /** The corrected Next never queries an endpoint it has queried before. */
  lemma NextFixedQueriesAfresh(c: ChainedUnwrapper, reg: Registry, start: URL, head: Head, parse: Parse)
    requires Inv(c, reg, start) && c.unwrapper.Some? && QueriedOnce(c.chain)
    ensures QueriedOnce(NextFixed(c, head, parse).after.chain)
  {
    var u := c.unwrapper.value;
    var path := TrimSlash(c.ur.path);
    var d := Do(u, path, head, parse);
    if PendingKey(c) !in c.visitList && d.err.None? {
      var ch := NextFixed(c, head, parse).after.chain;
      assert ch == c.chain + [Entry(Endpoint(u.host, path), d.result.value, u)];
      forall i, j | 0 <= i < j < |ch|
        ensures ToString(ch[i].from) != ToString(ch[j].from)
      {
        assert ch[i] == c.chain[i] && c.chain[i] in c.chain;
        if j < |c.chain| {
          assert ch[j] == c.chain[j];
        }
      }
    }
  }

  /** The corrected Next reports a cycle exactly when the endpoint it is about to query
      has been queried before. */
  lemma NextFixedCycleExactly(c: ChainedUnwrapper, reg: Registry, start: URL, head: Head, parse: Parse)
    requires Inv(c, reg, start) && c.unwrapper.Some? && c.err.None?
    ensures var r := NextFixed(c, head, parse);
            (r.after.err == Some(CycleDetected)) <==> PendingKey(c) in QueriedKeys(c.chain)
    ensures var r := NextFixed(c, head, parse);
            r.after.err == Some(CycleDetected) ==> !r.more && r.after.chain == c.chain
  {
    DoFailureClassified(c.unwrapper.value, TrimSlash(c.ur.path), head, parse);
  }

  /** A walk keeps the invariant. */
  lemma {:induction false} RunPreservesInv(c: ChainedUnwrapper, reg: Registry, start: URL,
                                           heads: seq<Head>, parse: Parse)
    requires Inv(c, reg, start) && c.unwrapper.Some?
    ensures Inv(Run(c, heads, parse), reg, start)
    decreases |heads|
  {
    if |heads| > 0 {
      var r := NextFixed(c, heads[0], parse);
      NextFixedPreservesInv(c, reg, start, heads[0], parse);
      if r.more {
        RunPreservesInv(r.after, reg, start, heads[1..], parse);
      }
    }
  }

  /** A walk never queries the same endpoint twice. */
  lemma {:induction false} RunQueriesOnce(c: ChainedUnwrapper, reg: Registry, start: URL,
                                          heads: seq<Head>, parse: Parse)
    requires Inv(c, reg, start) && c.unwrapper.Some? && QueriedOnce(c.chain)
    ensures QueriedOnce(Run(c, heads, parse).chain)
    decreases |heads|
  {
    if |heads| > 0 {
      var r := NextFixed(c, heads[0], parse);
      NextFixedQueriesAfresh(c, reg, start, heads[0], parse);
      if r.more {
        NextFixedPreservesInv(c, reg, start, heads[0], parse);
        RunQueriesOnce(r.after, reg, start, heads[1..], parse);
      }
    }
  }
}
