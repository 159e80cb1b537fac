/** Two walks on which the written Next misbehaves, and the corresponding behaviour of the
    corrected Next that the driver uses. Both walks start at the request path "/a" sent for
    host t.co, with t.co and bit.ly registered. */
module Findings {
  import opened Wrappers
  import opened Urls
  import opened Errors
  import opened Unwrap
  import opened Registry
  import opened Chain
  import opened ChainInvariants

  function Reg(): Registry
  {
    map["t.co" := Unwrap.New("t.co", "Twitter", "1.1.1.1:53"),
        "bit.ly" := Unwrap.New("bit.ly", "Bitly", "1.1.1.1:53")]
  }

  function Start(): ChainedUnwrapper
  {
    ChainedUnwrapper(URL("", "", "/a", "", ""), Some(Reg()["t.co"]), [], {}, Reg(), None)
  }

  /** The walker New builds for the request is Start(). */
  lemma StartIsNew()
    ensures Chain.New(Request(map["X-Forwarded-Host" := ["t.co"]], URL("", "", "/a", "", "")), Reg())
            == Success(Start())
  {
  }

  /** A redirect to the bare host https://bit.ly. */
  function RootHead(): Head
  {
    e => Received(map["Location" := ["https://bit.ly"]])
  }

  function RootParse(): Parse
  {
    s => if s == "https://bit.ly" then Some(URL("https", "bit.ly", "", "", "")) else None
  }

  /** As written: the first hop lands on a registered host with an empty path and says
      "go on", but the state it leaves cannot take another Next: the cycle test does not
      fire and Path[1:] of the empty path is out of range. */
  lemma EmptyPathStrandsNext()
    ensures var r := Next(Start(), RootHead(), RootParse());
            r.more && !CanNext(r.after)
  {
    var c := Start();
    assert c.ur.path[1..] == "a";
    assert EndpointString("t.co", "a") == "https://t.co/a";
    assert ToString(c.ur) == "/a";
    var d := Do(c.unwrapper.value, "a", RootHead(), RootParse());
    assert d.result == Some(URL("https", "bit.ly", "", "", ""));
    var r := Next(c, RootHead(), RootParse());
    assert r.after.ur == URL("https", "bit.ly", "", "", "");
    assert ToString(r.after.ur) == "https://bit.ly";
    assert r.after.visitList == {"https://t.co/a"};
  }

  /** Corrected: whenever the corrected Next says "go on", it can be called again; on the
      walk above the second hop queries the root of bit.ly. */
  lemma NextFixedNeverStranded(c: ChainedUnwrapper, head: Head, parse: Parse)
    requires c.unwrapper.Some?
    ensures var r := NextFixed(c, head, parse);
            r.more ==> r.after.unwrapper.Some?
    ensures var r := NextFixed(Start(), RootHead(), RootParse());
            r.more && PendingKey(r.after) == "https://bit.ly/"
  {
    var r := NextFixed(Start(), RootHead(), RootParse());
    assert PendingKey(Start()) == "https://t.co/a";
    assert r.after.ur == URL("https", "bit.ly", "", "", "");
  }

  /** t.co/a redirects to bit.ly/b?q, and bit.ly/b redirects to t.co/a?q. */
  function LoopHead(): Head
  {
    e => if e == "https://t.co/a" then Received(map["Location" := ["https://bit.ly/b?q"]])
         else Received(map["Location" := ["https://t.co/a?q"]])
  }

  function LoopParse(): Parse
  {
    s => if s == "https://bit.ly/b?q" then Some(URL("https", "bit.ly", "/b", "q", ""))
         else if s == "https://t.co/a?q" then Some(URL("https", "t.co", "/a", "q", ""))
         else None
  }

  /** One step of the written Next that follows a redirect to a registered host. */
  lemma HopTo(c: ChainedUnwrapper, head: Head, parse: Parse, e: string, loc: string, dest: URL)
    requires CanNext(c) && !CycleHit(c)
    requires EndpointString(c.unwrapper.value.host, c.ur.path[1..]) == e
    requires head(e) == Received(map["Location" := [loc]]) && parse(loc) == Some(dest)
    requires dest.host in c.unwrappers
    ensures var u := c.unwrapper.value;
            Next(c, head, parse)
            == Advance(true, c.(chain := c.chain + [Entry(Endpoint(u.host, c.ur.path[1..]), dest, u)],
                                visitList := c.visitList + {e},
                                ur := dest,
                                unwrapper := Some(c.unwrappers[dest.host])))
  {
  }

  /** The states the loop walk passes through: standing on `ur` with the unwrapper for
      its host, after the hops `chain`, having queried both endpoints once `chain` holds two. */
  function LoopState(ur: URL, chain: seq<Entry>): ChainedUnwrapper
  {
    ChainedUnwrapper(ur, Some(if ur.host == "t.co" then Reg()["t.co"] else Reg()["bit.ly"]), chain, if |chain| == 1 then {"https://t.co/a"}
                     else {"https://t.co/a", "https://bit.ly/b"}, Reg(), None)
  }

  function BitlyQ(): URL { URL("https", "bit.ly", "/b", "q", "") }
  function TcoQ(): URL { URL("https", "t.co", "/a", "q", "") }
  function HopT(): Entry { Entry(Endpoint("t.co", "a"), BitlyQ(), Reg()["t.co"]) }
  function HopB(): Entry { Entry(Endpoint("bit.ly", "b"), TcoQ(), Reg()["bit.ly"]) }

  lemma LoopFacts()
    ensures ToString(BitlyQ()) == "https://bit.ly/b?q" && BitlyQ().path[1..] == "b"
    ensures ToString(TcoQ()) == "https://t.co/a?q" && TcoQ().path[1..] == "a"
    ensures EndpointString("t.co", "a") == "https://t.co/a"
    ensures EndpointString("bit.ly", "b") == "https://bit.ly/b"
    ensures LoopHead()("https://t.co/a") == Received(map["Location" := ["https://bit.ly/b?q"]])
    ensures LoopHead()("https://bit.ly/b") == Received(map["Location" := ["https://t.co/a?q"]])
    ensures LoopParse()("https://bit.ly/b?q") == Some(BitlyQ())
    ensures LoopParse()("https://t.co/a?q") == Some(TcoQ())
  {
  }

  lemma LoopStep1()
    ensures Next(Start(), LoopHead(), LoopParse()) == Advance(true, LoopState(BitlyQ(), [HopT()]))
  {
    LoopFacts();
    assert ToString(Start().ur) == "/a" && Start().ur.path[1..] == "a";
    HopTo(Start(), LoopHead(), LoopParse(), "https://t.co/a", "https://bit.ly/b?q", BitlyQ());
  }

  lemma LoopStep2()
    ensures Next(LoopState(BitlyQ(), [HopT()]), LoopHead(), LoopParse())
            == Advance(true, LoopState(TcoQ(), [HopT(), HopB()]))
  {
    LoopFacts();
    var c := LoopState(BitlyQ(), [HopT()]);
    assert !CycleHit(c);
    HopTo(c, LoopHead(), LoopParse(), "https://bit.ly/b", "https://t.co/a?q", TcoQ());
  }

  lemma LoopStep3()
    ensures Next(LoopState(TcoQ(), [HopT(), HopB()]), LoopHead(), LoopParse())
            == Advance(true, LoopState(BitlyQ(), [HopT(), HopB(), HopT()]))
  {
    LoopFacts();
    var c := LoopState(TcoQ(), [HopT(), HopB()]);
    assert !CycleHit(c);
    HopTo(c, LoopHead(), LoopParse(), "https://t.co/a", "https://bit.ly/b?q", BitlyQ());
    assert c.visitList + {"https://t.co/a"} == c.visitList;
  }

  lemma LoopStep4()
    ensures Next(LoopState(BitlyQ(), [HopT(), HopB(), HopT()]), LoopHead(), LoopParse())
            == Advance(true, LoopState(TcoQ(), [HopT(), HopB(), HopT(), HopB()]))
  {
    LoopFacts();
    var c := LoopState(BitlyQ(), [HopT(), HopB(), HopT()]);
    assert !CycleHit(c);
    HopTo(c, LoopHead(), LoopParse(), "https://bit.ly/b", "https://t.co/a?q", TcoQ());
    assert c.visitList + {"https://bit.ly/b"} == c.visitList;
  }

  /** As written: the cycle test compares "https://t.co/a?q" with the endpoint string
      "https://t.co/a", so the walk queries t.co/a a second time, says "go on" at every
      step, and after the fourth step is back in the state of the second one apart from the
      longer hop list. Next ignores the hop list (ChainInvariants.NextIgnoresHistory), so
      the walk repeats forever. */
  lemma QueryLoopUndetected()
    ensures var r1 := Next(Start(), LoopHead(), LoopParse());
            && r1.more && CanNext(r1.after)
            && var r2 := Next(r1.after, LoopHead(), LoopParse());
            && r2.more && CanNext(r2.after)
            && var r3 := Next(r2.after, LoopHead(), LoopParse());
            && r3.more && CanNext(r3.after)
            && var r4 := Next(r3.after, LoopHead(), LoopParse());
            && r4.more
            && r4.after.chain[0].from == r4.after.chain[2].from
            && r4.after.(chain := r2.after.chain) == r2.after
  {
    LoopStep1();
    LoopStep2();
    LoopStep3();
    LoopStep4();
  }

  /** Corrected: the same walk stops with a cycle on the third step, before t.co/a is
      queried again, with the two hops taken so far. */
  lemma NextFixedCatchesQueryLoop()
    ensures var r1 := NextFixed(Start(), LoopHead(), LoopParse());
            && r1.more
            && var r2 := NextFixed(r1.after, LoopHead(), LoopParse());
            && r2.more
            && var r3 := NextFixed(r2.after, LoopHead(), LoopParse());
            && !r3.more
            && r3.after.err == Some(CycleDetected)
            && |r3.after.chain| == 2
  {
    var r1 := NextFixed(Start(), LoopHead(), LoopParse());
    assert PendingKey(Start()) == "https://t.co/a";
    assert r1.after.ur == URL("https", "bit.ly", "/b", "q", "");
    assert PendingKey(r1.after) == "https://bit.ly/b";
    var r2 := NextFixed(r1.after, LoopHead(), LoopParse());
    assert r2.after.ur == URL("https", "t.co", "/a", "q", "");
    assert PendingKey(r2.after) == "https://t.co/a";
  }

  /** The correction changes nothing on walks the written Next already handles: when the
      current path starts with '/' and, after the first hop, the current URL is a plain
      https URL without query or fragment, both versions take the same step. */
  lemma NextFixedAgreesWithNext(c: ChainedUnwrapper, reg: Registry, start: URL, head: Head, parse: Parse)
    requires Inv(c, reg, start) && c.unwrapper.Some?
    requires |c.ur.path| > 0 && c.ur.path[0] == '/'
    requires |c.chain| > 0 ==> c.ur.scheme == "https" && c.ur.rawQuery == "" && c.ur.fragment == ""
    ensures NextFixed(c, head, parse) == Next(c, head, parse)
  {
    var p := c.ur.path;
    assert TrimSlash(p) == p[1..];
    if |c.chain| > 0 {
      var h := c.unwrapper.value.host;
      assert p == "/" + p[1..];
      assert ToString(c.ur) == "https:" + "//" + h + p;
      assert ToString(c.ur) == PendingKey(c);
    }
  }
}
