/** The registry of unwrappers main.go builds at start-up: one unwrapper per configured
    host, keyed by that host, a later duplicate replacing an earlier one. */
module Registry {
  import Unwrap

  /** One entry of the configuration list. */
  datatype UnwrapperDef = UnwrapperDef(host: string, description: string)

  type Registry = map<string, Unwrap.Unwrapper>

  /** Every unwrapper is filed under its own host. */
  predicate WellKeyed(reg: Registry)
  {
    forall h :: h in reg ==> reg[h].host == h
  }

  /** `defs[i]` is the last definition for its host. */
  predicate LastFor(defs: seq<UnwrapperDef>, i: int)
    requires 0 <= i < |defs|
  {
    forall j :: i < j < |defs| ==> defs[j].host != defs[i].host
  }

  /** The start-up loop over the definitions, in order. */
  function Build(defs: seq<UnwrapperDef>, upstreamDNS: string): (reg: Registry)
    ensures WellKeyed(reg)
  {
    if |defs| == 0 then map[]
    else
      var d := defs[|defs| - 1];
      Build(defs[..|defs| - 1], upstreamDNS)[d.host := Unwrap.New(d.host, d.description, upstreamDNS)]
  }

  /** The registry holds exactly the configured hosts. */
  lemma {:induction false} BuildKeys(defs: seq<UnwrapperDef>, upstreamDNS: string)
    ensures Build(defs, upstreamDNS).Keys == set d | d in defs :: d.host
  {
    if |defs| > 0 {
      var init := defs[..|defs| - 1];
      var d := defs[|defs| - 1];
      BuildKeys(init, upstreamDNS);
      assert defs == init + [d];
      var hosts := set x | x in defs :: x.host;
      var initHosts := set x | x in init :: x.host;
      assert hosts == initHosts + {d.host} by {
        forall h | h in hosts ensures h in initHosts + {d.host} {
          var x :| x in defs && x.host == h;
          if x != d {
            assert x in init;
          }
        }
        assert d in defs;
        forall h | h in initHosts ensures h in hosts {
          var x :| x in init && x.host == h;
          assert x in defs;
        }
      }
    }
  }

  /** Each configured host is filed with the unwrapper made from its last definition. */
  lemma {:induction false} BuildLastWins(defs: seq<UnwrapperDef>, upstreamDNS: string)
    ensures forall i :: 0 <= i < |defs| && LastFor(defs, i) ==>
              defs[i].host in Build(defs, upstreamDNS)
              && Build(defs, upstreamDNS)[defs[i].host] == Unwrap.New(defs[i].host, defs[i].description, upstreamDNS)
  {
    if |defs| > 0 {
      var init := defs[..|defs| - 1];
      var d := defs[|defs| - 1];
      BuildLastWins(init, upstreamDNS);
      forall i | 0 <= i < |defs| && LastFor(defs, i)
        ensures defs[i].host in Build(defs, upstreamDNS)
        ensures Build(defs, upstreamDNS)[defs[i].host] == Unwrap.New(defs[i].host, defs[i].description, upstreamDNS)
      {
        if i < |init| {
          assert defs[i] == init[i];
          assert LastFor(init, i);
        }
      }
    }
  }
}
