/**
 Bypass routes shared by tunnels: the reference counts of
 internal/routing/endpoint.go:199-286 against the life of the tunnels that hold
 them (internal/openvpn/manager.go:82-116, 160-280).
 */
module Endpoints {
  import opened Wrappers

  /** net.ParseIP: an address, of which there may be several spellings. */
  type Address = nat

  /** A tunnel object: its process may have been started, and its cleanup runs once. */
  datatype Tunnel = Tunnel(ip: string, cleaned: bool)

  /** How StartTunnel fares: the bypass route, the process, and the wait for the interface. */
  datatype Startup = Startup(routed: bool, spawned: bool, up: bool)

  datatype Event = Start(id: nat, ip: string, how: Startup) | Exit(id: nat) | Stop(id: nat)

  /** How many tunnels to this text have been started and not cleaned. */
  function Holders(ts: map<nat, Tunnel>, ip: string): set<nat> {
    set id | id in ts && !ts[id].cleaned && ts[id].ip == ip
  }

  class Manager {
    const parse: string -> Option<Address>
    var refCounts: map<string, nat>
    var routes: set<Address>
    var tunnels: map<nat, Tunnel>

    constructor (parse: string -> Option<Address>)
      ensures this.parse == parse && refCounts == map[] && routes == {} && tunnels == map[] && Valid()
    {
      this.parse := parse;
      refCounts, routes, tunnels := map[], {}, map[];
      new;
      forall ip: string ensures Holders(tunnels, ip) == {} {}
    }

    function RefCount(ip: string): nat
      reads this
    {
      if ip in refCounts then refCounts[ip] else 0
    }

    /** Every count is the number of tunnels that hold the address, and every holder's address is one. */
    ghost predicate Valid()
      reads this
    {
      && (forall ip: string :: RefCount(ip) == |Holders(tunnels, ip)|)
      && (forall id | id in tunnels :: tunnels[id].ip != "" && parse(tunnels[id].ip).Some?)
    }

    /** Every address held has its route, and no other address has one. */
    ghost predicate Routed()
      reads this
    {
      forall a: Address :: a in routes <==> exists ip: string :: RefCount(ip) > 0 && parse(ip) == Some(a)
    }

    /** Another spelling of the same address is held. */
    ghost predicate SpeltAnother(ip: string)
      reads this
    {
      exists k: string :: k != ip && RefCount(k) > 0 && parse(k) == parse(ip)
    }

    /** The last holder of this text lets go, while another spelling of its address is held. */
    ghost predicate StrandsAnother(ip: string)
      reads this
    {
      ip != "" && parse(ip).Some? && RefCount(ip) == 1 && SpeltAnother(ip)
    }

    // ---- The endpoint manager ----

    method AcquireEndpoint(ip: string, ensured: bool) returns (ok: bool)
      modifies this`refCounts, this`routes
      ensures ok <==> ip != "" && parse(ip).Some? && (old(RefCount(ip)) > 0 || ensured)
      ensures !ok ==> refCounts == old(refCounts) && routes == old(routes)
      ensures ok ==> forall k: string :: RefCount(k) == old(RefCount(k)) + if k == ip then 1 else 0
      ensures ok ==> routes == if old(RefCount(ip)) > 0 then old(routes) else old(routes) + {parse(ip).value}
      ensures old(Routed()) ==> Routed()
    {
      if ip == "" || parse(ip).None? {
        return false;
      }
      if RefCount(ip) > 0 {
        refCounts := refCounts[ip := refCounts[ip] + 1];
        return true;
      }
      if !ensured {
        return false;
      }
      routes := routes + {parse(ip).value};
      refCounts := refCounts[ip := 1];
      if old(Routed()) {
        forall a: Address ensures a in routes <==> exists k: string :: RefCount(k) > 0 && parse(k) == Some(a) {
          if a in old(routes) {
            var k: string :| old(RefCount(k)) > 0 && parse(k) == Some(a);
            assert RefCount(k) > 0;
          } else if a in routes {
            assert RefCount(ip) > 0;
          }
        }
      }
      return true;
    }

    method ReleaseEndpoint(ip: string)
      modifies this`refCounts, this`routes
      ensures forall k: string ::
        RefCount(k) == old(RefCount(k)) - if k == ip && ip != "" && parse(ip).Some? &&
            old(RefCount(k)) > 0 then 1 else 0
      ensures routes == if ip != "" && parse(ip).Some? && old(RefCount(ip)) == 1 then old(routes) - {parse(ip).value}
          else old(routes)
      ensures old(Routed()) ==> (Routed() <==> !old(StrandsAnother(ip)))
      ensures old(Routed()) && Canonical(parse) ==> Routed()
    {
      if ip == "" || parse(ip).None? {
        return;
      }
      if ip !in refCounts || refCounts[ip] == 0 {
        refCounts := refCounts - {ip};
        SameRoutes();
        return;
      }
      refCounts := refCounts[ip := refCounts[ip] - 1];
      if refCounts[ip] > 0 {
        SameRoutes();
        return;
      }
      refCounts := refCounts - {ip};
      routes := routes - {parse(ip).value};
      LastRelease(ip);
    }

    twostate lemma SameRoutes()
      requires routes == old(routes) && forall k: string :: RefCount(k) > 0 <==> old(RefCount(k)) > 0
      ensures Routed() <==> old(Routed())
    {
      forall a: Address
        ensures (exists k: string :: RefCount(k) > 0 && parse(k) == Some(a)) <==>
          (exists k: string :: old(RefCount(k)) > 0 && parse(k) == Some(a))
      {
        if k: string :| RefCount(k) > 0 && parse(k) == Some(a) { assert old(RefCount(k)) > 0; }
        if k: string :| old(RefCount(k)) > 0 && parse(k) == Some(a) { assert RefCount(k) > 0; }
      }
    }

    twostate lemma LastRelease(ip: string)
      requires ip != "" && parse(ip).Some? && old(RefCount(ip)) == 1 && RefCount(ip) == 0
      requires routes == old(routes) - {parse(ip).value}
      requires forall k: string | k != ip :: RefCount(k) == old(RefCount(k))
      ensures old(Routed()) ==> (Routed() <==> !old(SpeltAnother(ip)))
    {
      if old(Routed()) {
        if old(SpeltAnother(ip)) {
          var k: string :| k != ip && old(RefCount(k)) > 0 && parse(k) == parse(ip);
          assert RefCount(k) > 0 && parse(ip).value !in routes;
        } else {
          forall a: Address ensures a in routes <==> exists k: string :: RefCount(k) > 0 && parse(k) == Some(a) {
            if a in routes {
              var k: string :| old(RefCount(k)) > 0 && parse(k) == Some(a);
              assert k != ip && RefCount(k) > 0;
            }
            if k: string :| RefCount(k) > 0 && parse(k) == Some(a) {
              assert k != ip && old(RefCount(k)) > 0;
              assert a != parse(ip).value;
            }
          }
        }
      }
    }

    // ---- The tunnels ----

    /** cleanup, under its sync.Once. */
    method Cleanup(id: nat)
      requires Valid() && id in tunnels
      modifies this
      ensures Valid() && tunnels == old(tunnels)[id := old(tunnels)[id].(cleaned := true)]
      ensures old(Routed()) ==> (Routed() <==> old(tunnels)[id].cleaned || !old(StrandsAnother(tunnels[id].ip)))
      ensures old(Routed()) && Canonical(parse) ==> Routed()
    {
      if tunnels[id].cleaned {
        assert tunnels == tunnels[id := tunnels[id].(cleaned := true)];
        return;
      }
      var ip := tunnels[id].ip;
      ghost var before := tunnels;
      HolderLeaves(tunnels, id);
      CountsOf(tunnels, ip, id);
      tunnels := tunnels[id := tunnels[id].(cleaned := true)];
      assert RefCount(ip) > 0 && ip != "" && parse(ip).Some?;
      ReleaseEndpoint(ip);
      forall k: string ensures RefCount(k) == |Holders(tunnels, k)| {
        assert old(RefCount(k)) == |Holders(before, k)|;
      }
    }

    /** The count of `ip` is one ahead of the tunnels: its bypass route is acquired, its process not yet running. */
    ghost predicate Ahead(ip: string)
      reads this
    {
      && (forall k: string :: RefCount(k) == |Holders(tunnels, k)| + if k == ip then 1 else 0)
      && (forall id | id in tunnels :: tunnels[id].ip != "" && parse(tunnels[id].ip).Some?)
      && ip != "" && parse(ip).Some?
    }

    method Prepare(ip: string, ensured: bool) returns (ok: bool)
      requires Valid()
      modifies this`refCounts, this`routes
      ensures ok <==> ip != "" && parse(ip).Some? && (old(RefCount(ip)) > 0 || ensured)
      ensures if ok then Ahead(ip) else Valid() && refCounts == old(refCounts)
      ensures old(Routed()) ==> Routed()
    {
      hide Routed;
      ok := AcquireEndpoint(ip, ensured);
    }

    method Abandon(ip: string)
      requires Ahead(ip)
      modifies this`refCounts, this`routes
      ensures Valid()
      ensures old(Routed()) && Canonical(parse) ==> Routed()
    {
      hide Routed;
      assert RefCount(ip) > 0;
      ReleaseEndpoint(ip);
    }

    method Register(id: nat, ip: string)
      requires Ahead(ip) && id !in tunnels
      modifies this`tunnels
      ensures Valid() && tunnels == old(tunnels)[id := Tunnel(ip, false)]
      ensures old(Routed()) ==> Routed()
    {
      ghost var before := tunnels;
      HolderJoins(tunnels, id, ip);
      tunnels := tunnels[id := Tunnel(ip, false)];
      forall k: string ensures RefCount(k) == |Holders(tunnels, k)| {
        assert old(RefCount(k)) == |Holders(before, k)| + if k == ip then 1 else 0;
      }
    }

    /** StartTunnel: a tunnel exists from the moment its process runs; a failed start cleans up after itself. */
    method StartTunnel(id: nat, ip: string, how: Startup) returns (ok: bool)
      requires Valid() && id !in tunnels
      modifies this
      ensures Valid()
      ensures var acquired := ip != "" && parse(ip).Some? && (old(RefCount(ip)) > 0 || how.routed);
        && ok == (acquired && how.spawned && how.up)
        && tunnels == if acquired && how.spawned then old(tunnels)[id := Tunnel(ip, !how.up)] else old(tunnels)
      ensures old(Routed()) && Canonical(parse) ==> Routed()
    {
      hide Valid, Ahead, Routed, Canonical;
      ok := Prepare(ip, how.routed);
      if !ok {
        return;
      }
      if !how.spawned {
        Abandon(ip);
        return false;
      }
      Register(id, ip);
      if !how.up {
        Cleanup(id);
        return false;
      }
      return true;
    }

    /** Stop, and the waiter when the process exits: both end in the same cleanup. */
    method StopTunnel(id: nat)
      requires Valid()
      modifies this
      ensures Valid() && (id in old(tunnels) ==> tunnels == old(tunnels)[id := old(tunnels)[id].(cleaned := true)])
      ensures old(Routed()) && Canonical(parse) ==> Routed()
    {
      if id in tunnels {
        Cleanup(id);
      }
    }

    /**
     Any sequence of starts, exits and repeated stops keeps the counts right, and the routes where spelling is
     canonical.
     */
    method Replay(events: seq<Event>)
      requires Valid()
      modifies this
      ensures Valid() && (old(Routed()) && Canonical(parse) ==> Routed())
    {
      for k := 0 to |events|
        invariant Valid() && (old(Routed()) && Canonical(parse) ==> Routed())
      {
        match events[k]
        case Start(id, ip, how) => if id !in tunnels { var _ := StartTunnel(id, ip, how); }
        case Exit(id) => StopTunnel(id);
        case Stop(id) => StopTunnel(id);
      }
    }
  }

  /** No address has two spellings. */
  ghost predicate Canonical(parse: string -> Option<Address>) {
    forall a: string, b: string :: parse(a).Some? && parse(a) == parse(b) ==> a == b
  }

  lemma HolderJoinsAt(ts: map<nat, Tunnel>, id: nat, ip: string, k: string)
    requires id !in ts
    ensures |Holders(ts[id := Tunnel(ip, false)], k)| == |Holders(ts, k)| + if k == ip then 1 else 0
  {
    assert Holders(ts[id := Tunnel(ip, false)], k) == Holders(ts, k) + if k == ip then {id} else {};
    assert id !in Holders(ts, k);
  }

  lemma HolderJoins(ts: map<nat, Tunnel>, id: nat, ip: string)
    requires id !in ts
    ensures forall k: string :: |Holders(ts[id := Tunnel(ip, false)], k)| == |Holders(ts, k)| + if k == ip then 1 else 0
  {
    hide Holders;
    forall k: string ensures |Holders(ts[id := Tunnel(ip, false)], k)| == |Holders(ts, k)| + if k == ip then 1 else 0 {
      HolderJoinsAt(ts, id, ip, k);
    }
  }

  lemma HolderLeavesAt(ts: map<nat, Tunnel>, id: nat, k: string)
    requires id in ts && !ts[id].cleaned
    ensures |Holders(ts[id := ts[id].(cleaned := true)], k)| == |Holders(ts, k)| - if k == ts[id].ip then 1 else 0
  {
    assert Holders(ts[id := ts[id].(cleaned := true)], k) == Holders(ts, k) - if k == ts[id].ip then {id} else {};
    assert k == ts[id].ip ==> id in Holders(ts, k);
  }

  lemma HolderLeaves(ts: map<nat, Tunnel>, id: nat)
    requires id in ts && !ts[id].cleaned
    ensures var ts' := ts[id := ts[id].(cleaned := true)];
      forall k: string :: |Holders(ts', k)| == |Holders(ts, k)| - if k == ts[id].ip then 1 else 0
  {
    hide Holders;
    var ts' := ts[id := ts[id].(cleaned := true)];
    forall k: string ensures |Holders(ts', k)| == |Holders(ts, k)| - if k == ts[id].ip then 1 else 0 {
      HolderLeavesAt(ts, id, k);
    }
  }

  lemma CountsOf(ts: map<nat, Tunnel>, ip: string, id: nat)
    requires id in ts && !ts[id].cleaned && ts[id].ip == ip
    ensures |Holders(ts, ip)| > 0
  {
    assert id in Holders(ts, ip);
  }

  /** With two spellings of one address, stopping the first tunnel takes the route away from under the second. */
  method TwoSpellings(parse: string -> Option<Address>, a: string, b: string) returns (m: Manager)
    requires a != b && a != "" && b != "" && parse(a).Some? && parse(a) == parse(b)
    ensures m.RefCount(b) == 1 && parse(b).value !in m.routes
  {
    m := new Manager(parse);
    var _ := m.AcquireEndpoint(a, true);
    var _ := m.AcquireEndpoint(b, true);
    m.ReleaseEndpoint(a);
  }
}
