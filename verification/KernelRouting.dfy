/**
 Policy routing in the kernel (internal/routing/route.go, internal/routing/identity.go):
 marks, rules and tables, and the numbers the scheduler gives its tunnels.
 */
module KernelRouting {
  import opened Wrappers

  /** `ip rule add from <ip> table <table> pref 50`: looked at before the rules on marks. */
  datatype Pin = Pin(ip: string, table: int)

  datatype Route = Via(dev: string) | Unreachable

  /** Which commands of an operation the kernel accepts. */
  datatype Commands = Commands(ruleAdded: bool, flushed: bool, routeAdded: bool)

  const BASE_TABLE := 100
  const BASE_DRAINING := 200
  const MAX_CLEANUP := 32

  /** SlotRoutingIdentity: mark, table and priority are one number. */
  function Number(slot: int): int {
    BASE_TABLE + slot
  }

  // ---- Numbers ----

  /** The k-th tunnel number that NextTunnelID hands out, from 1 on. */
  function Allocated(maxActive: nat, maxStandby: nat, k: nat): nat {
    maxActive + maxStandby + 10 + k
  }

  /**
   A tunnel's own table is never an active slot's, nor another tunnel's; it is slot s's draining table only for
   number 100 + s.
   */
  lemma TablesApart(maxActive: nat, maxStandby: nat, j: nat, k: nat, s: nat)
    requires s < maxActive && j > 0 && k > 0
    ensures 100 <= Number(s) < 100 + maxActive && Number(s) - 100 == s && BASE_DRAINING + s == 200 + s
    ensures Number(Allocated(maxActive, maxStandby, k)) != Number(s)
    ensures Number(Allocated(maxActive, maxStandby, j)) == Number(Allocated(maxActive, maxStandby, k)) <==> j == k
    ensures Number(Allocated(maxActive, maxStandby, k)) == BASE_DRAINING + s <==>
        Allocated(maxActive, maxStandby, k) == 100 + s
  {
  }

  /** With three active and two standby slots the first 84 tunnels meet no draining table; the 85th meets slot 0's. */
  lemma FirstCollision(k: nat, s: nat)
    requires s < 3
    ensures Number(Allocated(3, 2, k)) == BASE_DRAINING + s <==> k == 85 + s
    ensures k <= 84 ==> Number(Allocated(3, 2, k)) != BASE_DRAINING + s
  {
  }

  // ---- Lookup ----

  /** The first rule on the source whose table has a route; rules of one priority are tried oldest first. */
  function Pinned(pins: seq<Pin>, tables: map<int, Route>, src: string): Option<Route> {
    if pins == [] then None
    else if pins[0].ip == src && pins[0].table in tables then Some(tables[pins[0].table])
    else Pinned(pins[1..], tables, src)
  }

  function First(a: Option<Route>, b: Option<Route>): Option<Route> {
    if a.Some? then a else b
  }

  /** Where a packet goes; None is the main table. Each rule on a mark points to the table of that number. */
  function Find(marks: multiset<int>, pins: seq<Pin>, tables: map<int, Route>, mark: int, src: string)
      : Option<Route> {
    First(Pinned(pins, tables, src), if mark in marks && mark in tables then Some(tables[mark]) else None)
  }

  function WithoutFirst(pins: seq<Pin>, p: Pin): seq<Pin> {
    if pins == [] then [] else if pins[0] == p then pins[1..] else [pins[0]] + WithoutFirst(pins[1..], p)
  }

  /** A source is not led by a table that no rule sends it to. */
  lemma {:induction false} PinnedElsewhere(pins: seq<Pin>, before: map<int, Route>, after: map<int, Route>, n: int,
      src: string)
    requires before - {n} == after - {n} && Pin(src, n) !in pins
    ensures Pinned(pins, after, src) == Pinned(pins, before, src)
  {
    if pins == [] {
    } else {
      var t := pins[0].table;
      assert t != n ==> (t in before <==> t in before - {n}) && (t in after <==> t in after - {n});
      assert t != n && t in before ==> before[t] == (before - {n})[t] && after[t] == (after - {n})[t];
      PinnedElsewhere(pins[1..], before, after, n, src);
    }
  }

  lemma {:induction false} PinnedOneMore(pins: seq<Pin>, p: Pin, tables: map<int, Route>, src: string)
    ensures Pinned(pins + [p], tables, src) ==
      First(Pinned(pins, tables, src), if p.ip == src && p.table in tables then Some(tables[p.table]) else None)
  {
    if pins == [] {
      assert [p][1..] == [];
    } else {
      assert (pins + [p])[1..] == pins[1..] + [p];
      PinnedOneMore(pins[1..], p, tables, src);
    }
  }

  /** Removing a rule changes nothing for other sources, nor for its own when its table is empty. */
  lemma {:induction false} PinnedOneLess(pins: seq<Pin>, p: Pin, tables: map<int, Route>, src: string)
    requires p.ip != src || p.table !in tables
    ensures Pinned(WithoutFirst(pins, p), tables, src) == Pinned(pins, tables, src)
  {
    if pins != [] && pins[0] != p {
      assert WithoutFirst(pins, p)[1..] == WithoutFirst(pins[1..], p);
      PinnedOneLess(pins[1..], p, tables, src);
    }
  }

  lemma {:induction false} OthersStay(pins: seq<Pin>, p: Pin, other: Pin)
    requires other != p
    ensures other in WithoutFirst(pins, p) <==> other in pins
  {
    if pins != [] && pins[0] != p {
      OthersStay(pins[1..], p, other);
      assert other in pins <==> other == pins[0] || other in pins[1..];
    }
  }

  lemma {:induction false} NothingToRemove(pins: seq<Pin>, p: Pin)
    requires p !in pins
    ensures WithoutFirst(pins, p) == pins
  {
    if pins != [] {
      NothingToRemove(pins[1..], p);
    }
  }

  class Kernel {
    var marks: multiset<int>            // rules on marks, duplicates included
    var pins: seq<Pin>                  // rules on sources, oldest first
    var tables: map<int, Route>         // default routes

    function Lookup(mark: int, src: string): Option<Route>
      reads this
    {
      Find(marks, pins, tables, mark, src)
    }

    /** No rule on the source leads its packets anywhere, so their marks decide. */
    predicate ByMark(src: string)
      reads this
    {
      Pinned(pins, tables, src).None?
    }

    /** Lookups are as before, but for mark `n` and for sources with a rule to table `n`. */
    ghost predicate OthersSame(marksBefore: multiset<int>, pinsBefore: seq<Pin>, tablesBefore: map<int, Route>, n: int)
      reads this
    {
      forall m: int, src: string | m != n && Pin(src, n) !in pins && Pin(src, n) !in pinsBefore ::
        Lookup(m, src) == Find(marksBefore, pinsBefore, tablesBefore, m, src)
    }

    /** Only mark `n` and table `n` were written. */
    twostate lemma OnlyNumber(n: int)
      requires pins == old(pins) && tables - {n} == old(tables) - {n}
      requires forall m: int | m != n :: marks[m] == old(marks)[m]
      ensures OthersSame(old(marks), old(pins), old(tables), n)
    {
      forall m: int, src: string | m != n && Pin(src, n) !in pins
        ensures Lookup(m, src) == old(Lookup(m, src))
      {
        PinnedElsewhere(pins, old(tables), tables, n, src);
        assert m in tables <==> m in tables - {n};
        assert m in old(tables) <==> m in old(tables) - {n};
        assert m in tables ==> tables[m] == (tables - {n})[m] && old(tables)[m] == (old(tables) - {n})[m];
      }
    }

    /** safeDeleteLoop: removes duplicates of a rule, at most 32. */
    method SafeDelete(n: int)
      modifies this`marks
      ensures marks == old(marks)[n := if old(marks)[n] <= 32 then 0 else old(marks)[n] - 32]
    {
      var i := 0;
      while i < MAX_CLEANUP && n in marks
        invariant 0 <= i <= MAX_CLEANUP && i <= old(marks)[n] && marks == old(marks)[n := old(marks)[n] - i]
      {
        marks := marks[n := marks[n] - 1];
        i := i + 1;
      }
    }

    /** `ip rule add fwmark`: its failure is only logged. */
    method AddRule(n: int, added: bool)
      modifies this`marks
      ensures marks == if added then old(marks)[n := old(marks)[n] + 1] else old(marks)
    {
      if added {
        marks := marks[n := marks[n] + 1];
      }
    }

    /** The mark has a rule after the clean-up and a new one: added now, or left by a clean-up that gave up. */
    predicate RuleThere(n: int, added: bool)
      reads this
    {
      added || marks[n] > MAX_CLEANUP
    }

    /** `ip route flush table`: its failure is ignored. */
    method Flush(n: int, flushed: bool)
      modifies this`tables
      ensures tables == if flushed then old(tables) - {n} else old(tables)
    {
      if flushed {
        tables := tables - {n};
      }
    }

    /** A flush that is refused leaves the default route the table had. */
    predicate Stale(n: int, flushed: bool)
      reads this
    {
      !flushed && n in tables
    }

    /** `ip route add ... default`: refused where there is a default route already. */
    method AddDefault(n: int, route: Route, accepted: bool) returns (ok: bool)
      modifies this`tables
      ensures ok == (accepted && n !in old(tables))
      ensures tables == if ok then old(tables)[n := route] else old(tables)
    {
      ok := accepted && n !in tables;
      if ok {
        tables := tables[n := route];
      }
    }

    /**
     SetupSlotRouting, and SetupCandidateRouting alike. A nil error means that the table leads to the interface; marked
     traffic then does too, if and only if the rule is there. An error leaves marked traffic to the main table, or to
     what a refused flush has left. Other marks are not affected.
     */
    method SetupSlotRouting(slot: int, dev: string, c: Commands) returns (ok: bool)
      modifies this
      ensures ok == (c.routeAdded && !old(Stale(Number(slot), c.flushed)))
      ensures OthersSame(old(marks), old(pins), old(tables), Number(slot))
      ensures forall src | ByMark(src) :: Lookup(Number(slot), src) ==
                if !old(RuleThere(Number(slot), c.ruleAdded)) then None
                else if ok then Some(Via(dev))
                else if old(Stale(Number(slot), c.flushed)) then Some(old(tables)[Number(slot)])
                else None
      ensures c.ruleAdded && old(marks)[Number(slot)] <= 32 ==> marks[Number(slot)] == 1
      ensures old(pins) == pins && (tables == if ok then old(tables)[Number(slot) := Via(dev)]
                                              else if c.flushed then old(tables) - {Number(slot)} else old(tables))
      ensures marks[Number(slot)] == (if old(marks)[Number(slot)] <= 32 then 0
                                      else old(marks)[Number(slot)] - 32) + if c.ruleAdded then 1 else 0
    {
      var n := Number(slot);
      SafeDelete(n);
      AddRule(n, c.ruleAdded);
      Flush(n, c.flushed);
      ok := AddDefault(n, Via(dev), c.routeAdded);
      OnlyNumber(n);
    }

    /**
     ClearSlotRouting. It always returns nil; the mark is unreachable afterwards if and only if its rule is there and
     the unreachable route is in the table: added now, or already there under a refused flush.
     */
    method ClearSlotRouting(slot: int, c: Commands)
      modifies this
      ensures pins == old(pins) && OthersSame(old(marks), old(pins), old(tables), Number(slot))
      ensures forall src | ByMark(src) :: Lookup(Number(slot), src) == Some(Unreachable) <==>
          && old(RuleThere(Number(slot), c.ruleAdded))
          && if old(Stale(Number(slot), c.flushed)) then old(tables)[Number(slot)] == Unreachable else c.routeAdded
      ensures forall src | ByMark(src) && Lookup(Number(slot), src) != Some(Unreachable) :: Lookup(Number(slot), src) ==
                if old(RuleThere(Number(slot), c.ruleAdded)) && old(Stale(Number(slot), c.flushed))
                then Some(old(tables)[Number(slot)]) else None
    {
      var n := Number(slot);
      Flush(n, c.flushed);
      var _ := AddDefault(n, Unreachable, c.routeAdded);
      SafeDelete(n);
      AddRule(n, c.ruleAdded);
      OnlyNumber(n);
    }

    /** ClearCandidateRouting: nothing is left, unless a flush is refused and over 32 duplicates of the rule exist. */
    method ClearCandidateRouting(slot: int, flushed: bool)
      modifies this
      ensures pins == old(pins) && OthersSame(old(marks), old(pins), old(tables), Number(slot))
      ensures forall src | ByMark(src) :: Lookup(Number(slot), src) ==
                if old(Stale(Number(slot), flushed)) && old(marks)[Number(slot)] > 32
                then Some(old(tables)[Number(slot)]) else None
      ensures Number(slot) !in marks <==> old(marks)[Number(slot)] <= 32
    {
      var n := Number(slot);
      Flush(n, flushed);
      SafeDelete(n);
      OnlyNumber(n);
    }

    /**
     Setting a slot up and clearing it again: no trace on any other mark, and closed if and only if the clear's rule
     and route are there.
     */
    method SetupThenClear(slot: int, dev: string, setup: Commands, clear: Commands) returns (ok: bool)
      modifies this
      ensures ok == (setup.routeAdded && !old(Stale(Number(slot), setup.flushed)))
      ensures OthersSame(old(marks), old(pins), old(tables), Number(slot))
      ensures forall src | ByMark(src) :: Lookup(Number(slot), src) == Some(Unreachable) <==>
          && (clear.ruleAdded || old(marks)[Number(slot)] + (if setup.ruleAdded then 1 else 0) > 64)
          && (if clear.flushed then clear.routeAdded
              else if ok then false
              else if old(Stale(Number(slot), setup.flushed)) then old(tables)[Number(slot)] == Unreachable
              else clear.routeAdded)
    {
      ok := SetupSlotRouting(slot, dev, setup);
      label between:
      ClearSlotRouting(slot, clear);
      var n := Number(slot);
      forall m: int, src: string | m != n && Pin(src, n) !in pins && Pin(src, n) !in old(pins)
        ensures Lookup(m, src) == old(Lookup(m, src))
      {
        assert old@between(Lookup(m, src)) == old(Lookup(m, src));
      }
    }

    // ---- Draining tables ----

    /**
     SetupDrainingRouting: whatever their mark, packets from the tunnel's address leave through its interface, unless
     an older rule on that address leads elsewhere. No mark but the one with the draining table's number, and no
     other source, could notice.
     */
    method SetupDrainingRouting(table: int, dev: string, ip: string, c: Commands) returns (ok: bool)
      modifies this
      ensures ok == (c.routeAdded && !old(Stale(table, c.flushed)))
      ensures OthersSame(old(marks), old(pins), old(tables), table)
      ensures ok && ip != "" && c.ruleAdded ==>
        forall m: int :: Lookup(m, ip) == First(Pinned(old(pins), tables, ip), Some(Via(dev)))
      ensures marks == old(marks) && tables - {table} == old(tables) - {table}
      ensures pins == old(pins) + if ok && ip != "" && c.ruleAdded then [Pin(ip, table)] else []
    {
      Flush(table, c.flushed);
      ok := AddDefault(table, Via(dev), c.routeAdded);
      if !ok {
        OnlyNumber(table);
        return;
      }
      if ip != "" && c.ruleAdded {
        pins := pins + [Pin(ip, table)];
      }
      forall m: int, src: string
        ensures ip != "" && c.ruleAdded && src == ip ==>
          Lookup(m, src) == First(Pinned(old(pins), tables, src), Some(Via(dev)))
        ensures m != table && Pin(src, table) !in pins && Pin(src, table) !in old(pins) ==>
          Lookup(m, src) == old(Lookup(m, src))
      {
        PinnedOneMore(old(pins), Pin(ip, table), tables, src);
        if Pin(src, table) !in old(pins) { PinnedElsewhere(old(pins), old(tables), tables, table, src); }
      }
    }

    /** ClearDrainingRouting: one rule on the source goes, and the table's route if it can be flushed. */
    method ClearDrainingRouting(table: int, ip: string, flushed: bool)
      modifies this
      ensures OthersSame(old(marks), old(pins), old(tables), table)
      ensures pins == if ip == "" then old(pins) else WithoutFirst(old(pins), Pin(ip, table))
      ensures marks == old(marks) && tables == if flushed then old(tables) - {table} else old(tables)
    {
      if ip != "" {
        DeletePin(Pin(ip, table));
      }
      Flush(table, flushed);
      forall m: int, src: string | m != table && Pin(src, table) !in pins && Pin(src, table) !in old(pins)
        ensures Lookup(m, src) == old(Lookup(m, src))
      {
        PinnedElsewhere(old(pins), old(tables), tables, table, src);
        if Pin(ip, table) in old(pins) { PinnedOneLess(old(pins), Pin(ip, table), tables, src); }
        else { NothingToRemove(old(pins), Pin(ip, table)); }
      }
    }

    /** `ip rule del`: the oldest match goes. */
    method DeletePin(p: Pin)
      modifies this`pins
      ensures pins == WithoutFirst(old(pins), p)
    {
      var i := 0;
      while i < |pins| && pins[i] != p
        invariant 0 <= i <= |pins| && pins == old(pins)
        invariant WithoutFirst(pins, p) == pins[..i] + WithoutFirst(pins[i..], p)
      {
        assert pins[i..][1..] == pins[i + 1..];
        i := i + 1;
      }
      if i < |pins| {
        assert pins[i..][1..] == pins[i + 1..];
        pins := pins[..i] + pins[i + 1..];
      }
    }

    /**
     A drain through an empty table and its end leave no trace on any packet, whether the route and the rule could be
     added or not, if the table can be flushed again.
     */
    method DrainThenClear(table: int, dev: string, ip: string, c: Commands, flushed: bool)
      requires table !in tables
      modifies this
      ensures flushed ==> forall m: int, src: string :: Lookup(m, src) == old(Lookup(m, src))
    {
      var _ := SetupDrainingRouting(table, dev, ip, c);
      label between:
      ClearDrainingRouting(table, ip, flushed);
      if flushed {
        assert tables == old(tables);
        assert old(pins) + [] == old(pins);
        forall m: int, src: string ensures Lookup(m, src) == old(Lookup(m, src)) {
          PinnedOneMore(old(pins), Pin(ip, table), tables, src);
          PinnedOneLess(old@between(pins), Pin(ip, table), tables, src);
        }
      }
    }
  }
}
