/**
 The enumeration of balancers, one for every set of at least two slots
 (internal/xray/supervisor.go:502-538, internal/xray/template.go:231-265).

 The recursion hands `append(cur, i)` to its children. With spare capacity Go's
 append writes into the array that all siblings share; class SliceHeader below is
 that array and length, and GenerateSubsets is proved to list what the pure Subsets
 lists, for every way in which append may grow.
 */
module Balancers {
  import opened Decimal

  // ---- The enumeration, purely ----

  function Subsets(start: nat, cur: seq<nat>, n: nat): seq<seq<nat>>
    decreases if start <= n then n - start else 0, 1
  {
    (if |cur| >= 2 then [cur] else []) + Branches(start, cur, n)
  }

  function Branches(i: nat, cur: seq<nat>, n: nat): seq<seq<nat>>
    decreases if i <= n then n - i else 0, 0
  {
    if i >= n then [] else Subsets(i + 1, cur + [i], n) + Branches(i + 1, cur, n)
  }

  predicate Increasing(c: seq<nat>) {
    forall j, k | 0 <= j < k < |c| :: c[j] < c[k]
  }

  /** c goes on from cur with larger slots, the next of them from `start` on. */
  predicate Extends(c: seq<nat>, cur: seq<nat>, start: nat, n: nat) {
    cur <= c && Increasing(c) && (forall k | |cur| <= k < |c| :: start <= c[k] < n)
  }

  lemma {:induction false} SubsetsSound(start: nat, cur: seq<nat>, n: nat, c: seq<nat>)
    requires c in Subsets(start, cur, n) && Increasing(cur) && (forall k | 0 <= k < |cur| :: cur[k] < start)
    ensures |c| >= 2 && Extends(c, cur, start, n)
    decreases if start <= n then n - start else 0, 1
  {
    if !(|cur| >= 2 && c == cur) {
      BranchesSound(start, cur, n, c);
    }
  }

  lemma {:induction false} BranchesSound(i: nat, cur: seq<nat>, n: nat, c: seq<nat>)
    requires c in Branches(i, cur, n) && Increasing(cur) && (forall k | 0 <= k < |cur| :: cur[k] < i)
    ensures |c| >= 2 && Extends(c, cur, i, n) && |c| > |cur|
    decreases if i <= n then n - i else 0, 0
  {
    if c in Subsets(i + 1, cur + [i], n) {
      SubsetsSound(i + 1, cur + [i], n, c);
      assert c[|cur|] == (cur + [i])[|cur|];
      assert cur == (cur + [i])[..|cur|];
    } else {
      BranchesSound(i + 1, cur, n, c);
    }
  }

  lemma {:induction false} SubsetsComplete(start: nat, cur: seq<nat>, n: nat, c: seq<nat>)
    requires |c| >= 2 && Extends(c, cur, start, n)
    ensures c in Subsets(start, cur, n)
    decreases if start <= n then n - start else 0, 1
  {
    if |c| == |cur| {
      assert c == cur;
    } else {
      BranchesComplete(start, cur, n, c);
    }
  }

  lemma {:induction false} BranchesComplete(i: nat, cur: seq<nat>, n: nat, c: seq<nat>)
    requires |c| >= 2 && Extends(c, cur, i, n) && |c| > |cur|
    ensures c in Branches(i, cur, n)
    decreases if i <= n then n - i else 0, 0
  {
    assert i <= c[|cur|] < n;
    if c[|cur|] == i {
      assert cur + [i] == c[..|cur| + 1];
      SubsetsComplete(i + 1, cur + [i], n, c);
    } else {
      BranchesComplete(i + 1, cur, n, c);
    }
  }

  ghost predicate NoRepeats(s: seq<seq<nat>>) {
    forall j, k | 0 <= j < k < |s| :: s[j] != s[k]
  }

  lemma {:induction false} SubsetsDistinct(start: nat, cur: seq<nat>, n: nat)
    requires Increasing(cur) && (forall k | 0 <= k < |cur| :: cur[k] < start)
    ensures NoRepeats(Subsets(start, cur, n))
    decreases if start <= n then n - start else 0, 1
  {
    BranchesDistinct(start, cur, n);
    var b := Branches(start, cur, n);
    forall c | c in b ensures c != cur { BranchesSound(start, cur, n, c); }
    ConcatDistinct(if |cur| >= 2 then [cur] else [], b);
  }

  lemma ConcatDistinct(a: seq<seq<nat>>, b: seq<seq<nat>>)
    requires NoRepeats(a) && NoRepeats(b) && forall c | c in a :: c !in b
    ensures NoRepeats(a + b)
  {
    forall j, k | 0 <= j < k < |a + b| ensures (a + b)[j] != (a + b)[k] {
      assert j < |a| <= k ==> a[j] in a && b[k - |a|] in b;
    }
  }

  lemma {:induction false} BranchesDistinct(i: nat, cur: seq<nat>, n: nat)
    requires Increasing(cur) && (forall k | 0 <= k < |cur| :: cur[k] < i)
    ensures NoRepeats(Branches(i, cur, n))
    decreases if i <= n then n - i else 0, 0
  {
    if i < n {
      SubsetsDistinct(i + 1, cur + [i], n);
      BranchesDistinct(i + 1, cur, n);
      var left, right := Subsets(i + 1, cur + [i], n), Branches(i + 1, cur, n);
      forall c | c in left ensures c !in right {
        SubsetsSound(i + 1, cur + [i], n, c);
        assert c[|cur|] == (cur + [i])[|cur|];
        if c in right {
          BranchesSound(i + 1, cur, n, c);
        }
      }
      ConcatDistinct(left, right);
    }
  }

  /** What a balancer can stand for: at least two of the n slots, in increasing order. */
  predicate Combination(c: seq<nat>, n: nat) {
    |c| >= 2 && Increasing(c) && forall k | 0 <= k < |c| :: c[k] < n
  }

  /** Every set of at least two slots is listed, exactly once, and nothing else is. */
  lemma EverySubsetOnce(n: nat)
    ensures forall c :: c in Subsets(0, [], n) <==> Combination(c, n)
    ensures NoRepeats(Subsets(0, [], n))
  {
    forall c ensures c in Subsets(0, [], n) <==> Combination(c, n) {
      if c in Subsets(0, [], n) { SubsetsSound(0, [], n, c); }
      if Combination(c, n) { SubsetsComplete(0, [], n, c); }
    }
    SubsetsDistinct(0, [], n);
  }

  // ---- The enumeration as the code runs it ----

  /** A Go slice: a backing array that others may share, and how much of it this slice sees. */
  datatype SliceHeader = SliceHeader(data: array<nat>, len: nat)

  ghost predicate Fits(s: SliceHeader)
  {
    s.len <= s.data.Length
  }

  ghost function Seen(s: SliceHeader): seq<nat>
    requires Fits(s)
    reads s.data
  {
    s.data[..s.len]
  }

  /** append: in place while there is room, else into a new array; `spare` is whatever room the runtime adds. */
  method Append(s: SliceHeader, x: nat, spare: nat) returns (r: SliceHeader)
    requires Fits(s)
    modifies s.data
    ensures Fits(r) && r.len == s.len + 1 && Seen(r) == old(Seen(s)) + [x]
    ensures Seen(s) == old(Seen(s))
    ensures r.data == s.data || fresh(r.data)
  {
    if s.len < s.data.Length {
      s.data[s.len] := x;
      r := SliceHeader(s.data, s.len + 1);
    } else {
      var bigger := new nat[s.len + 1 + spare];
      forall k | 0 <= k < s.len { bigger[k] := s.data[k]; }
      bigger[s.len] := x;
      r := SliceHeader(bigger, s.len + 1);
    }
  }

  /** generateSubsets, appending to the list under construction; `growth` answers for the runtime. */
  method GenerateSubsets(start: nat, cur: SliceHeader, n: nat, growth: nat -> nat, listed: seq<seq<nat>>)
    returns (all: seq<seq<nat>>)
    requires Fits(cur)
    modifies cur.data
    ensures all == listed + Subsets(start, old(Seen(cur)), n)
    ensures Seen(cur) == old(Seen(cur))
    decreases if start <= n then n - start else 0
  {
    all := listed;
    ghost var seen := Seen(cur);
    if cur.len >= 2 {
      all := all + [cur.data[..cur.len]];
    }
    ghost var head := all;
    var i := start;
    while i < n
      invariant start <= i && Seen(cur) == seen
      invariant head + Branches(start, seen, n) == all + Branches(i, seen, n)
    {
      var child := Append(cur, i, growth(cur.len));
      ghost var before := all;
      all := GenerateSubsets(i + 1, child, n, growth, all);
      assert before + (Subsets(i + 1, seen + [i], n) + Branches(i + 1, seen, n)) == all + Branches(i + 1, seen, n);
      i := i + 1;
    }
    assert head + Branches(start, seen, n) == listed + Subsets(start, seen, n);
  }

  /** Both listings of the repository start like this. */
  method ListSubsets(n: nat, growth: nat -> nat) returns (all: seq<seq<nat>>)
    ensures forall c :: c in all <==> Combination(c, n)
    ensures NoRepeats(all) && all == Subsets(0, [], n)
  {
    var empty := new nat[0];
    all := GenerateSubsets(0, SliceHeader(empty, 0), n, growth, []);
    EverySubsetOnce(n);
  }
}
