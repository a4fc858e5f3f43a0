/**
 Routing rules for an active set, what they mean to the Xray runtime, and what a
 read-back of the runtime proves (internal/xray/supervisor.go:542-862,
 internal/xray/template.go:320-361).

 The meaning is first match: a request takes the target of the first rule whose
 inbound tag and port filter fit it. A balancer reaches every outbound whose tag
 starts with one of its selectors.
 */
module XrayRules {
  import opened Wrappers
  import opened Decimal
  import opened Balancers

  // ---- Rules, balancers, requests ----

  datatype Target = Outbound(tag: string) | Balanced(tag: string)

  datatype Rule = Rule(ruleTag: string, inbound: string, only443: bool, target: Target)

  datatype Balancer = Balancer(tag: string, selectors: seq<string>)

  datatype Request = Request(inbound: string, port: nat)

  const API := "api"
  const BLOCK := "block"
  const DIRECT := "direct"
  const SOCKS := "proxy"
  const VLESS := "vless-in"
  const ACTIVE_RULE := "active-balancer-rule"
  const VLESS_RULE := "active-balancer-rule-vless"
  const VLESS_BLOCK_RULE := "vless-non-443-block"

  function ExitTag(slot: nat): string {
    "exit-" + Itoa(slot)
  }

  function BalancerTag(slots: seq<nat>): string {
    "balancer-" + Dashed(slots)
  }

  /** expectedRuntimeTarget. */
  function ExpectedTarget(slots: seq<nat>): Target {
    if slots == [] then Outbound(BLOCK) else if |slots| == 1 then Outbound(ExitTag(slots[0]))
        else Balanced(BalancerTag(slots))
  }

  /** The rules of applyCandidateRoutingLocked. */
  function CompileRules(active: seq<nat>, vless: bool, only443: bool): seq<Rule> {
    [Rule("", API, false, Outbound(API))]
    + (if vless then
         [Rule(VLESS_RULE, VLESS, only443, ExpectedTarget(active))]
         + (if only443 then [Rule(VLESS_BLOCK_RULE, VLESS, false, Outbound(BLOCK))] else [])
       else [])
    + [Rule(ACTIVE_RULE, SOCKS, false, ExpectedTarget(active))]
  }

  function TagsOf(slots: seq<nat>): (tags: seq<string>)
    ensures |tags| == |slots| && forall k | 0 <= k < |slots| :: tags[k] == ExitTag(slots[k])
  {
    seq(|slots|, k requires 0 <= k < |slots| => ExitTag(slots[k]))
  }

  function BalancersFor(subsets: seq<seq<nat>>): seq<Balancer> {
    if subsets == [] then []
    else [Balancer(BalancerTag(subsets[0]), TagsOf(subsets[0]))] + BalancersFor(subsets[1..])
  }

  function AllBalancers(n: nat): seq<Balancer> {
    [Balancer("vpn-balancer", ["exit-"])] + BalancersFor(Subsets(0, [], n))
  }

  // ---- Meaning ----

  predicate Fits(r: Rule, q: Request) {
    r.inbound == q.inbound && (r.only443 ==> q.port == 443)
  }

  function Decide(rules: seq<Rule>, q: Request): Option<Target> {
    if rules == [] then None else if Fits(rules[0], q) then Some(rules[0].target) else Decide(rules[1..], q)
  }

  function Find(balancers: seq<Balancer>, tag: string): Option<Balancer> {
    if balancers == [] then None
    else if balancers[0].tag == tag then Some(balancers[0]) else Find(balancers[1..], tag)
  }

  /** The outbounds of the generated configuration with n slots. */
  function Outbounds(n: nat): set<string> {
    (set slot: nat | slot < n :: ExitTag(slot)) + {DIRECT, BLOCK}
  }

  predicate Selected(b: Balancer, tag: string) {
    exists k | 0 <= k < |b.selectors| :: b.selectors[k] <= tag
  }

  /** Where a target can send a connection; the empty set when the balancer it names does not exist. */
  function Reach(target: Target, balancers: seq<Balancer>, n: nat): set<string> {
    match target
    case Outbound(tag) => {tag}
    case Balanced(tag) =>
      match Find(balancers, tag)
      case None => {}
      case Some(b) => set t | t in Outbounds(n) && Selected(b, t)
  }

  function Meaning(rules: seq<Rule>, n: nat, q: Request): Option<set<string>> {
    match Decide(rules, q)
    case None => None
    case Some(target) => Some(Reach(target, AllBalancers(n), n))
  }

  // ---- The tag a rule names exists, and names its own balancer ----

  lemma {:induction false} FindInList(subsets: seq<seq<nat>>, c: seq<nat>)
    requires c in subsets && c != [] && forall d | d in subsets :: d != []
    ensures Find(BalancersFor(subsets), BalancerTag(c)) == Some(Balancer(BalancerTag(c), TagsOf(c)))
  {
    if subsets[0] == c {
    } else {
      if BalancerTag(subsets[0]) == BalancerTag(c) {
        SameTagSameSlots(subsets[0], c);
      }
      assert c in subsets[1..];
      forall d | d in subsets[1..] ensures d != [] { assert d in subsets; }
      FindInList(subsets[1..], c);
    }
  }

  lemma SameTagSameSlots(a: seq<nat>, b: seq<nat>)
    requires a != [] && b != [] && BalancerTag(a) == BalancerTag(b)
    ensures a == b
  {
    assert BalancerTag(a)[9..] == Dashed(a) && BalancerTag(b)[9..] == Dashed(b);
    DashedInjective(a, b);
  }

  lemma BalancerExists(n: nat, c: seq<nat>)
    requires Combination(c, n)
    ensures Find(AllBalancers(n), BalancerTag(c)) == Some(Balancer(BalancerTag(c), TagsOf(c)))
  {
    EverySubsetOnce(n);
    assert BalancerTag(c)[0] == 'b' && "vpn-balancer"[0] == 'v';
    assert c in Subsets(0, [], n);
    forall d | d in Subsets(0, [], n) ensures d != [] { assert Combination(d, n); }
    FindInList(Subsets(0, [], n), c);
    assert AllBalancers(n)[1..] == BalancersFor(Subsets(0, [], n));
  }

  // ---- What a balancer reaches ----

  lemma ExitTagInjective(i: nat, j: nat)
    ensures ExitTag(i) == ExitTag(j) <==> i == j
    ensures ExitTag(i) <= ExitTag(j) <==> Itoa(i) <= Itoa(j)
  {
    assert ExitTag(i)[5..] == Itoa(i) && ExitTag(j)[5..] == Itoa(j);
    ItoaInjective(i, j);
    assert Itoa(i) <= Itoa(j) ==> ExitTag(j) == ExitTag(i) + Itoa(j)[|Itoa(i)|..];
  }

  /** Some configured slot outside the set has a number that starts like one inside: 1 and 10, say. */
  predicate Overlaps(active: seq<nat>, n: nat) {
    exists i, j: nat | i in active && j < n :: j !in active && Itoa(i) <= Itoa(j)
  }

  lemma NeverOverlapsBelowTen(active: seq<nat>, n: nat)
    requires n <= 10 && forall k | 0 <= k < |active| :: active[k] < n
    ensures !Overlaps(active, n)
  {
    forall i, j: nat | i in active && j < n ensures j in active || !(Itoa(i) <= Itoa(j)) {
      if Itoa(i) <= Itoa(j) {
        assert |Itoa(i)| == 1 && |Itoa(j)| == 1;
        assert Itoa(i) == Itoa(j);
        ItoaInjective(i, j);
      }
    }
  }

  function ExitTags(slots: seq<nat>): set<string> {
    set k | 0 <= k < |slots| :: ExitTag(slots[k])
  }

  lemma OtherOutboundsUnselected(c: seq<nat>, tag: string)
    requires tag == DIRECT || tag == BLOCK
    ensures !Selected(Balancer(BalancerTag(c), TagsOf(c)), tag)
  {
    forall k | 0 <= k < |c| ensures !(TagsOf(c)[k] <= tag) {
      assert TagsOf(c)[k][0] == 'e';
    }
  }

  lemma SlotSelected(c: seq<nat>, j: nat)
    ensures Selected(Balancer(BalancerTag(c), TagsOf(c)), ExitTag(j)) <==> exists i | i in c :: Itoa(i) <= Itoa(j)
  {
    forall i ensures ExitTag(i) <= ExitTag(j) <==> Itoa(i) <= Itoa(j) { ExitTagInjective(i, j); }
    if i :| i in c && Itoa(i) <= Itoa(j) {
      var k :| 0 <= k < |c| && c[k] == i;
      assert TagsOf(c)[k] <= ExitTag(j);
    }
  }

  lemma ReachOfBalancer(n: nat, c: seq<nat>)
    requires Combination(c, n)
    ensures var r := Reach(Balanced(BalancerTag(c)), AllBalancers(n), n);
      && DIRECT !in r && BLOCK !in r
      && (forall j: nat | j < n :: ExitTag(j) in r <==> exists i | i in c :: Itoa(i) <= Itoa(j))
      && (forall tag | tag in r :: exists j: nat :: j < n && tag == ExitTag(j))
  {
    BalancerExists(n, c);
    OtherOutboundsUnselected(c, DIRECT);
    OtherOutboundsUnselected(c, BLOCK);
    forall j: nat | j < n ensures ExitTag(j) in Outbounds(n) {}
    forall j: nat | j < n
      ensures Selected(Balancer(BalancerTag(c), TagsOf(c)), ExitTag(j)) <==> exists i | i in c :: Itoa(i) <= Itoa(j)
    {
      SlotSelected(c, j);
    }
  }

  lemma ExitTagsMember(c: seq<nat>, j: nat)
    ensures ExitTag(j) in ExitTags(c) <==> j in c
  {
    forall k | 0 <= k < |c| ensures ExitTag(c[k]) == ExitTag(j) <==> c[k] == j { ExitTagInjective(c[k], j); }
  }

  /** The balancer of a set of slots reaches exactly those slots, unless another slot's tag extends one of theirs. */
  lemma BalancerReach(n: nat, c: seq<nat>)
    requires Combination(c, n)
    ensures ExitTags(c) <= Reach(Balanced(BalancerTag(c)), AllBalancers(n), n)
    ensures Reach(Balanced(BalancerTag(c)), AllBalancers(n), n) == ExitTags(c) <==> !Overlaps(c, n)
  {
    hide Reach, ExitTags;
    var r := Reach(Balanced(BalancerTag(c)), AllBalancers(n), n);
    ReachOfBalancer(n, c);
    forall tag | tag in ExitTags(c) ensures tag in r {
      var k := TagAt(c, tag);
      assert c[k] in c && Itoa(c[k]) <= Itoa(c[k]);
    }
    if Overlaps(c, n) {
      var i, j: nat :| i in c && j < n && j !in c && Itoa(i) <= Itoa(j);
      ExitTagsMember(c, j);
    } else {
      forall tag | tag in r ensures tag in ExitTags(c) {
        var j: nat :| j < n && tag == ExitTag(j);
        ExitTagsMember(c, j);
      }
    }
  }

  lemma TagAt(c: seq<nat>, tag: string) returns (k: nat)
    requires tag in ExitTags(c)
    ensures k < |c| && tag == ExitTag(c[k])
  {
    k :| 0 <= k < |c| && ExitTag(c[k]) == tag;
  }

  // ---- Compilation keeps the meaning of an active set ----

  /** What an active set is to mean: its exits, or the blackhole when it is empty. */
  function Intended(active: seq<nat>): set<string> {
    if active == [] then {BLOCK} else ExitTags(active)
  }

  predicate ActiveSet(active: seq<nat>, n: nat) {
    Increasing(active) && forall k | 0 <= k < |active| :: active[k] < n
  }

  lemma TargetReach(active: seq<nat>, n: nat)
    requires ActiveSet(active, n)
    ensures Reach(ExpectedTarget(active), AllBalancers(n), n) == Intended(active) <==>
        (|active| < 2 || !Overlaps(active, n))
  {
    if |active| >= 2 {
      BalancerReach(n, active);
    } else if |active| == 1 {
      assert ExitTags(active) == {ExitTag(active[0])};
    }
  }

  lemma DecideFirst(r: Rule, rest: seq<Rule>, q: Request)
    ensures Decide([r] + rest, q) == if Fits(r, q) then Some(r.target) else Decide(rest, q)
  {
    assert ([r] + rest)[1..] == rest;
  }

  /** First match, for each way in: what an intended target is turned into. */
  lemma CompiledDecision(active: seq<nat>, vless: bool, only443: bool, q: Request)
    ensures Decide(CompileRules(active, vless, only443), q) ==
              if q.inbound == API then Some(Outbound(API))
              else if q.inbound == SOCKS then Some(ExpectedTarget(active))
              else if q.inbound == VLESS && vless then
                Some(if only443 && q.port != 443 then Outbound(BLOCK) else ExpectedTarget(active))
              else None
  {
    assert API[0] == 'a' && SOCKS[0] == 'p' && VLESS[0] == 'v';
    var target := ExpectedTarget(active);
    var api, first := Rule("", API, false, Outbound(API)), Rule(VLESS_RULE, VLESS, only443, target);
    var second, last := Rule(VLESS_BLOCK_RULE, VLESS, false, Outbound(BLOCK)), Rule(ACTIVE_RULE, SOCKS, false, target);
    DecideFirst(last, [], q);
    assert [last] + [] == [last];
    DecideFirst(second, [last], q);
    DecideFirst(first, [last], q);
    DecideFirst(first, [second] + [last], q);
    var rest := if !vless then [last] else if only443 then [first] + ([second] + [last]) else [first] + [last];
    DecideFirst(api, rest, q);
    assert CompileRules(active, vless, only443) == [api] + rest;
  }

  /**
   Compiling an active set to rules keeps its meaning. SOCKS reaches exactly the active set, and so does VLESS, but
   for ports other than 443 being blocked when only that port is allowed; the empty set blocks everything. From two
   slots on this holds if and only if no other slot's tag extends the tag of an active one.
   */
  lemma CompileKeepsMeaning(active: seq<nat>, vless: bool, only443: bool, n: nat, q: Request)
    requires ActiveSet(active, n) && (q.inbound == SOCKS || (q.inbound == VLESS && vless))
    ensures var blocked := q.inbound == VLESS && only443 && q.port != 443;
      (Meaning(CompileRules(active, vless, only443), n, q) == Some(if blocked then {BLOCK} else Intended(active)))
      <==> (blocked || |active| < 2 || !Overlaps(active, n))
  {
    CompiledDecision(active, vless, only443, q);
    TargetReach(active, n);
    assert API[0] == 'a' && SOCKS[0] == 'p' && VLESS[0] == 'v';
  }

  /** The deployed three slots, and any up to ten, are never affected. */
  lemma CompileIsExactUpToTenSlots(active: seq<nat>, vless: bool, only443: bool, n: nat, q: Request)
    requires ActiveSet(active, n) && n <= 10 && q.inbound == SOCKS
    ensures Meaning(CompileRules(active, vless, only443), n, q) == Some(Intended(active))
  {
    NeverOverlapsBelowTen(active, n);
    CompileKeepsMeaning(active, vless, only443, n, q);
  }

  /** With eleven slots, the active set {0, 1} also sends traffic out of slot 10. */
  lemma SlotTenLeaks(vless: bool, only443: bool, port: nat)
    ensures Meaning(CompileRules([0, 1], vless, only443), 11, Request(SOCKS, port)) != Some(Intended([0, 1]))
  {
    assert Itoa(10) == "10" && Itoa(1) == "1";
    assert 1 in [0, 1] && 10 !in [0, 1] && Itoa(1) <= Itoa(10);
    CompileKeepsMeaning([0, 1], vless, only443, 11, Request(SOCKS, port));
  }

  // ---- The generated static configuration ----

  /** The rules of GenerateConfigWithOptions; either option restricts VLESS to port 443. */
  function StaticRules(vless: bool, outboundOnly443: bool, inboundOnly443: bool): seq<Rule> {
    [Rule("", API, false, Outbound(API))]
    + (if vless then
         if outboundOnly443 || inboundOnly443 then
           [Rule(VLESS_RULE, VLESS, true, Outbound(BLOCK)), Rule(VLESS_BLOCK_RULE, VLESS, false, Outbound(BLOCK))]
         else [Rule(VLESS_RULE, VLESS, false, Outbound(BLOCK))]
       else [])
    + [Rule(ACTIVE_RULE, SOCKS, false, Outbound(BLOCK))]
  }

  /** inspectConfigForVless: the restriction is recognised by the tag of its rule. */
  predicate Inspected443(rules: seq<Rule>) {
    exists k | 0 <= k < |rules| :: rules[k].ruleTag == VLESS_BLOCK_RULE
  }

  /** The static configuration denotes the empty set, and reading it back gives the options it was generated from. */
  lemma StaticRulesDenoteEmpty(vless: bool, outboundOnly443: bool, inboundOnly443: bool)
    ensures var only443 := outboundOnly443 || inboundOnly443;
        var rules := StaticRules(vless, outboundOnly443, inboundOnly443);
      && rules == CompileRules([], vless, only443)
      && (Inspected443(rules) <==> vless && only443)
  {
    var rules := StaticRules(vless, outboundOnly443, inboundOnly443);
    assert |ACTIVE_RULE| == 20 && |VLESS_RULE| == 26 && |VLESS_BLOCK_RULE| == 19;
    if vless && (outboundOnly443 || inboundOnly443) {
      assert rules[2].ruleTag == VLESS_BLOCK_RULE;
    }
  }
}
