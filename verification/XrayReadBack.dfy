/**
 Reading the runtime back after a change (internal/xray/supervisor.go:685-868), and
 exactly which runtimes the read-back accepts.
 */
module XrayReadBack {
  import opened Wrappers
  import opened Decimal
  import opened Balancers
  import opened XrayRules

  /** One entry of `xray api lsrules`. */
  datatype RuntimeRule = RuntimeRule(ruleTag: string, tag: string, balancerTag: string)

  function FindRule(rules: seq<RuntimeRule>, ruleTag: string): Option<RuntimeRule> {
    if rules == [] then None else if rules[0].ruleTag == ruleTag then Some(rules[0]) else FindRule(rules[1..], ruleTag)
  }

  /** validateRuntimeRuleTarget: for a balancing rule the balancer's tag may be missing. */
  predicate ValidTarget(rule: Option<RuntimeRule>, expected: seq<nat>) {
    rule.Some? &&
    match ExpectedTarget(expected)
    case Balanced(balancer) => rule.value.tag == "" &&
        (rule.value.balancerTag == "" || rule.value.balancerTag == balancer)
    case Outbound(tag) => rule.value.tag == tag && rule.value.balancerTag == ""
  }

  /** A direct target must be the one outbound and no balancer; a balanced one no outbound and no other balancer. */
  lemma ValidTargetMeans(rule: Option<RuntimeRule>, expected: seq<nat>)
    ensures rule.None? ==> !ValidTarget(rule, expected)
    ensures rule.Some? ==> (ValidTarget(rule, expected) <==>
      if |expected| > 1 then rule.value.tag == "" && rule.value.balancerTag in {"", "balancer-" + Dashed(expected)}
      else
        && rule.value.balancerTag == ""
        && rule.value.tag == if expected == [] then "block" else "exit-" + Itoa(expected[0]))
  {
  }

  /** verifyRuntimeRoutingLocked, `selects` being the exits that `xray api bi` lists for the expected balancer. */
  predicate ReadBack(rules: seq<RuntimeRule>, selects: set<string>, expected: seq<nat>,
      draining: Option<nat>, vless: bool) {
    var active := FindRule(rules, ACTIVE_RULE);
    && ValidTarget(active, expected)
    && (vless ==> ValidTarget(FindRule(rules, VLESS_RULE), expected))
    && (draining.Some? ==> active.value.tag != ExitTag(draining.value))
    && (|expected| > 1 ==>
          && (forall k | 0 <= k < |expected| :: ExitTag(expected[k]) in selects)
          && (draining.Some? ==> ExitTag(draining.value) !in selects)
          && |selects| == |expected|)
  }

  method FindRuntimeRule(rules: seq<RuntimeRule>, ruleTag: string) returns (r: Option<RuntimeRule>)
    ensures r == FindRule(rules, ruleTag)
  {
    for i := 0 to |rules|
      invariant FindRule(rules, ruleTag) == FindRule(rules[i..], ruleTag)
    {
      if rules[i].ruleTag == ruleTag {
        return Some(rules[i]);
      }
      assert rules[i..][1..] == rules[i + 1..];
    }
    assert rules[|rules|..] == [];
    return None;
  }

  method VerifyRuntimeRouting(rules: seq<RuntimeRule>, selects: set<string>, expected: seq<nat>,
      draining: Option<nat>, vless: bool)
    returns (ok: bool)
    ensures ok <==> ReadBack(rules, selects, expected, draining, vless)
  {
    hide ExpectedTarget, ExitTag;
    var active := FindRuntimeRule(rules, ACTIVE_RULE);
    if !ValidTarget(active, expected) {
      return false;
    }
    if vless {
      var rule := FindRuntimeRule(rules, VLESS_RULE);
      if !ValidTarget(rule, expected) {
        return false;
      }
    }
    if draining.Some? && active.value.tag == ExitTag(draining.value) {
      return false;
    }
    if |expected| > 1 {
      for k := 0 to |expected|
        invariant forall j | 0 <= j < k :: ExitTag(expected[j]) in selects
      {
        if ExitTag(expected[k]) !in selects {
          return false;
        }
      }
      if draining.Some? && ExitTag(draining.value) in selects {
        return false;
      }
      return |selects| == |expected|;
    }
    return true;
  }

  // ---- Every expected slot and as many selectors as slots: the sets are equal ----

  lemma {:induction false} ExitTagsSize(c: seq<nat>)
    requires Increasing(c)
    ensures |ExitTags(c)| == |c|
  {
    if c != [] {
      var d := c[..|c| - 1];
      ExitTagsSize(d);
      forall k | 0 <= k < |d| ensures ExitTag(d[k]) != ExitTag(c[|c| - 1]) { ExitTagInjective(d[k], c[|c| - 1]); }
      assert ExitTags(c) == ExitTags(d) + {ExitTag(c[|c| - 1])} by {
        forall k | 0 <= k < |c| ensures ExitTag(c[k]) in ExitTags(d) + {ExitTag(c[|c| - 1])} {
          if k < |d| { assert ExitTag(d[k]) in ExitTags(d); }
        }
        forall k | 0 <= k < |d| ensures ExitTag(d[k]) in ExitTags(c) { assert d[k] == c[k]; }
      }
    }
  }

  lemma SubsetOfSameSize<T>(a: set<T>, b: set<T>)
    requires a <= b && |a| == |b|
    ensures a == b
  {
    assert |b - a| == |b| - |a|;
    assert b == a + (b - a);
  }

  /** The three checks on the selectors together say that they are exactly the expected exits. */
  lemma SelectorsExact(rules: seq<RuntimeRule>, selects: set<string>, expected: seq<nat>,
      draining: Option<nat>, vless: bool)
    requires ReadBack(rules, selects, expected, draining, vless) && Increasing(expected) && |expected| > 1
    ensures selects == ExitTags(expected)
  {
    ExitTagsSize(expected);
    assert ExitTags(expected) <= selects;
    SubsetOfSameSize(ExitTags(expected), selects);
  }

  // ---- What a runtime reports about itself ----

  /** lsrules shows direct targets; `shown` says whether it also shows the balancers of balancing rules. */
  function Report(rules: seq<Rule>, shown: bool): seq<RuntimeRule> {
    if rules == [] then []
    else
      [match rules[0].target
       case Outbound(tag) => RuntimeRule(rules[0].ruleTag, tag, "")
       case Balanced(balancer) => RuntimeRule(rules[0].ruleTag, "", if shown then balancer else "")]
      + Report(rules[1..], shown)
  }

  function Shown(target: Target, ruleTag: string, shown: bool): RuntimeRule {
    match target
    case Outbound(tag) => RuntimeRule(ruleTag, tag, "")
    case Balanced(balancer) => RuntimeRule(ruleTag, "", if shown then balancer else "")
  }

  lemma ReportFirst(r: Rule, rest: seq<Rule>, shown: bool, tag: string)
    ensures FindRule(Report([r] + rest, shown), tag) ==
              if r.ruleTag == tag then Some(Shown(r.target, tag, shown)) else FindRule(Report(rest, shown), tag)
  {
    assert ([r] + rest)[1..] == rest;
    assert Report([r] + rest, shown)[1..] == Report(rest, shown);
  }

  lemma CompiledReport(x: seq<nat>, vless: bool, only443: bool, shown: bool)
    ensures var report := Report(CompileRules(x, vless, only443), shown);
      && FindRule(report, ACTIVE_RULE) == Some(Shown(ExpectedTarget(x), ACTIVE_RULE, shown))
      && (vless ==> FindRule(report, VLESS_RULE) == Some(Shown(ExpectedTarget(x), VLESS_RULE, shown)))
  {
    assert |ACTIVE_RULE| == 20 && |VLESS_RULE| == 26 && |VLESS_BLOCK_RULE| == 19;
    var target := ExpectedTarget(x);
    var api, first := Rule("", API, false, Outbound(API)), Rule(VLESS_RULE, VLESS, only443, target);
    var second, last := Rule(VLESS_BLOCK_RULE, VLESS, false, Outbound(BLOCK)), Rule(ACTIVE_RULE, SOCKS, false, target);
    var rest := if !vless then [last] else if only443 then [first] + ([second] + [last]) else [first] + [last];
    assert CompileRules(x, vless, only443) == [api] + rest && [last] == [last] + [];
    forall tag | tag == ACTIVE_RULE || tag == VLESS_RULE
      ensures FindRule(Report([api] + rest, shown), tag) ==
        if tag == ACTIVE_RULE || vless then Some(Shown(target, tag, shown)) else None
    {
      ReportFirst(last, [], shown, tag);
      ReportFirst(second, [last], shown, tag);
      ReportFirst(first, [last], shown, tag);
      ReportFirst(first, [second] + [last], shown, tag);
      ReportFirst(api, rest, shown, tag);
    }
  }

  lemma TargetsApart(x: seq<nat>, y: seq<nat>)
    ensures ExpectedTarget(x) == ExpectedTarget(y) <==> x == y
  {
    assert BLOCK[0] == 'b';
    if |x| == 1 && |y| == 1 {
      ExitTagInjective(x[0], y[0]);
    } else if |x| > 1 && |y| > 1 && BalancerTag(x) == BalancerTag(y) {
      SameTagSameSlots(x, y);
    }
  }

  /** A runtime cannot tell two balancing rules apart unless it shows their balancers. */
  predicate Mistakable(x: seq<nat>, expected: seq<nat>, shown: bool) {
    !shown && |x| > 1 && |expected| > 1
  }

  lemma ValidTargetExactly(x: seq<nat>, expected: seq<nat>, ruleTag: string, shown: bool)
    ensures ValidTarget(Some(Shown(ExpectedTarget(x), ruleTag, shown)), expected) <==>
        x == expected || Mistakable(x, expected, shown)
  {
    TargetsApart(x, expected);
    assert |x| > 1 ==> BalancerTag(x)[0] == 'b';
    assert |expected| == 1 ==> ExitTag(expected[0])[0] == 'e';
  }

  /**
   The runtime holds the rules of some active set x, fresh or stale, and the generated balancers. The read-back for
   `expected` accepts it if and only if x is the expected set, or both are balanced and the balancer is not shown; and
   the expected set does not overlap another slot; and the draining slot is not among the expected ones.
   */
  lemma ReadBackAccepts(x: seq<nat>, expected: seq<nat>, draining: Option<nat>, vless: bool, only443: bool,
      shown: bool, n: nat)
    requires ActiveSet(x, n) && ActiveSet(expected, n)
    ensures
      ReadBack(Report(CompileRules(x, vless, only443), shown),
               Reach(Balanced(BalancerTag(expected)), AllBalancers(n), n), expected, draining, vless)
      <==> (x == expected || Mistakable(x, expected, shown))
           && (|expected| < 2 || !Overlaps(expected, n))
           && (draining.Some? ==> draining.value !in expected)
  {
    var selects := Reach(Balanced(BalancerTag(expected)), AllBalancers(n), n);
    var rules := Report(CompileRules(x, vless, only443), shown);
    hide CompileRules, Report, Reach, ExpectedTarget, FindRule, ValidTarget;
    CompiledReport(x, vless, only443, shown);
    ValidTargetExactly(x, expected, ACTIVE_RULE, shown);
    ValidTargetExactly(x, expected, VLESS_RULE, shown);
    if |expected| > 1 {
      BalancerReach(n, expected);
      ExitTagsSize(expected);
      SelectorsAccepted(selects, expected, n);
      if draining.Some? {
        ExitTagsMember(expected, draining.value);
        DrainingDirect(x, draining.value, shown);
      }
    } else if draining.Some? {
      DrainingDirect(x, draining.value, shown);
    }
  }

  lemma SelectorsAccepted(selects: set<string>, expected: seq<nat>, n: nat)
    requires ExitTags(expected) <= selects && |ExitTags(expected)| == |expected|
    ensures forall k | 0 <= k < |expected| :: ExitTag(expected[k]) in selects
    ensures |selects| == |expected| <==> selects == ExitTags(expected)
  {
    forall k | 0 <= k < |expected| ensures ExitTag(expected[k]) in selects {
      assert ExitTag(expected[k]) in ExitTags(expected);
    }
    if |selects| == |expected| {
      SubsetOfSameSize(ExitTags(expected), selects);
    }
  }

  lemma DrainingDirect(x: seq<nat>, d: nat, shown: bool)
    ensures Shown(ExpectedTarget(x), ACTIVE_RULE, shown).tag == ExitTag(d) <==> x == [d]
  {
    assert BLOCK[0] == 'b' && ExitTag(d)[0] == 'e';
    if |x| == 1 {
      ExitTagInjective(x[0], d);
    }
  }
}
