/**
 How provider outcomes become one reputation decision (internal/reputation/engine.go)
 and an admission (internal/scheduler/admission.go). Providers complete in any
 order; the decision depends only on what they said.
 */
module Reputation {
  import opened Wrappers

  datatype Status = Good | Risky | Bad | Unknown

  datatype Flags = Flags(vpn: bool, proxy: bool, tor: bool, hosting: bool)

  /** A provider's result: `net` is its NetworkInfo, the options its own flags; no observedAt is Go's zero time. */
  datatype Report = Report(
    provider: string, status: Status, hardReject: bool, penalty: int, net: Flags,
    vpn: Option<bool>, proxy: Option<bool>, tor: Option<bool>, hosting: Option<bool>,
    countryCode: string, observedAt: Option<int>)

  /** A lookup error, a nil result and a result carrying an error are all failures. */
  datatype Outcome = Failed | Reported(report: Report)

  datatype Decision = Decision(status: Status, hardReject: bool, penalty: int, flags: Flags)

  datatype Tally = Tally(decision: Decision, unknown: nat, successes: nat)

  datatype Policy = Conservative | Lenient | OtherPolicy

  const NO_FLAGS := Flags(false, false, false, false)
  const START := Tally(Decision(Good, false, 0, NO_FLAGS), 0, 0)

  function Raised(net: bool, own: Option<bool>): bool {
    net || own == Some(true)
  }

  function MergeFlags(f: Flags, r: Report): Flags {
    Flags(f.vpn || Raised(r.net.vpn, r.vpn), f.proxy || Raised(r.net.proxy, r.proxy),
          f.tor || Raised(r.net.tor, r.tor), f.hosting || Raised(r.net.hosting, r.hosting))
  }

  /** A provider's judgement counts as bad, as a risk, or as nothing; UNKNOWN is counted apart. */
  predicate Condemns(r: Report) {
    r.status != Unknown && (r.hardReject || r.status == Bad)
  }

  predicate Doubts(r: Report) {
    && r.status != Unknown && !Condemns(r)
    && (r.status == Risky || r.penalty > 0 || r.net.vpn || r.net.hosting || r.net.proxy)
  }

  /** mergeProviderResult. */
  function Merge(t: Tally, r: Report): Tally {
    var d := t.decision.(flags := MergeFlags(t.decision.flags, r));
    if r.status == Unknown then t.(decision := d, unknown := t.unknown + 1)
    else if r.hardReject || r.status == Bad
        then t.(decision := d.(status := Bad, hardReject := d.hardReject || r.hardReject))
    else if r.status == Risky || r.penalty > 0 || r.net.vpn || r.net.hosting || r.net.proxy then
      t.(decision := d.(status := if d.status == Bad then Bad else Risky, penalty := d.penalty + r.penalty))
    else t.(decision := d)
  }

  function Add(t: Tally, o: Outcome): Tally {
    match o
    case Failed => t.(unknown := t.unknown + 1)
    case Reported(r) => Merge(t.(successes := t.successes + 1), r)
  }

  function Fold(os: seq<Outcome>): Tally {
    if os == [] then START else Add(Fold(os[..|os| - 1]), os[|os| - 1])
  }

  /** What follows when all providers are done. */
  function Finish(t: Tally, policy: Policy, lenientPenalty: int): Decision {
    if t.successes == 0 then
      t.decision.(status := Unknown, penalty := t.decision.penalty + if policy.Lenient? then lenientPenalty else 0)
    else if t.unknown > 0 && !t.decision.hardReject then
      match policy
      case Conservative => t.decision.(status := Unknown)
      case Lenient => t.decision.(penalty := t.decision.penalty + lenientPenalty)
      case OtherPolicy => t.decision
    else t.decision
  }

  /** The decision of EvaluateIP on a cache miss, for providers that complete in the order of `os`. */
  function Decide(os: seq<Outcome>, policy: Policy, lenientPenalty: int): Decision {
    if os == [] then Decision(Unknown, false, 0, NO_FLAGS) else Finish(Fold(os), policy, lenientPenalty)
  }

  // ---- Completion order ----

  lemma FlagsCommute(f: Flags, a: Report, b: Report)
    ensures MergeFlags(MergeFlags(f, a), b) == MergeFlags(MergeFlags(f, b), a)
  {
  }

  lemma MergesCommute(t: Tally, a: Report, b: Report)
    ensures Merge(Merge(t.(successes := t.successes + 1), a).(successes := t.successes + 2), b)
         == Merge(Merge(t.(successes := t.successes + 1), b).(successes := t.successes + 2), a)
  {
    hide MergeFlags;
    FlagsCommute(t.decision.flags, a, b);
  }

  lemma MergeCounts(t: Tally, r: Report)
    ensures Merge(t, r).successes == t.successes
    ensures Merge(t.(unknown := t.unknown + 1), r) == Merge(t, r).(unknown := Merge(t, r).unknown + 1)
  {
    hide MergeFlags;
  }

  lemma AddsCommute(t: Tally, a: Outcome, b: Outcome)
    ensures Add(Add(t, a), b) == Add(Add(t, b), a)
  {
    hide Merge;
    var t1 := t.(successes := t.successes + 1);
    if a.Reported? { MergeCounts(t1, a.report); }
    if b.Reported? { MergeCounts(t1, b.report); }
    if a.Reported? && b.Reported? { MergesCommute(t, a.report, b.report); }
  }

  /** An outcome may as well have come last. */
  lemma {:induction false} CameLast(os: seq<Outcome>, i: nat)
    requires i < |os|
    ensures Fold(os) == Add(Fold(os[..i] + os[i + 1..]), os[i])
    decreases |os|
  {
    hide Add;
    var n := |os| - 1;
    if i == n {
      assert os[..i] + os[i + 1..] == os[..n];
    } else {
      CameLast(os[..n], i);
      var rest := os[..i] + os[i + 1..];
      assert rest[..|rest| - 1] == os[..n][..i] + os[..n][i + 1..];
      AddsCommute(Fold(os[..n][..i] + os[..n][i + 1..]), os[i], os[n]);
    }
  }

  /** The same outcomes in any other order give the same tally. */
  lemma {:induction false} OrderIrrelevant(a: seq<Outcome>, b: seq<Outcome>)
    requires multiset(a) == multiset(b)
    ensures Fold(a) == Fold(b)
    decreases |a|
  {
    hide Add;
    if a == [] {
      assert |multiset(b)| == |b| == 0;
    } else {
      var n := |a| - 1;
      assert a[n] in multiset(b);
      var i :| 0 <= i < |b| && b[i] == a[n];
      CameLast(b, i);
      assert a[..n] + a[n + 1..] == a[..n];
      TakenOut(a, n);
      TakenOut(b, i);
      Cancel(multiset(a[..n]), multiset(b[..i] + b[i + 1..]), a[n]);
      OrderIrrelevant(a[..n], b[..i] + b[i + 1..]);
    }
  }

  lemma TakenOut<T>(s: seq<T>, i: nat)
    requires i < |s|
    ensures multiset(s) == multiset(s[..i] + s[i + 1..]) + multiset{s[i]}
  {
    assert s == s[..i] + [s[i]] + s[i + 1..];
  }

  lemma Cancel<T>(a: multiset<T>, b: multiset<T>, x: T)
    requires a + multiset{x} == b + multiset{x}
    ensures a == b
  {
    assert a == a + multiset{x} - multiset{x};
    assert b == b + multiset{x} - multiset{x};
  }

  // ---- What the decision is, without any order ----

  ghost predicate Somewhere(os: seq<Outcome>, p: Report -> bool) {
    exists k :: 0 <= k < |os| && os[k].Reported? && p(os[k].report)
  }

  function Penalties(os: seq<Outcome>): int {
    if os == [] then 0
    else Penalties(os[..|os| - 1]) + match os[|os| - 1]
      case Failed => 0
      case Reported(r) => if Doubts(r) then r.penalty else 0
  }

  ghost predicate AnyUnknown(os: seq<Outcome>) {
    exists k :: 0 <= k < |os| && (os[k].Failed? || os[k].report.status == Unknown)
  }

  /** One more outcome, as far as a property of reports goes. */
  lemma SomeStep(os: seq<Outcome>, p: Report -> bool)
    requires os != []
    ensures var n := |os| - 1; Somewhere(os, p) <==> Somewhere(os[..n], p) || (os[n].Reported? && p(os[n].report))
  {
    var n := |os| - 1;
    if k :| 0 <= k < |os| && os[k].Reported? && p(os[k].report) {
      assert k < n ==> os[..n][k] == os[k];
    }
    if k :| 0 <= k < |os[..n]| && os[..n][k].Reported? && p(os[..n][k].report) {
      assert os[k] == os[..n][k];
    }
  }

  lemma UnknownStep(os: seq<Outcome>)
    requires os != []
    ensures var n := |os| - 1; AnyUnknown(os) <==>
        AnyUnknown(os[..n]) || os[n].Failed? || os[n].report.status == Unknown
  {
    var n := |os| - 1;
    if k :| 0 <= k < |os| && (os[k].Failed? || os[k].report.status == Unknown) {
      assert k < n ==> os[..n][k] == os[k];
    }
    if k :| 0 <= k < |os[..n]| && (os[..n][k].Failed? || os[..n][k].report.status == Unknown) {
      assert os[k] == os[..n][k];
    }
  }

  const IsCondemned := (r: Report) => Condemns(r)
  const IsDoubted := (r: Report) => Doubts(r)
  const IsHard := (r: Report) => r.status != Unknown && r.hardReject
  const IsAny := (r: Report) => true

  /**
   Bad when some provider condemns, else risky when some provider doubts, else good; a hard rejection when some
   provider hard-rejects; the penalties of the doubting providers and of no others; unknown when some provider failed
   or did not know.
   */
  lemma {:induction false} FoldMeans(os: seq<Outcome>)
    ensures var t := Fold(os);
      && t.decision.status == (if Somewhere(os, IsCondemned) then Bad else if Somewhere(os, IsDoubted)
          then Risky else Good)
      && (t.decision.hardReject <==> Somewhere(os, IsHard))
      && t.decision.penalty == Penalties(os)
      && (t.unknown > 0 <==> AnyUnknown(os)) && (t.successes > 0 <==> Somewhere(os, IsAny))
  {
    if os != [] {
      FoldMeans(os[..|os| - 1]);
      SomeStep(os, IsCondemned);
      SomeStep(os, IsDoubted);
      SomeStep(os, IsHard);
      SomeStep(os, IsAny);
      UnknownStep(os);
      hide Somewhere, AnyUnknown;
    }
  }

  const RaisesVpn := (r: Report) => Raised(r.net.vpn, r.vpn)
  const RaisesProxy := (r: Report) => Raised(r.net.proxy, r.proxy)
  const RaisesTor := (r: Report) => Raised(r.net.tor, r.tor)
  const RaisesHosting := (r: Report) => Raised(r.net.hosting, r.hosting)

  /** A network flag is set when some provider raises it, in its network information or on its own. */
  lemma {:induction false} FlagsMean(os: seq<Outcome>)
    ensures var f := Fold(os).decision.flags;
      && (f.vpn <==> Somewhere(os, RaisesVpn)) && (f.proxy <==> Somewhere(os, RaisesProxy))
      && (f.tor <==> Somewhere(os, RaisesTor)) && (f.hosting <==> Somewhere(os, RaisesHosting))
  {
    if os != [] {
      AddFlags(Fold(os[..|os| - 1]), os[|os| - 1]);
      FlagsMean(os[..|os| - 1]);
      SomeStep(os, RaisesVpn);
      SomeStep(os, RaisesProxy);
      SomeStep(os, RaisesTor);
      SomeStep(os, RaisesHosting);
      hide Somewhere, Add;
    }
  }

  lemma AddFlags(t: Tally, o: Outcome)
    ensures Add(t, o).decision.flags == if o.Failed? then t.decision.flags else MergeFlags(t.decision.flags, o.report)
  {
  }

  ghost function Reporters(os: seq<Outcome>): set<int> {
    set k | 0 <= k < |os| && os[k].Reported?
  }

  ghost function Unsure(os: seq<Outcome>): set<int> {
    set k | 0 <= k < |os| && (os[k].Failed? || os[k].report.status == Unknown)
  }

  lemma OneMoreProvider(os: seq<Outcome>, o: Outcome)
    ensures |Reporters(os + [o])| == |Reporters(os)| + if o.Reported? then 1 else 0
    ensures |Unsure(os + [o])| == |Unsure(os)| + if o.Failed? || o.report.status == Unknown then 1 else 0
  {
    var n := |os|;
    assert n !in Reporters(os) && n !in Unsure(os);
    assert Reporters(os + [o]) == Reporters(os) + if o.Reported? then {n} else {};
    assert Unsure(os + [o]) == Unsure(os) + if o.Failed? || o.report.status == Unknown then {n} else {};
  }

  lemma AddCounts(t: Tally, o: Outcome)
    ensures Add(t, o).successes == t.successes + if o.Reported? then 1 else 0
    ensures Add(t, o).unknown == t.unknown + if o.Failed? || o.report.status == Unknown then 1 else 0
  {
  }

  /** Every provider is counted once: as unknown when it failed or did not know, and as a success when it reported. */
  lemma {:induction false} CountsMean(os: seq<Outcome>)
    ensures Fold(os).successes == |Reporters(os)| && Fold(os).unknown == |Unsure(os)|
  {
    if os == [] {
    } else {
      var n := |os| - 1;
      assert os == os[..n] + [os[n]];
      CountsMean(os[..n]);
      OneMoreProvider(os[..n], os[n]);
      AddCounts(Fold(os[..n]), os[n]);
      hide Add, Reporters, Unsure;
    }
  }

  /**
   The decision, policy included: UNKNOWN when nobody reports, and under the conservative policy as soon as anybody
   fails or does not know, unless somebody hard-rejects; under the lenient policy such doubt costs its penalty once.
   */
  lemma DecideMeans(os: seq<Outcome>, policy: Policy, lenientPenalty: int)
    ensures var d := Decide(os, policy, lenientPenalty);
      var unsure := AnyUnknown(os) && !Somewhere(os, IsHard);
      && (d.hardReject <==> Somewhere(os, IsHard))
      && d.status == (if !Somewhere(os, IsAny) || (policy == Conservative && unsure) then Unknown
                      else if Somewhere(os, IsCondemned) then Bad
                      else if Somewhere(os, IsDoubted) then Risky else Good)
      && d.penalty == Penalties(os) + (if policy == Lenient && unsure then lenientPenalty else 0)
      && d.flags == Fold(os).decision.flags
  {
    FoldMeans(os);
    if os == [] {
    } else if Fold(os).successes == 0 {
      NoSuccessNoJudgement(os);
    }
    hide Somewhere, AnyUnknown, Add, Penalties;
  }

  /** A BAD result that is not a hard rejection makes the status bad and adds no penalty, whatever it carries. */
  lemma BadAddsNoPenalty(os: seq<Outcome>, r: Report)
    requires r.status == Bad && !r.hardReject
    ensures var t, t' := Fold(os), Fold(os + [Reported(r)]);
      t'.decision.penalty == t.decision.penalty && t'.decision.status == Bad &&
          t'.decision.hardReject == t.decision.hardReject
  {
    assert (os + [Reported(r)])[..|os|] == os;
  }

  // ---- Admission ----

  /** EvaluateIPAdmission: the decision admits the address. */
  predicate Admits(d: Decision, policy: Policy) {
    !d.hardReject && d.flags == NO_FLAGS && !(d.status == Unknown && policy.Conservative?)
  }

  ghost predicate AnyTrait(os: seq<Outcome>) {
    Somewhere(os, RaisesVpn) || Somewhere(os, RaisesProxy) || Somewhere(os, RaisesTor) || Somewhere(os, RaisesHosting)
  }

  /**
   An address is admitted exactly when nobody hard-rejects it, nobody raises a prohibited trait, and, under the
   conservative policy, somebody was asked and everybody asked knows it.
   */
  lemma AdmissionMeans(os: seq<Outcome>, policy: Policy, lenientPenalty: int)
    ensures Admits(Decide(os, policy, lenientPenalty), policy) <==>
      && !Somewhere(os, IsHard) && !AnyTrait(os)
      && (policy == Conservative ==> os != [] && !AnyUnknown(os))
  {
    DecideMeans(os, policy, lenientPenalty);
    FlagsMean(os);
    if os != [] {
      var o := os[0];
      assert o.Failed? || (o.Reported? && IsAny(o.report));
    }
    hide Decide, Fold, Penalties;
  }

  lemma FoldNext(os: seq<Outcome>, o: Outcome)
    ensures Fold(os + [o]) == Add(Fold(os), o)
  {
    assert (os + [o])[..|os|] == os;
  }

  /** A tally in which nobody has reported anything yet. */
  lemma {:induction false} NoSuccessNoJudgement(os: seq<Outcome>)
    requires Fold(os).successes == 0
    ensures Fold(os).decision == START.decision && (os != [] ==> Fold(os).unknown > 0)
  {
    if os != [] {
      NoSuccessNoJudgement(os[..|os| - 1]);
    }
  }

  /** Hearing one more provider never turns a rejection into an admission. */
  lemma MoreEvidenceNeverAdmits(os: seq<Outcome>, o: Outcome, policy: Policy, lenientPenalty: int)
    requires os != [] && !Admits(Decide(os, policy, lenientPenalty), policy)
    ensures !Admits(Decide(os + [o], policy, lenientPenalty), policy)
  {
    FoldNext(os, o);
    FoldMeans(os);
    hide Fold, Somewhere, AnyUnknown;
    if Fold(os).successes == 0 {
      NoSuccessNoJudgement(os);
    }
  }

  /** A known verdict that neither rejects the address outright nor raises a prohibited trait; BAD alone may be one. */
  predicate Acceptable(o: Outcome) {
    && o.Reported? && o.report.status != Unknown && !o.report.hardReject
    && MergeFlags(NO_FLAGS, o.report) == NO_FLAGS
  }

  /**
   Without the first provider there is nothing to hold on to. No report at all is rejected under the conservative
   policy only, and then exactly an acceptable first outcome turns the rejection into an admission.
   */
  lemma FirstEvidenceMayAdmit(o: Outcome, policy: Policy, lenientPenalty: int)
    ensures !Admits(Decide([], policy, lenientPenalty), policy) && Admits(Decide([o], policy, lenientPenalty), policy)
      <==> policy == Conservative && Acceptable(o)
  {
    FoldNext([], o);
    assert [] + [o] == [o];
  }

  /** The last country code reported; `upper` stands for strings.ToUpper and strings.TrimSpace together. */
  function CountryCode(os: seq<Outcome>): string {
    if os == [] then ""
    else
      match os[|os| - 1]
      case Failed => CountryCode(os[..|os| - 1])
      case Reported(r) => if r.countryCode != "" then r.countryCode else CountryCode(os[..|os| - 1])
  }

  /** EvaluateIPAdmissionForRegion. */
  predicate AdmitsInRegion(os: seq<Outcome>, policy: Policy, lenientPenalty: int, expected: string,
      upper: string -> string) {
    && Admits(Decide(os, policy, lenientPenalty), policy)
    && !(upper(expected) != "" && upper(CountryCode(os)) != "" && upper(CountryCode(os)) != upper(expected))
  }

  /** The region check rejects exactly when a region is expected, a code is known, and they differ. */
  lemma RegionMeans(os: seq<Outcome>, policy: Policy, lenientPenalty: int, expected: string, upper: string -> string)
    ensures AdmitsInRegion(os, policy, lenientPenalty, expected, upper) <==>
      && Admits(Decide(os, policy, lenientPenalty), policy)
      && (upper(expected) == "" || upper(CountryCode(os)) in {"", upper(expected)})
  {
  }

  /** Every code that is reported at all means the same country. */
  ghost predicate CodesAgree(os: seq<Outcome>, upper: string -> string) {
    forall j, k | 0 <= j < |os| && 0 <= k < |os| && os[j].Reported? && os[k].Reported?
      && os[j].report.countryCode != "" && os[k].report.countryCode != "" ::
      upper(os[j].report.countryCode) == upper(os[k].report.countryCode)
  }

  lemma {:induction false} CodeIsReported(os: seq<Outcome>) returns (k: nat)
    requires CountryCode(os) != ""
    ensures k < |os| && os[k].Reported? && os[k].report.countryCode == CountryCode(os)
  {
    var n := |os| - 1;
    if os[n].Reported? && os[n].report.countryCode != "" {
      k := n;
    } else {
      k := CodeIsReported(os[..n]);
    }
  }

  /** With agreeing country codes the region check is no exception. */
  lemma MoreEvidenceNeverAdmitsInRegion(os: seq<Outcome>, o: Outcome, policy: Policy, lenientPenalty: int,
                                        expected: string, upper: string -> string)
    requires os != [] && upper("") == "" && CodesAgree(os + [o], upper)
    requires !AdmitsInRegion(os, policy, lenientPenalty, expected, upper)
    ensures !AdmitsInRegion(os + [o], policy, lenientPenalty, expected, upper)
  {
    hide Decide;
    if !Admits(Decide(os, policy, lenientPenalty), policy) {
      MoreEvidenceNeverAdmits(os, o, policy, lenientPenalty);
    } else {
      var all := os + [o];
      assert all[..|os|] == os;
      var j := CodeIsReported(os);
      var k := CodeIsReported(all);
      assert all[j] == os[j];
    }
  }

  /** Whatever region is expected, hearing `o` too does not turn a rejection into an admission. */
  ghost predicate KeepsRejecting(os: seq<Outcome>, o: Outcome, policy: Policy, lenientPenalty: int,
                                 upper: string -> string) {
    forall expected: string :: AdmitsInRegion(os + [o], policy, lenientPenalty, expected, upper) ==>
      AdmitsInRegion(os, policy, lenientPenalty, expected, upper)
  }

  /**
   In general: one more outcome keeps every rejection if and only if the address is rejected anyway, or there was no
   usable code before, or the usable code stays the same. So a rejection is lost exactly when the new code names
   another country, or is blank and switches the check off.
   */
  lemma RegionKeepsRejectingExactly(os: seq<Outcome>, o: Outcome, policy: Policy, lenientPenalty: int,
                                    upper: string -> string, here: string, there: string)
    requires os != [] && (forall c: string :: upper(upper(c)) == upper(c))
    requires upper(here) != "" && upper(there) != "" && upper(here) != upper(there)
    ensures KeepsRejecting(os, o, policy, lenientPenalty, upper) <==>
      || !Admits(Decide(os + [o], policy, lenientPenalty), policy)
      || upper(CountryCode(os)) == ""
      || upper(CountryCode(os + [o])) == upper(CountryCode(os))
  {
    if Admits(Decide(os + [o], policy, lenientPenalty), policy) {
      if !Admits(Decide(os, policy, lenientPenalty), policy) { MoreEvidenceNeverAdmits(os, o, policy, lenientPenalty); }
      hide Decide, Admits, CountryCode;
      var before, after := upper(CountryCode(os)), upper(CountryCode(os + [o]));
      if before != "" && after != before {
        var expected := if after != "" then after else if upper(here) == before then there else here;
        assert AdmitsInRegion(os + [o], policy, lenientPenalty, expected, upper);
        assert !AdmitsInRegion(os, policy, lenientPenalty, expected, upper);
      }
    }
  }

  /** The code is the last one reported that is not empty. */
  lemma CodeAfter(os: seq<Outcome>, o: Outcome)
    ensures CountryCode(os + [o]) ==
      if o.Reported? && o.report.countryCode != "" then o.report.countryCode else CountryCode(os)
  {
    assert (os + [o])[..|os|] == os;
  }

  /** Both ways it happens: the later code is the expected one, or says nothing once trimmed. */
  lemma DisagreeingCodesMayAdmit(upper: string -> string, later: string)
    requires upper("FR") == "FR" && upper("JP") == "JP" && later != "" && (upper(later) == "JP" || upper(later) == "")
    ensures var clean := Report("p", Good, false, 0, NO_FLAGS, None, None, None, None, "FR", None);
      var os := [Reported(clean)]; var o := Reported(clean.(countryCode := later));
      !AdmitsInRegion(os, Conservative, 20, "JP", upper) && AdmitsInRegion(os + [o], Conservative, 20, "JP", upper)
  {
    var clean := Report("p", Good, false, 0, NO_FLAGS, None, None, None, None, "FR", None);
    var o := Reported(clean.(countryCode := later));
    FoldNext([], Reported(clean));
    FoldNext([Reported(clean)], o);
    assert [] + [Reported(clean)] == [Reported(clean)];
    CodeAfter([Reported(clean)], o);
  }

  // ---- The shared result under its mutex ----

  /** The result and counters that the provider goroutines share. */
  class Aggregate {
    var status: Status
    var hardReject: bool
    var scorePenalty: int
    var flags: Flags
    var unknownCount: nat
    var successCount: nat

    constructor ()
      ensures View() == START
    {
      status, hardReject, scorePenalty, flags, unknownCount, successCount := Good, false, 0, NO_FLAGS, 0, 0;
    }

    function View(): Tally
      reads this
    {
      Tally(Decision(status, hardReject, scorePenalty, flags), unknownCount, successCount)
    }

    method MergeProviderResult(r: Report)
      modifies this
      ensures View() == Merge(old(View()), r)
    {
      flags := MergeFlags(flags, r);
      if r.status == Unknown {
        unknownCount := unknownCount + 1;
      } else if r.hardReject || r.status == Bad {
        status := Bad;
        if r.hardReject {
          hardReject := true;
        }
      } else if r.status == Risky || r.penalty > 0 || r.net.vpn || r.net.hosting || r.net.proxy {
        if status != Bad {
          status := Risky;
        }
        scorePenalty := scorePenalty + r.penalty;
      }
    }

    /** One goroutine's turn with the mutex. */
    method Complete(o: Outcome)
      modifies this
      ensures View() == Add(old(View()), o)
    {
      match o
      case Failed => unknownCount := unknownCount + 1;
      case Reported(r) =>
        successCount := successCount + 1;
        MergeProviderResult(r);
    }

    /** After all of them. */
    method ApplyPolicy(policy: Policy, lenientPenalty: int)
      modifies this
      ensures View().decision == Finish(old(View()), policy, lenientPenalty)
      ensures unknownCount == old(unknownCount) && successCount == old(successCount)
    {
      if successCount == 0 {
        status := Unknown;
        if policy.Lenient? {
          scorePenalty := scorePenalty + lenientPenalty;
        }
        return;
      }
      if unknownCount > 0 && !hardReject {
        if policy.Conservative? {
          status := Unknown;
        } else if policy.Lenient? {
          scorePenalty := scorePenalty + lenientPenalty;
        }
      }
    }
  }

  /** The providers run concurrently: whichever of those still out takes the mutex next. */
  method EvaluateProviders(outcomes: seq<Outcome>, policy: Policy, lenientPenalty: int)
      returns (d: Decision, successes: nat)
    ensures d == Decide(outcomes, policy, lenientPenalty)
    ensures successes == Fold(outcomes).successes
  {
    hide Add, Finish;
    if outcomes == [] {
      return Decision(Unknown, false, 0, NO_FLAGS), 0;
    }
    var result := new Aggregate();
    var out := outcomes;
    ghost var done: seq<Outcome> := [];
    while out != []
      invariant result.View() == Fold(done)
      invariant multiset(done) + multiset(out) == multiset(outcomes)
      decreases |out|
    {
      var i :| 0 <= i < |out|;
      assert out == out[..i] + [out[i]] + out[i + 1..];
      result.Complete(out[i]);
      FoldNext(done, out[i]);
      done := done + [out[i]];
      out := out[..i] + out[i + 1..];
    }
    OrderIrrelevant(done, outcomes);
    result.ApplyPolicy(policy, lenientPenalty);
    return result.View().decision, result.successCount;
  }
}
