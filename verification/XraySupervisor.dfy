/**
 The Xray supervisor as an object: the remembered tags, a runtime that holds actual
 rules, and the transactions that keep the two in step
 (internal/xray/supervisor.go:542-704, 870-953).

 Its View() is a state of module XrayTransaction, in which the runtime is only the
 set of slots it routes: the rule lists really mean those sets.
 */
module XraySupervisor {
  import opened Wrappers
  import opened Decimal
  import opened Balancers
  import opened XrayRules
  import opened XrayReadBack
  import T = XrayTransaction

  /** How the runtime answers one application of rules: `left` is what a refused command leaves behind. */
  datatype Answer = Answer(accepted: bool, left: seq<Rule>, readable: bool, shown: bool)

  /** The runtime takes the rules of these slots, and reads back as having them. */
  ghost predicate Takes(answer: Answer, slots: set<nat>, n: nat) {
    answer.accepted && answer.readable && !Confusable(slots, n)
  }

  function SlotOf(tag: string): nat {
    if |tag| <= 5 then 0 else var v := Value(tag[5..]); if v < 0 then 0 else v
  }

  lemma SlotOfExitTag(slot: nat)
    ensures SlotOf(ExitTag(slot)) == slot
  {
    assert ExitTag(slot)[5..] == Itoa(slot);
    ValueOfItoa(slot);
  }

  /** The slots that a runtime lets new SOCKS connections use. */
  function RoutedSlots(rules: seq<Rule>, n: nat): set<nat> {
    match Meaning(rules, n, Request(SOCKS, 0))
    case None => {}
    case Some(tags) => set slot: nat | slot < n && ExitTag(slot) in tags
  }

  /** The outbounds that a set of slots stands for. */
  function Exits(slots: set<nat>): set<string> {
    if slots == {} then {BLOCK} else set slot | slot in slots :: ExitTag(slot)
  }

  /** VLESS traffic that the port restriction sends to the blackhole. */
  predicate Blocked(only443: bool, q: Request) {
    q.inbound == VLESS && only443 && q.port != 443
  }

  /** All proxied traffic, SOCKS on any port and VLESS where it is configured, goes where the routed slots say. */
  ghost predicate InStep(rules: seq<Rule>, n: nat, vless: bool, only443: bool) {
    forall q: Request | q.inbound == SOCKS || (q.inbound == VLESS && vless) ::
      Meaning(rules, n, q) == Some(if Blocked(only443, q) then {BLOCK} else Exits(RoutedSlots(rules, n)))
  }

  class Supervisor {
    const slotCount: nat
    const vless: bool
    const only443: bool
    var activeOutbounds: map<string, bool>
    var runtime: seq<Rule>

    /** Every remembered tag is the tag of a slot. */
    ghost predicate Valid()
      reads this
    {
      forall tag | tag in activeOutbounds :: tag == ExitTag(SlotOf(tag))
    }

    ghost function Memory(): set<nat>
      reads this
    {
      set tag | tag in activeOutbounds && activeOutbounds[tag] :: SlotOf(tag)
    }

    ghost function View(): T.Xray
      reads this
    {
      T.Xray(slotCount, Memory(), RoutedSlots(runtime, slotCount))
    }

    /** The runtime treats SOCKS and VLESS alike, but for blocked ports. */
    ghost predicate Even()
      reads this
    {
      InStep(runtime, slotCount, vless, only443)
    }

    lemma Remembered(slot: nat)
      requires Valid()
      ensures slot in Memory() <==> ExitTag(slot) in activeOutbounds && activeOutbounds[ExitTag(slot)]
    {
      SlotOfExitTag(slot);
    }

    /** A fresh supervisor, over a runtime started from its static configuration. */
    constructor (slotCount: nat, vless: bool, only443: bool)
      ensures Valid() && View() == T.Xray(slotCount, {}, {}) && Even()
      ensures this.slotCount == slotCount && this.vless == vless && this.only443 == only443
    {
      this.slotCount, this.vless, this.only443 := slotCount, vless, only443;
      activeOutbounds := map[];
      runtime := StaticRules(vless, only443, only443);
      new;
      for i := 0 to slotCount
        invariant Valid() && Memory() == {} && runtime == StaticRules(vless, only443, only443)
      {
        Remember(i, false);
      }
      StaticRoutesNothing(slotCount, vless, only443);
    }

    /** A crash: the process starts again from its static configuration. */
    method Relaunch()
      modifies this
      ensures View() == T.Step(old(View()), T.Crash) && activeOutbounds == old(activeOutbounds) && Even()
    {
      runtime := StaticRules(vless, only443, only443);
      StaticRoutesNothing(slotCount, vless, only443);
    }

    /** getActiveSlotsLocked. */
    method ActiveSlots() returns (active: seq<nat>)
      requires Valid()
      ensures ActiveSet(active, slotCount) && Set(active) == T.InRange(View(), Memory())
    {
      active := [];
      for i := 0 to slotCount
        invariant ActiveSet(active, i)
        invariant forall slot :: slot in active <==> slot < i && slot in Memory()
      {
        Remembered(i);
        if ExitTag(i) in activeOutbounds && activeOutbounds[ExitTag(i)] {
          active := active + [i];
        }
      }
    }

    /** The candidates that are in range, in order and without repetitions. */
    method InOrder(slots: seq<nat>) returns (sorted: seq<nat>)
      ensures ActiveSet(sorted, slotCount) && forall slot :: slot in sorted <==> slot in slots && slot < slotCount
    {
      sorted := [];
      for i := 0 to slotCount
        invariant ActiveSet(sorted, i)
        invariant forall slot :: slot in sorted <==> slot in slots && slot < i
      {
        if i in slots {
          sorted := sorted + [i];
        }
      }
    }

    method BuildRules(sorted: seq<nat>) returns (rules: seq<Rule>)
      ensures rules == CompileRules(sorted, vless, only443)
    {
      rules := [Rule("", API, false, Outbound(API))];
      if vless {
        rules := rules + [Rule(VLESS_RULE, VLESS, only443, ExpectedTarget(sorted))];
        if only443 {
          rules := rules + [Rule(VLESS_BLOCK_RULE, VLESS, false, Outbound(BLOCK))];
        }
      }
      rules := rules + [Rule(ACTIVE_RULE, SOCKS, false, ExpectedTarget(sorted))];
    }

    /**
     applyCandidateRoutingLocked: success means that the runtime now routes exactly the candidates in range, for SOCKS
     and for VLESS on the ports it may use.
     */
    method ApplyCandidate(candidates: seq<nat>, draining: Option<nat>, answer: Answer) returns (ok: bool)
      modifies this`runtime
      ensures ok ==> RoutedSlots(runtime, slotCount) == T.InRange(View(), Set(candidates)) && Even()
      ensures ok <==> Takes(answer, T.InRange(View(), Set(candidates)), slotCount)
                      && (draining.Some? ==> draining.value !in T.InRange(View(), Set(candidates)))
    {
      var sorted := InOrder(candidates);
      assert Set(sorted) == T.InRange(View(), Set(candidates));
      if !answer.accepted {
        runtime := answer.left;
        return false;
      }
      runtime := BuildRules(sorted);
      if !answer.readable {
        return false;
      }
      var selects := Reach(Balanced(BalancerTag(sorted)), AllBalancers(slotCount), slotCount);
      ok := VerifyRuntimeRouting(Report(runtime, answer.shown), selects, sorted, draining, vless);
      ReadBackAccepts(sorted, sorted, draining, vless, only443, answer.shown, slotCount);
      ConfusableSet(sorted, slotCount);
      if ok {
        CompiledRoutes(sorted, vless, only443, slotCount);
      }
    }

    /** Rules for the remembered slots are put back after a refused change. */
    method RollBack(remembered: seq<nat>, answer: Answer, ghost before: T.Xray) returns (ghost outcome: T.Outcome)
      requires Valid() && Set(remembered) == T.InRange(before, before.memory) &&
          View().(runtime := before.runtime) == before
      modifies this`runtime
      ensures !outcome.Applied? && View() == before.(runtime := T.Attempt(before, {}, outcome))
      ensures outcome.Restored? ==> Even()
      ensures outcome.Restored? <==> Takes(answer, T.InRange(before, before.memory), slotCount)
      ensures activeOutbounds == old(activeOutbounds)
    {
      assert T.InRange(before, Set(remembered)) == T.InRange(before, before.memory);
      var ok := ApplyCandidate(remembered, None, answer);
      outcome := if ok then T.Restored else T.Broken(RoutedSlots(runtime, slotCount));
    }

    method DrainingSlot(slot: nat, first: Answer, second: Answer) returns (ok: bool, ghost outcome: T.Outcome)
      requires Valid()
      modifies this
      ensures Valid() && T.DrainSlot(old(View()), slot, outcome) == T.Reply(View(), ok)
      ensures ok <==> slot !in old(Memory()) || Takes(first, T.InRange(old(View()), old(Memory())) - {slot}, slotCount)
      ensures !ok ==> (outcome.Restored? <==> Takes(second, T.InRange(old(View()), old(Memory())), slotCount))
      ensures old(Even()) && !outcome.Broken? ==> Even()
    {
      ghost var before := View();
      Remembered(slot);
      if ExitTag(slot) !in activeOutbounds || !activeOutbounds[ExitTag(slot)] {
        return true, T.Applied;
      }
      var active := ActiveSlots();
      var surviving := Without(active, slot);
      assert T.InRange(before, Set(surviving)) == T.InRange(before, before.memory) - {slot};
      ok := ApplyCandidate(surviving, Some(slot), first);
      if !ok {
        outcome := RollBack(active, second, before);
        return;
      }
      outcome := T.Applied;
      Remember(slot, false);
    }

    method ActivateSlot(slot: nat, first: Answer, second: Answer) returns (ok: bool, ghost outcome: T.Outcome)
      requires Valid()
      modifies this
      ensures Valid() && T.ActivateSlot(old(View()), slot, outcome) == T.Reply(View(), ok)
      ensures ok <==> slot in old(Memory()) || Takes(first, T.InRange(old(View()), old(Memory()) + {slot}), slotCount)
      ensures !ok ==> (outcome.Restored? <==> Takes(second, T.InRange(old(View()), old(Memory())), slotCount))
      ensures old(Even()) && !outcome.Broken? ==> Even()
    {
      ghost var before := View();
      Remembered(slot);
      if ExitTag(slot) in activeOutbounds && activeOutbounds[ExitTag(slot)] {
        return true, T.Applied;
      }
      var active := ActiveSlots();
      OneMoreCandidate(before, active, slot);
      ok := ApplyCandidate(active + [slot], None, first);
      if !ok {
        outcome := RollBack(active, second, before);
        return;
      }
      outcome := T.Applied;
      Remember(slot, true);
    }

    /** SyncActiveSlots: afterwards every tag in range says whether its slot was asked for. */
    method SyncActiveSlots(slots: seq<nat>, first: Answer, second: Answer) returns (ok: bool, ghost outcome: T.Outcome)
      requires Valid()
      modifies this
      ensures Valid() && T.SyncSlots(old(View()), Set(slots), outcome) == T.Reply(View(), ok)
      ensures ok <==> Takes(first, T.InRange(old(View()), Set(slots)), slotCount)
      ensures !ok ==> (outcome.Restored? <==> Takes(second, T.InRange(old(View()), old(Memory())), slotCount))
      ensures !outcome.Broken? ==> Even()
    {
      ghost var before := View();
      var active := ActiveSlots();
      ok := ApplyCandidate(slots, None, first);
      if !ok {
        outcome := RollBack(active, second, before);
        return;
      }
      outcome := T.Applied;
      CommitSlots(slots);
      SyncedMemory(before, Memory(), Set(slots));
    }

    method CommitSlots(slots: seq<nat>)
      requires Valid()
      modifies this`activeOutbounds
      ensures Valid() && forall slot :: slot in Memory() <==>
          if slot < slotCount then slot in slots else slot in old(Memory())
    {
      for i := 0 to slotCount
        invariant Valid()
        invariant forall slot :: slot in Memory() <==> if slot < i then slot in slots else slot in old(Memory())
      {
        Remember(i, i in slots);
      }
    }

    method Remember(slot: nat, active: bool)
      requires Valid()
      modifies this`activeOutbounds
      ensures Valid() && Memory() == if active then old(Memory()) + {slot} else old(Memory()) - {slot}
    {
      ghost var memory := Memory();
      forall k: nat ensures k in memory <==> ExitTag(k) in activeOutbounds && activeOutbounds[ExitTag(k)] {
        Remembered(k);
      }
      activeOutbounds := activeOutbounds[ExitTag(slot) := active];
      SlotOfExitTag(slot);
      forall k: nat ensures k in Memory() <==> if k == slot then active else k in memory {
        Remembered(k);
        ExitTagInjective(k, slot);
      }
    }
  }

  lemma OneMoreCandidate(x: T.Xray, active: seq<nat>, slot: nat)
    requires Set(active) == T.InRange(x, x.memory)
    ensures Set(active + [slot]) == T.InRange(x, x.memory) + {slot}
    ensures T.InRange(x, Set(active + [slot])) == T.InRange(x, x.memory + {slot})
  {
    forall k ensures k in Set(active + [slot]) <==> k in Set(active) || k == slot {}
  }

  lemma SyncedMemory(x: T.Xray, memory: set<nat>, slots: set<nat>)
    requires forall slot :: slot in memory <==> if slot < x.slotCount then slot in slots else slot in x.memory
    ensures memory == (set slot | slot in x.memory && slot >= x.slotCount) + T.InRange(x, slots)
  {
  }

  function Set(slots: seq<nat>): set<nat> {
    set slot | slot in slots
  }

  /** At least two slots, one of whose tags is the beginning of another configured slot's. */
  predicate Confusable(slots: set<nat>, n: nat) {
    |slots| >= 2 && exists i, j: nat | i in slots && j < n :: j !in slots && Itoa(i) <= Itoa(j)
  }

  lemma {:induction false} SetSize(slots: seq<nat>)
    requires Increasing(slots)
    ensures |Set(slots)| == |slots|
  {
    if slots != [] {
      var d := slots[..|slots| - 1];
      SetSize(d);
      assert Set(slots) == Set(d) + {slots[|slots| - 1]};
      assert slots[|slots| - 1] !in Set(d);
    }
  }

  lemma ConfusableSet(slots: seq<nat>, n: nat)
    requires ActiveSet(slots, n)
    ensures Confusable(Set(slots), n) <==> |slots| >= 2 && Overlaps(slots, n)
  {
    SetSize(slots);
    forall i ensures i in Set(slots) <==> i in slots {}
  }

  lemma CompiledRoutes(slots: seq<nat>, vless: bool, only443: bool, n: nat)
    requires ActiveSet(slots, n) && (|slots| < 2 || !Overlaps(slots, n))
    ensures RoutedSlots(CompileRules(slots, vless, only443), n) == Set(slots)
    ensures InStep(CompileRules(slots, vless, only443), n, vless, only443)
  {
    CompileKeepsMeaning(slots, vless, only443, n, Request(SOCKS, 0));
    IntendedExits(slots);
    forall q: Request | q.inbound == SOCKS || (q.inbound == VLESS && vless)
      ensures Meaning(CompileRules(slots, vless, only443), n, q) ==
        Some(if Blocked(only443, q) then {BLOCK} else Intended(slots))
    {
      CompileKeepsMeaning(slots, vless, only443, n, q);
    }
    hide Meaning, CompileRules;
    forall slot: nat ensures ExitTag(slot) in Intended(slots) <==> slot in slots {
      assert ExitTag(slot)[0] == 'e' && BLOCK[0] == 'b';
      ExitTagsMember(slots, slot);
    }
  }

  lemma IntendedExits(slots: seq<nat>)
    ensures Intended(slots) == Exits(Set(slots))
  {
    if slots != [] {
      assert slots[0] in Set(slots);
      forall tag | tag in ExitTags(slots) ensures tag in Exits(Set(slots)) {
        var k := TagAt(slots, tag);
        assert slots[k] in Set(slots);
      }
    }
  }

  function Without(slots: seq<nat>, slot: nat): (r: seq<nat>)
    ensures forall k :: k in r <==> k in slots && k != slot
  {
    if slots == [] then [] else (if slots[0] == slot then [] else [slots[0]]) + Without(slots[1..], slot)
  }

  lemma StaticRoutesNothing(n: nat, vless: bool, only443: bool)
    ensures RoutedSlots(StaticRules(vless, only443, only443), n) == {}
    ensures InStep(StaticRules(vless, only443, only443), n, vless, only443)
  {
    StaticRulesDenoteEmpty(vless, only443, only443);
    CompiledRoutes([], vless, only443, n);
  }
}
