/**
 The window between a switch's activation of its slot in Xray and its commit. A
 reconcile that synchronises in between sees the slot as the maps have it, and the
 maps do not have the candidate yet.
 */
module XrayWindow {
  import opened Wrappers
  import opened ControlPlane
  import opened Invariant
  import opened Effects
  import opened Theorems
  import opened Runs
  import opened Routes
  import opened XrayProjection
  import XrayTransaction

  predicate Remembers(s: State, q: nat) {
    s.world.xray.Some? && q in s.world.xray.value.memory
  }

  predicate Carries(s: State, q: nat) {
    s.world.xray.Some? && q in s.world.xray.value.runtime
  }

  /** A synchronisation that the runtime takes. */
  predicate Syncs(step: Step) {
    step.Synchronise? && step.outcome.Applied?
  }

  /** Activated, and neither committed nor undone in Xray. */
  predicate Awaiting(w: Switch) {
    w.phase.Cutover? || w.phase.Committing? || w.phase.UndoRoute?
  }

  /** A supervisor that covers all slots of the scheduler. */
  predicate Attached(s: State) {
    s.world.xray.Some? && s.maxActive <= s.world.xray.value.slotCount
  }

  // ---- One transaction, one step ----

  /** Transactions on other slots, and crashes, leave what is remembered of slot q alone. */
  predicate Elsewhere(e: XrayTransaction.Event, q: nat) {
    match e
    case Activate(p, _) => p != q
    case Drain(p, _) => p != q
    case Sync(_, outcome) => !outcome.Applied?
    case Crash => true
  }

  lemma ElsewhereForgetsNothing(x: XrayTransaction.Xray, e: XrayTransaction.Event, q: nat)
    requires Elsewhere(e, q)
    ensures q in XrayTransaction.Step(x, e).memory <==> q in x.memory
    ensures XrayTransaction.Step(x, e).slotCount == x.slotCount
  {
  }

  lemma {:induction false} RunElsewhere(x: XrayTransaction.Xray, es: seq<XrayTransaction.Event>, q: nat)
    requires forall k | 0 <= k < |es| :: Elsewhere(es[k], q)
    ensures q in XrayTransaction.Run(x, es).memory <==> q in x.memory
    ensures XrayTransaction.Run(x, es).slotCount == x.slotCount
  {
    if es != [] {
      RunElsewhere(x, es[..|es| - 1], q);
      ElsewhereForgetsNothing(XrayTransaction.Run(x, es[..|es| - 1]), es[|es| - 1], q);
    }
  }

  /** What a step does while the switch waits concerns other slots in Xray, a synchronisation apart. */
  lemma EventsElsewhere(s: State, step: Step, id: string)
    requires Inv(s) && Enabled(s, step) && id in s.switches && Awaiting(s.switches[id]) && !Syncs(step)
    requires ByOthers(step, id) || s.switches[id].phase.Cutover?
    ensures forall e | e in XrayEvents(s, step) :: Elsewhere(e, s.switches[id].slot)
  {
    FitsKnown(s, id);
    if step.Switching? && step.id != id {
      OneOwner(s, id, step.id);
    }
    hide Inv, Live, LiveSlots;
  }

  lemma SlotUnlive(s: State, q: nat)
    requires Inv(s)
    ensures q in LiveSlots(s) <==> Live(s, q)
  {
  }

  /** Only a synchronisation changes whether the slot is remembered; then its present tunnel decides. */
  lemma StepMemory(s: State, step: Step, id: string)
    requires Inv(s) && Enabled(s, step) && id in s.switches && Awaiting(s.switches[id]) && Attached(s)
    requires ByOthers(step, id) || s.switches[id].phase.Cutover?
    ensures var s' := Apply(s, step); var q := s.switches[id].slot;
      && Attached(s') && s'.maxActive == s.maxActive
      && (Remembers(s', q) <==> if Syncs(step) then Live(s, q) else Remembers(s, q))
  {
    hide Inv, Apply, XrayEvents, LiveSlots, Live, XrayTransaction.Run, XrayTransaction.Step;
    var q := s.switches[id].slot;
    StepProjects(s, step);
    BoundsKept(s, step);
    OwnerSlotInRange(s, id);
    if Syncs(step) {
      SyncEvents(s, step);
      RunOne(s.world.xray.value, XrayTransaction.Sync(LiveSlots(s), step.outcome));
      SyncMemory(s.world.xray.value, LiveSlots(s), q);
      SlotUnlive(s, q);
    } else {
      EventsElsewhere(s, step, id);
      RunElsewhere(s.world.xray.value, XrayEvents(s, step), q);
    }
  }

  lemma SyncEvents(s: State, step: Step)
    requires Syncs(step)
    ensures XrayEvents(s, step) == [XrayTransaction.Sync(LiveSlots(s), step.outcome)]
  {
    hide LiveSlots;
  }

  lemma SyncMemory(x: XrayTransaction.Xray, slots: set<nat>, q: nat)
    requires q < x.slotCount
    ensures var x' := XrayTransaction.Step(x, XrayTransaction.Sync(slots, XrayTransaction.Applied));
      (q in x'.memory <==> q in slots) && x'.slotCount == x.slotCount
  {
  }

  // ---- The window ----

  /** Foreign steps, and the cutover of the switch itself. */
  ghost predicate InWindow(s: State, steps: seq<Step>, id: string, n: nat)
    requires n <= |steps|
  {
    forall k: nat | k < n :: ByOthers(steps[k], id) || CutsOver(Before(s, steps, k), id)
  }

  predicate CutsOver(s: State, id: string) {
    id in s.switches && s.switches[id].phase.Cutover?
  }

  /** Remembered at first, or as the last applied synchronisation has found the slot. */
  ghost predicate KeptBySyncs(s: State, steps: seq<Step>, q: nat, n: nat)
    requires n <= |steps|
  {
    if n == 0 then Remembers(s, q)
    else if Syncs(steps[n - 1]) then Live(Before(s, steps, n - 1), q)
    else KeptBySyncs(s, steps, q, n - 1)
  }

  ghost predicate SyncFell(steps: seq<Step>, n: nat)
    requires n <= |steps|
  {
    exists k: nat :: k < n && Syncs(steps[k])
  }

  lemma StepSlot(s: State, step: Step, id: string)
    requires Inv(s) && Enabled(s, step) && id in s.switches && Awaiting(s.switches[id]) && s.maxActive <= 100
    requires ByOthers(step, id) || s.switches[id].phase.Cutover?
    ensures var s' := Apply(s, step); var q := s.switches[id].slot;
      && id in s'.switches && s'.switches[id].slot == q && Awaiting(s'.switches[id])
      && s'.switches[id].candidate == s.switches[id].candidate && Get(s'.active, q) == Get(s.active, q)
  {
    hide Inv, Apply, ClosesEmptySlot, Advance, CleanupSlot;
    var q := s.switches[id].slot;
    if !ByOthers(step, id) {
      SwitchingIsAdvance(s, step);
      AdvanceReach(s, id, step.input);
      hide CutOver;
      CutOverRecord(s, id, step.input);
    } else {
      RecordKept(s, step, id);
      if ClosesEmptySlot(s, step, q) {
        CleanupKeepsActive(s, step, q);
      } else {
        OthersKeepSlot(s, step, id);
      }
    }
  }

  lemma CleanupKeepsActive(s: State, step: Step, q: nat)
    requires Inv(s) && Enabled(s, step) && ClosesEmptySlot(s, step, q)
    ensures Apply(s, step).active == s.active
  {
    hide Inv, CleanupSlot;
    CleanupKnown(s, q);
    CleanupReach(s, q, step.cleanup);
  }

  lemma {:induction false} WindowMemory(s: State, steps: seq<Step>, id: string, n: nat)
    requires Inv(s) && id in s.switches && Awaiting(s.switches[id]) && Attached(s) && s.maxActive <= 100
    requires n <= |steps| && InWindow(s, steps, id, n)
    ensures var m := Before(s, steps, n); var q := s.switches[id].slot;
      && id in m.switches && m.switches[id].slot == q && Awaiting(m.switches[id]) && Attached(m)
      && m.maxActive == s.maxActive && m.switches[id].candidate == s.switches[id].candidate
      && Get(m.active, q) == Get(s.active, q)
      && (Remembers(m, q) <==> KeptBySyncs(s, steps, q, n))
  {
    hide Inv, Run, Apply, Enabled, Live, Awaiting, Attached, Remembers;
    if n == 0 {
      RunNothing(s, steps);
    } else {
      WindowMemory(s, steps, id, n - 1);
      BeforeInv(s, steps, n - 1);
      BeforeNext(s, steps, n - 1);
      var b := Before(s, steps, n - 1);
      SyncEnabled(b, steps[n - 1]);
      if Enabled(b, steps[n - 1]) {
        StepSlot(b, steps[n - 1], id);
        StepMemory(b, steps[n - 1], id);
      }
    }
  }

  lemma SyncEnabled(s: State, step: Step)
    ensures Syncs(step) ==> Enabled(s, step)
  {
  }

  /** On an empty slot there is nothing for a synchronisation to keep. */
  lemma {:induction false} EmptyIsDropped(s: State, steps: seq<Step>, id: string, n: nat)
    requires Inv(s) && id in s.switches && Awaiting(s.switches[id]) && Attached(s) && s.maxActive <= 100
    requires n <= |steps| && InWindow(s, steps, id, n)
    requires Remembers(s, s.switches[id].slot) && s.switches[id].slot !in s.active
    ensures KeptBySyncs(s, steps, s.switches[id].slot, n) <==> !SyncFell(steps, n)
  {
    hide Inv, Run, Remembers, InWindow, Awaiting, Attached;
    if n > 0 {
      assert InWindow(s, steps, id, n - 1) by { Shorter(s, steps, id, n); }
      EmptyIsDropped(s, steps, id, n - 1);
      WindowMemory(s, steps, id, n - 1);
      if SyncFell(steps, n - 1) {
        var k: nat :| k < n - 1 && Syncs(steps[k]);
        assert k < n;
      }
      if Syncs(steps[n - 1]) { assert SyncFell(steps, n); }
    }
  }

  lemma Shorter(s: State, steps: seq<Step>, id: string, n: nat)
    requires 0 < n <= |steps| && InWindow(s, steps, id, n)
    ensures InWindow(s, steps, id, n - 1)
  {
  }

  // ---- The commit at its end ----

  /** An activation that reports success leaves the slot remembered. */
  lemma ActivatedIsRemembered(s: State, id: string, e: SwitchInput)
    requires Steerable(s, id) && s.switches[id].phase.XrayOn? && s.world.xray.Some?
    requires Advance(s, id, e).switches[id].phase.Cutover?
    ensures Remembers(Advance(s, id, e), s.switches[id].slot)
  {
    hide Routed, CandidateDiverse, Preempted, Commit;
  }

  lemma CommitKeepsXray(s: State, id: string, e: SwitchInput)
    requires Inv(s) && Steerable(s, id) && s.switches[id].phase.Committing?
    ensures Advance(s, id, e).world.xray == s.world.xray
  {
    hide Inv, Advance, After;
    AdvanceProjects(s, id, e);
    NoEvents(s.world.xray);
  }

  /**
   A switch that has activated its slot in Xray commits after any number of foreign steps. Its candidate then holds the
   slot; whether Xray still knows the slot is as the last synchronisation has found it.
   */
  lemma CommitAfterSyncs(s: State, steps: seq<Step>, id: string, e: SwitchInput)
    requires Inv(s) && id in s.switches && Awaiting(s.switches[id]) && Attached(s) && s.maxActive <= 100
    requires InWindow(s, steps, id, |steps|)
    requires var m := Before(s, steps, |steps|);
      && Steerable(m, id) && m.switches[id].phase.Committing?
      && id in Advance(m, id, e).switches && Advance(m, id, e).switches[id].verdict.Succeeded?
    ensures var q := s.switches[id].slot; var s' := Advance(Before(s, steps, |steps|), id, e);
      && Get(s'.active, q) == s.switches[id].candidate
      && (Remembers(s', q) <==> KeptBySyncs(s, steps, q, |steps|))
  {
    hide Inv, Run, Advance, InWindow, KeptBySyncs, Commit, Awaiting, Attached;
    WindowMemory(s, steps, id, |steps|);
    var m := Before(s, steps, |steps|);
    BeforeInv(s, steps, |steps|);
    AdvanceIsCommit(m, id, e);
    CommitTakesOverOrNot(m, id, e);
    CommitKeepsXray(m, id, e);
  }

  /**
   Onto an empty slot: the committed slot is remembered by Xray if and only if no applied synchronisation fell into the
   window. If one did, the slot is active and the supervisor has forgotten it; where the runtime routes only remembered
   slots, it does not route it, until the next synchronisation.
   */
  lemma EmptySlotForgotten(s: State, steps: seq<Step>, id: string, e: SwitchInput)
    requires Inv(s) && id in s.switches && Awaiting(s.switches[id]) && Attached(s) && s.maxActive <= 100
    requires Remembers(s, s.switches[id].slot) && s.switches[id].slot !in s.active
    requires InWindow(s, steps, id, |steps|)
    requires var m := Before(s, steps, |steps|);
      && Steerable(m, id) && m.switches[id].phase.Committing?
      && id in Advance(m, id, e).switches && Advance(m, id, e).switches[id].verdict.Succeeded?
    ensures var q := s.switches[id].slot; var s' := Advance(Before(s, steps, |steps|), id, e);
      && Get(s'.active, q) == s.switches[id].candidate
      && (Remembers(s', q) <==> !SyncFell(steps, |steps|))
      && (SyncFell(steps, |steps|) && s'.world.xray.Some? && XrayTransaction.Contained(s'.world.xray.value) ==>
            !Carries(s', q))
  {
    hide Inv, Run, Advance, InWindow, KeptBySyncs, Awaiting, Attached;
    CommitAfterSyncs(s, steps, id, e);
    EmptyIsDropped(s, steps, id, |steps|);
  }
}
