/**
 Whole runs of the control plane: a manual switch is all or nothing however its
 steps interleave with everybody else's, it always comes to an end, and at its end
 the slot is free again.
 */
module Runs {
  import opened Wrappers
  import opened ControlPlane
  import opened Invariant
  import opened Effects
  import opened Theorems
  import Leases
  import XrayTransaction

  // ---- One step, seen from a slot or a switch it does not concern ----

  ghost predicate Concerns(s: State, step: Step, q: nat) {
    match step
    case HealthCheck(p, _, _) => p == q
    case Fill(p, _) => p == q
    case Cleanup(_, _) => ClosesEmptySlot(s, step, q)
    case Request(_, p, _, _) => p == q && q !in s.override
    case Switching(id, _) => OwnedBy(s, id, q)
    case TunnelFails(_) | TunnelExits(_) | XrayCrashes | Synchronise(_)
       | StartStandby(_, _, _) | DropStandby(_) | CommitStandby(_, _) => false
  }

  /** The switches on slot q are as before. */
  ghost predicate OwnersKept(s: State, s': State, q: nat) {
    forall id :: (OwnedBy(s', id, q) <==> OwnedBy(s, id, q)) &&
        (OwnedBy(s, id, q) ==> s'.switches[id] == s.switches[id])
  }

  lemma SwitchesSame(s: State, s': State, q: nat)
    requires s'.switches == s.switches
    ensures OwnersKept(s, s', q)
  {
  }

  lemma SwitchOfAnotherSlot(s: State, s': State, id: string, q: nat)
    requires id in s'.switches && s'.switches == s.switches[id := s'.switches[id]]
    requires s'.switches[id].slot != q && (id in s.switches ==> s.switches[id].slot != q)
    ensures OwnersKept(s, s', q)
  {
  }

  /** Maps, controllers, overrides, switches and tables are as before. */
  ghost predicate Calm(s: State, s': State) {
    && s'.switches == s.switches && s'.world.tables == s.world.tables
    && s'.active == s.active && s'.draining == s.draining && s'.override == s.override &&
        s'.controllers == s.controllers
  }

  lemma TunnelEventEffect(s: State, t: TunnelId)
    requires t in s.tunnels
    ensures Calm(s, Apply(s, TunnelFails(t))) && Calm(s, Apply(s, TunnelExits(t)))
  {
  }

  lemma XrayEventEffect(s: State, step: Step)
    requires step.XrayCrashes? || step.Synchronise?
    ensures Calm(s, Apply(s, step))
  {
    var s' := Apply(s, step);
    assert s' == s.(world := s'.world) && s'.world == s.world.(xray := s'.world.xray) by {
      hide LiveSlots, XrayTransaction.SyncSlots;
    }
    hide Apply;
  }

  lemma QuietElsewhere(s: State, step: Step, q: nat)
    requires Enabled(s, step) && (step.TunnelFails? || step.TunnelExits? || step.XrayCrashes? || step.Synchronise?)
    ensures var s' := Apply(s, step);
      s'.switches == s.switches && SlotKept(s, s', q) && s'.world.tables == s.world.tables
  {
    match step {
      case TunnelFails(t) => TunnelEventEffect(s, t);
      case TunnelExits(t) => TunnelEventEffect(s, t);
      case XrayCrashes => XrayEventEffect(s, step);
      case Synchronise(_) => XrayEventEffect(s, step);
    }
    hide Apply;
    SameMapsKeepSlot(s, Apply(s, step), q);
  }

  lemma SameMapsKeepSlot(s: State, s': State, q: nat)
    requires s'.active == s.active && s'.draining == s.draining && s'.override == s.override &&
        s'.controllers == s.controllers
    ensures SlotKept(s, s', q)
  {
  }

  lemma RequestConfined(s: State, step: Step, q: nat)
    requires Enabled(s, step) && step.Request? && !Concerns(s, step, q)
    ensures var s' := Apply(s, step); OwnersKept(s, s', q) && SlotKept(s, s', q) && s'.world == s.world
  {
    hide Reserve, SlotKept, OwnersKept;
    RequestElsewhere(s, step.id, step.slot, step.target, step.eligible, q);
    var s' := Apply(s, step);
    if s' == s {
      SwitchesSame(s, s', q);
    } else {
      SwitchOfAnotherSlot(s, s', step.id, q);
    }
  }

  lemma SwitchConfined(s: State, id: string, e: SwitchInput, q: nat)
    requires Inv(s) && Steerable(s, id) && !OwnedBy(s, id, q) && q < s.maxActive <= 100
    ensures var s' := Advance(s, id, e);
      OwnersKept(s, s', q) && SlotKept(s, s', q) &&
          TableOf(s'.world, BASE_TABLE + q) == TableOf(s.world, BASE_TABLE + q)
  {
    hide Advance, Inv, SlotKept, OwnersKept, TableOf;
    if s.switches[id].phase.Finished? {
      AdvanceFinished(s, id, e);
      KeptAsIs(s, q);
      SwitchesSame(s, s, q);
    } else {
      AdvanceElsewhere(s, id, e, q);
      AdvanceRecord(s, id, e);
      SwitchOfAnotherSlot(s, Advance(s, id, e), id, q);
    }
  }

  /** A switch writes no record but its own, and stays on its slot. */
  lemma AdvanceRecord(s: State, id: string, e: SwitchInput)
    requires Inv(s) && Steerable(s, id)
    ensures var s' := Advance(s, id, e);
      id in s'.switches && s'.switches == s.switches[id := s'.switches[id]] &&
          s'.switches[id].slot == s.switches[id].slot
  {
    hide Advance, Inv, Commit;
    if s.switches[id].phase.Committing? {
      AdvanceIsCommit(s, id, e);
      CommitElsewhere(s, id, e, s.switches[id].slot + 1);
    } else {
      AdvanceReach(s, id, e);
    }
  }

  /**
   A step that does not concern slot q leaves its tunnel, its override, its lease, its switches and its table
   alone.
   */
  lemma StepElsewhere(s: State, step: Step, q: nat)
    requires Inv(s) && Enabled(s, step) && !Concerns(s, step, q) && q < s.maxActive <= 100
    ensures var s' := Apply(s, step);
      OwnersKept(s, s', q) && SlotKept(s, s', q) &&
          TableOf(s'.world, BASE_TABLE + q) == TableOf(s.world, BASE_TABLE + q)
  {
    var s' := Apply(s, step);
    hide Apply, Inv, SlotKept, OwnersKept;
    if s'.switches == s.switches {
      SwitchesSame(s, s', q);
    }
    match step
    case TunnelFails(_) => QuietElsewhere(s, step, q);
    case TunnelExits(_) => QuietElsewhere(s, step, q);
    case XrayCrashes => QuietElsewhere(s, step, q);
    case Synchronise(_) => QuietElsewhere(s, step, q);
    case HealthCheck(p, healthy, e) => HealthCheckElsewhere(s, p, healthy, e, q);
    case Fill(p, e) => FillElsewhere(s, p, e, q);
    case Cleanup(p, e) => CleanupAnywhere(s, p, e, q);
    case StartStandby(_, _, _) => StandbyElsewhere(s, step, q);
    case DropStandby(_) => StandbyElsewhere(s, step, q);
    case CommitStandby(_, _) => StandbyElsewhere(s, step, q);
    case Request(_, _, _, _) => RequestConfined(s, step, q);
    case Switching(id, e) => SwitchingIsAdvance(s, step); SwitchConfined(s, id, e, q);
  }

  lemma SwitchingIsAdvance(s: State, step: Step)
    requires Enabled(s, step) && step.Switching?
    ensures Apply(s, step) == Advance(s, step.id, step.input)
  {
    hide Advance;
  }

  /**
   While a switch is under way, whatever the others do keeps the tunnel, the override
   and the lease of its slot; its table too, unless the slot is empty and the drain of
   its last tunnel times out.
   */
  lemma OthersKeepSlot(s: State, step: Step, id: string)
    requires Inv(s) && Enabled(s, step) && ByOthers(step, id) && id in s.switches && Unfinished(s.switches[id])
    requires s.maxActive <= 100 && !ClosesEmptySlot(s, step, s.switches[id].slot)
    ensures var s' := Apply(s, step); var q := s.switches[id].slot;
      && id in s'.switches && s'.switches[id] == s.switches[id] && SlotKept(s, s', q)
      && TableOf(s'.world, BASE_TABLE + q) == TableOf(s.world, BASE_TABLE + q)
  {
    hide Apply, Inv, Concerns, ClosesEmptySlot, SlotKept;
    FitsKnown(s, id);
    assert OwnedBy(s, id, s.switches[id].slot);
    OthersUnconcerned(s, step, id);
    InRangeSlot(s, s.switches[id].slot);
    StepElsewhere(s, step, s.switches[id].slot);
  }

  lemma OthersUnconcerned(s: State, step: Step, id: string)
    requires Inv(s) && Enabled(s, step) && ByOthers(step, id) && id in s.switches && Unfinished(s.switches[id])
    requires !ClosesEmptySlot(s, step, s.switches[id].slot)
    ensures !Concerns(s, step, s.switches[id].slot)
  {
    FitsKnown(s, id);
    if step.Switching? {
      OneOwner(s, id, step.id);
    }
    hide Inv, ClosesEmptySlot, SwitchFits;
  }

  /** Unfinished switches are on different slots. */
  lemma OneOwner(s: State, i: string, j: string)
    requires Inv(s) && i in s.switches && Unfinished(s.switches[i]) && i != j
    ensures !OwnedBy(s, j, s.switches[i].slot)
  {
  }

  lemma InRangeSlot(s: State, q: nat)
    requires Inv(s) && q in s.override
    ensures q < s.maxActive
  {
  }

  /** Records of other switches, finished or not, are never written. */
  lemma RecordKept(s: State, step: Step, id: string)
    requires Inv(s) && Enabled(s, step) && ByOthers(step, id) && id in s.switches
    ensures id in Apply(s, step).switches && Apply(s, step).switches[id] == s.switches[id]
  {
    hide Inv, Advance, TransitionToDraining, Promote, CleanupSlot, Reserve, FireWorker, Enqueue, HireWorker;
    match step
    case HealthCheck(p, _, e) => HealthCheckKeepsSwitches(s, p, e);
    case Fill(p, e) => FillKeepsSwitches(s, p, e);
    case Cleanup(p, e) => CleanupKnown(s, p); CleanupReach(s, p, e);
    case StartStandby(_, _, _) => StandbyKeepsSwitches(s, step);
    case DropStandby(_) => StandbyKeepsSwitches(s, step);
    case CommitStandby(_, _) => StandbyKeepsSwitches(s, step);
    case Request(other, p, target, eligible) => RequestElsewhere(s, other, p, target, eligible, p + 1);
    case Switching(other, e) => AdvanceRecord(s, other, e);
    case TunnelFails(_) =>
    case TunnelExits(_) =>
    case XrayCrashes =>
    case Synchronise(_) =>
  }

  lemma HealthCheckKeepsSwitches(s: State, p: nat, e: DrainInput)
    requires Inv(s) && p in s.active && s.active[p] in s.tunnels && (p in s.draining ==> s.draining[p] in s.tunnels)
    ensures TransitionToDraining(s, p, s.active[p], e).switches == s.switches
  {
    hide Inv, TransitionToDraining;
    assert p in s.draining ==> s.draining[p] != s.active[p] by { DrainingApart(s, p); }
    DrainReach(s, p, s.active[p], e);
  }

  lemma DrainingApart(s: State, p: nat)
    requires Inv(s) && p in s.active
    ensures p in s.draining ==> s.draining[p] != s.active[p]
  {
    ActiveKnown(s, p);
    if p in s.draining {
      DrainingKnown(s, p);
    }
  }

  lemma FillKeepsSwitches(s: State, p: nat, e: PromoteInput)
    requires Inv(s) && |s.standby| > 0 && p !in s.active && s.standby[0] in s.tunnels
    ensures Promote(s, p, e).switches == s.switches
  {
    StandbyKnown(s, 0);
    hide Inv, Promote;
    PromoteReach(s, p, e);
  }

  lemma StandbyKeepsSwitches(s: State, step: Step)
    requires Inv(s) && Enabled(s, step) && (step.StartStandby? || step.DropStandby? || step.CommitStandby?)
    ensures Apply(s, step).switches == s.switches
  {
    hide Apply;
    StandbyReach(s, step);
  }

  // ---- All or nothing, over a whole run ----

  lemma RunNone(s: State)
    ensures Run(s, []) == s
  {
  }

  lemma RunOneMore(s: State, steps: seq<Step>, step: Step)
    ensures Run(s, steps + [step]) == Next(Run(s, steps), step)
  {
    hide Next;
    assert (steps + [step])[..|steps|] == steps;
  }

  lemma {:induction false} RunConcat(s: State, a: seq<Step>, b: seq<Step>)
    ensures Run(s, a + b) == Run(Run(s, a), b)
    decreases |b|
  {
    hide Next;
    if b == [] {
      assert a + b == a;
    } else {
      var b' := b[..|b| - 1];
      assert (a + b)[..|a + b| - 1] == a + b';
      RunConcat(s, a, b');
    }
  }

  /** The state before step k of the run. */
  function Before(s: State, steps: seq<Step>, k: nat): State
    requires k <= |steps|
  {
    Run(s, steps[..k])
  }

  lemma BeforeNext(s: State, steps: seq<Step>, k: nat)
    requires k < |steps|
    ensures Before(s, steps, k + 1) == Next(Before(s, steps, k), steps[k])
  {
    assert steps[..k + 1][..k] == steps[..k];
  }

  lemma BeforeInv(s: State, steps: seq<Step>, k: nat)
    requires Inv(s) && k <= |steps|
    ensures Inv(Before(s, steps, k))
  {
    RunInv(s, steps[..k]);
  }

  predicate Own(step: Step, id: string) {
    (step.Switching? || step.Request?) && step.id == id
  }

  ghost predicate KeepsMapsAt(s: State, steps: seq<Step>, id: string, k: nat)
    requires k < |steps|
  {
    Own(steps[k], id) ==> MapsKept(Before(s, steps, k), Before(s, steps, k + 1))
  }

  ghost predicate TakesOverAt(s: State, steps: seq<Step>, id: string, k: nat) {
    k < |steps| && Own(steps[k], id) && TookOver(Before(s, steps, k), Before(s, steps, k + 1), id)
  }

  /** Among the first n steps, those of the switch keep the maps, but for the takeover that its success stands for. */
  ghost predicate AllOrNothingSoFar(s: State, steps: seq<Step>, id: string, n: nat)
    requires n <= |steps|
  {
    var e := Before(s, steps, n);
    if id in e.switches && e.switches[id].verdict.Succeeded?
    then exists t: nat :: t < n && TakesOverAt(s, steps, id, t) && forall k: nat | k < n && k != t ::
        KeepsMapsAt(s, steps, id, k)
    else forall k: nat | k < n :: KeepsMapsAt(s, steps, id, k)
  }

  /** One step of the run, as far as switch `id` is concerned. */
  ghost predicate Progressed(s: State, s': State, step: Step, id: string) {
    && (id in s.switches ==> id in s'.switches)
    && (id in s.switches && !s.switches[id].verdict.Pending? ==> s'.switches[id].verdict == s.switches[id].verdict)
    && (Accomplishes(s, s', id) ==> Own(step, id) && TookOver(s, s', id))
    && (!Accomplishes(s, s', id) && Own(step, id) ==> MapsKept(s, s'))
  }

  ghost predicate Accomplishes(s: State, s': State, id: string) {
    && id in s'.switches && s'.switches[id].verdict.Succeeded?
    && (id in s.switches ==> s.switches[id].verdict.Pending?)
  }

  lemma RequestProgress(s: State, step: Step, id: string)
    requires Enabled(s, step) && step.Request? && step.id == id
    ensures var s' := Apply(s, step); MapsKept(s, s') && (id in s'.switches ==> s'.switches[id].verdict.Pending?)
  {
    hide Diverse;
  }

  lemma NewSwitchIsRequested(s: State, step: Step, id: string)
    requires Inv(s) && Enabled(s, step) && id !in s.switches && !Own(step, id)
    ensures id !in Apply(s, step).switches
  {
    hide Inv, Advance, TransitionToDraining, Promote, CleanupSlot, Reserve, FireWorker, Enqueue, HireWorker;
    match step
    case HealthCheck(p, _, e) => HealthCheckKeepsSwitches(s, p, e);
    case Fill(p, e) => FillKeepsSwitches(s, p, e);
    case Cleanup(p, e) => CleanupKnown(s, p); CleanupReach(s, p, e);
    case StartStandby(_, _, _) => StandbyKeepsSwitches(s, step);
    case DropStandby(_) => StandbyKeepsSwitches(s, step);
    case CommitStandby(_, _) => StandbyKeepsSwitches(s, step);
    case Request(other, p, target, eligible) => RequestElsewhere(s, other, p, target, eligible, p + 1);
    case Switching(other, e) => AdvanceRecord(s, other, e);
    case TunnelFails(_) =>
    case TunnelExits(_) =>
    case XrayCrashes =>
    case Synchronise(_) =>
  }

  lemma StepProgress(s: State, step: Step, id: string)
    requires Inv(s)
    ensures Progressed(s, Next(s, step), step, id)
  {
    if Enabled(s, step) {
      if step.Switching? && step.id == id {
        SwitchingIsAdvance(s, step);
        SwitchStep(s, id, step.input);
        hide Apply, Advance, Inv, TookOver;
      } else if Own(step, id) {
        RequestProgress(s, step, id);
        hide Apply, Inv, TookOver;
      } else {
        if id in s.switches { RecordKept(s, step, id); } else { NewSwitchIsRequested(s, step, id); }
        hide Apply, Inv, TookOver;
      }
    }
  }

  /**
   In every run, whatever the other actors do in between: if the switch ends Succeeded, exactly one of its steps
   is a takeover and the others leave the active and draining maps as they find them; otherwise all of them do.
   */
  lemma {:induction false} SwitchIsAllOrNothing(s: State, steps: seq<Step>, id: string, n: nat)
    requires Inv(s) && n <= |steps| && (id in s.switches ==> s.switches[id].verdict.Pending?)
    ensures AllOrNothingSoFar(s, steps, id, n)
  {
    hide Inv, Next, TookOver, Run;
    if n == 0 {
      assert Before(s, steps, 0) == s by { RunNothing(s, steps); }
    } else {
      SwitchIsAllOrNothing(s, steps, id, n - 1);
      BeforeInv(s, steps, n - 1);
      BeforeNext(s, steps, n - 1);
      StepProgress(Before(s, steps, n - 1), steps[n - 1], id);
      if Accomplishes(Before(s, steps, n - 1), Before(s, steps, n), id) {
        assert TakesOverAt(s, steps, id, n - 1);
      }
    }
  }

  lemma RunNothing(s: State, steps: seq<Step>)
    ensures Before(s, steps, 0) == s
  {
    assert steps[..0] == [];
  }

  /** A verdict, once given, stands. */
  lemma {:induction false} VerdictIsFinal(s: State, steps: seq<Step>, id: string, j: nat, k: nat)
    requires Inv(s) && j <= k <= |steps|
    requires id in Before(s, steps, j).switches && !Before(s, steps, j).switches[id].verdict.Pending?
    ensures id in Before(s, steps, k).switches
    ensures Before(s, steps, k).switches[id].verdict == Before(s, steps, j).switches[id].verdict
    decreases k
  {
    hide Inv, Next, Run;
    if j < k {
      VerdictIsFinal(s, steps, id, j, k - 1);
      BeforeInv(s, steps, k - 1);
      BeforeNext(s, steps, k - 1);
      StepProgress(Before(s, steps, k - 1), steps[k - 1], id);
    }
  }

  // ---- Every switch comes to an end, and releases what it holds ----

  function Rank(w: Switch): nat {
    PhaseRank(w.phase)
  }

  function PhaseRank(p: Phase): nat {
    match p
    case Admission => 16
    case Preflight => 15
    case FirstLeaseCheck => 14
    case Starting => 13
    case CandidateRouting => 12
    case Verifying => 11
    case DiversityCheck => 10
    case SecondLeaseCheck => 9
    case XrayOn => 8
    case Cutover => 7
    case Committing => 6
    case UndoRoute => 5
    case UndoXray => 4
    case StopCandidate => 3
    case Publishing => 3
    case ReleasingLease => 2
    case ReleasingOverride => 1
    case Finished => 0
  }

  /** The slot's table has been handed to the candidate without the slot, or has not been put back yet. */
  ghost predicate Detour(w: Switch) {
    w.phase.Committing? || w.phase.UndoRoute?
  }

  /** The control flow of executeManualSwitch: what may follow each region or command. */
  predicate Successor(p: Phase, n: Phase) {
    match p
    case Admission => n.Preflight? || n.ReleasingLease?
    case Preflight => n.FirstLeaseCheck? || n.ReleasingLease?
    case FirstLeaseCheck => n.Starting? || n.ReleasingLease?
    case Starting => n.CandidateRouting? || n.ReleasingLease?
    case CandidateRouting => n.Verifying? || n.StopCandidate?
    case Verifying => n.DiversityCheck? || n.StopCandidate?
    case DiversityCheck => n.SecondLeaseCheck? || n.StopCandidate?
    case SecondLeaseCheck => n.XrayOn? || n.StopCandidate?
    case XrayOn => n.Cutover? || n.StopCandidate?
    case Cutover => n.Committing? || n.UndoRoute?
    case Committing => n.Publishing? || n.UndoRoute? || n.StopCandidate?
    case UndoRoute => n.UndoXray? || n.StopCandidate?
    case UndoXray => n.StopCandidate?
    case StopCandidate => n.ReleasingLease?
    case Publishing => n.ReleasingLease?
    case ReleasingLease => n.ReleasingOverride?
    case ReleasingOverride => n.Finished?
    case Finished => false
  }

  /** The switch gets closer to its end; the record of its cutover, and of what it found on the slot, stays. */
  ghost predicate Descends(s: State, s': State, id: string) {
    && id in s.switches && id in s'.switches
    && var w, w' := s.switches[id], s'.switches[id];
       && Rank(w') < Rank(w) && Successor(w.phase, w'.phase)
       && (if w.phase.Cutover? then w'.cut else w'.cut == w.cut)
       && (Rank(w) <= 7 ==> w'.current == w.current)
       && (Detour(w') ==> w.phase.Cutover? || w.phase.Committing?)
  }

  lemma GotoDescends(s: State, id: string, phase: Phase)
    requires id in s.switches && Successor(s.switches[id].phase, phase)
    requires !s.switches[id].phase.Cutover? && !Detour(s.switches[id].(phase := phase))
    ensures Descends(s, Goto(s, id, phase), id)
  {
  }

  lemma RejectDescends(s: State, id: string)
    requires id in s.switches && Successor(s.switches[id].phase, ReleasingLease)
    ensures Descends(s, Reject(s, id), id)
  {
  }

  lemma AbandonDescends(s: State, id: string, clear: RouteOutcome)
    requires id in s.switches && Successor(s.switches[id].phase, StopCandidate) && s.switches[id].candidate.Some?
    requires !s.switches[id].phase.Cutover?
    ensures Descends(s, Abandon(s, id, clear), id)
  {
    hide Routed;
  }

  lemma CheckTargetDescends(s: State, id: string, found: bool)
    requires id in s.switches && s.switches[id].phase.Preflight?
    ensures Descends(s, CheckTarget(s, id, found), id)
  {
  }

  lemma StartCandidateDescends(s: State, id: string, started: bool)
    requires id in s.switches && s.switches[id].phase.Starting?
    ensures Descends(s, StartCandidate(s, id, started), id)
  {
    hide Spawn;
  }

  lemma RouteCandidateDescends(s: State, id: string, t: TunnelId, route: RouteOutcome)
    requires id in s.switches && s.switches[id].phase.CandidateRouting?
    ensures Descends(s, RouteCandidate(s, id, t, route), id)
  {
    hide Routed;
  }

  lemma VerifyDescends(s: State, id: string, t: TunnelId, e: SwitchInput)
    requires Steerable(s, id) && s.switches[id].candidate == Some(t) && t in s.tunnels &&
        s.switches[id].phase.Verifying?
    ensures Descends(s, Verify(s, id, t, e), id)
  {
    hide Routed;
  }

  lemma SwitchXrayOnDescends(s: State, id: string, e: SwitchInput)
    requires id in s.switches && s.switches[id].candidate.Some? && s.switches[id].phase.XrayOn?
    ensures Descends(s, SwitchXrayOn(s, id, e), id)
  {
    hide XrayActivate, Abandon, Goto;
    var s1 := s.(world := XrayActivate(s.world, s.switches[id].slot, e.xray).0);
    AbandonDescends(s1, id, e.clear);
    GotoDescends(s1, id, Cutover);
  }

  lemma CutOverDescends(s: State, id: string, t: TunnelId, e: SwitchInput)
    requires id in s.switches && s.switches[id].phase.Cutover?
    ensures Descends(s, CutOver(s, id, t, e), id)
  {
    hide Routed;
  }

  lemma RestoreRouteDescends(s: State, id: string, route: RouteOutcome)
    requires id in s.switches && s.switches[id].phase.UndoRoute?
    ensures Descends(s, RestoreRoute(s, id, route), id)
  {
    hide SetupSlot, ClearSlot, Goto;
    var w := s.switches[id];
    if w.current.Some? {
      GotoDescends(s.(world := SetupSlot(s.world, w.slot, w.current.value, route)), id, StopCandidate);
    } else {
      GotoDescends(s.(world := ClearSlot(s.world, w.slot, route)), id, UndoXray);
    }
  }

  lemma StopDescends(s: State, id: string, t: TunnelId)
    requires id in s.switches && s.switches[id].phase.StopCandidate? && t in s.tunnels
    ensures Descends(s, Reject(Stop(s, t), id), id)
  {
  }

  lemma UndoXrayDescends(s: State, id: string, w: World)
    requires id in s.switches && s.switches[id].phase.UndoXray?
    ensures Descends(s, Goto(s.(world := w), id, StopCandidate), id)
  {
  }

  lemma ReleaseDescends(s: State, id: string)
    requires id in s.switches
    ensures s.switches[id].phase.Publishing? ==> Descends(s, Publish(s, id), id)
    ensures s.switches[id].phase.ReleasingLease? ==> Descends(s, ReleaseLease(s, id), id)
    ensures s.switches[id].phase.ReleasingOverride? ==> Descends(s, ReleaseOverride(s, id), id)
  {
    hide Leases.Release;
  }

  lemma CommitDescends(s: State, id: string, t: TunnelId, e: SwitchInput)
    requires Steerable(s, id) && s.switches[id].phase.Committing? &&
        s.switches[id].candidate == Some(t) && t in s.tunnels
    ensures Descends(s, Commit(s, id, t, e), id)
  {
    hide Commit, CommitWrites;
    CommitTables(s, id, t, e);
    CommitGoesOn(s, Commit(s, id, t, e), id, s.switches[id].slot, e.route);
  }

  lemma AdvanceDescends(s: State, id: string, e: SwitchInput)
    requires Inv(s) && Steerable(s, id) && Unfinished(s.switches[id])
    ensures Descends(s, Advance(s, id, e), id)
  {
    hide Inv, Goto, Reject, CheckTarget, StartCandidate, RouteCandidate, Verify, SwitchXrayOn, CutOver, Commit,
         RestoreRoute, Publish, ReleaseLease, ReleaseOverride, Stop, Preempted, CandidateDiverse, Abandon,
             XrayDrain, Descends;
    var w := s.switches[id];
    FitsKnown(s, id);
    match w.phase
    case Admission => GotoDescends(s, id, Preflight); RejectDescends(s, id);
    case Preflight => CheckTargetDescends(s, id, e.ok);
    case FirstLeaseCheck => GotoDescends(s, id, Starting); RejectDescends(s, id);
    case Starting => StartCandidateDescends(s, id, e.ok);
    case CandidateRouting => RouteCandidateDescends(s, id, w.candidate.value, e.route);
    case Verifying => VerifyDescends(s, id, w.candidate.value, e);
    case DiversityCheck => GotoDescends(s, id, SecondLeaseCheck); AbandonDescends(s, id, e.clear);
    case SecondLeaseCheck => GotoDescends(s, id, XrayOn); AbandonDescends(s, id, e.clear);
    case XrayOn => SwitchXrayOnDescends(s, id, e);
    case Cutover => CutOverDescends(s, id, w.candidate.value, e);
    case Committing => CommitDescends(s, id, w.candidate.value, e);
    case UndoRoute => RestoreRouteDescends(s, id, e.route);
    case UndoXray => UndoXrayDescends(s, id, XrayDrain(s.world, w.slot, e.xray).0);
    case StopCandidate => StopDescends(s, id, w.candidate.value);
    case Publishing => ReleaseDescends(s, id);
    case ReleasingLease => ReleaseDescends(s, id);
    case ReleasingOverride => ReleaseDescends(s, id);
  }

  lemma CommitGoesOn(s: State, s': State, id: string, q: nat, route: RouteOutcome)
    requires CommitWrites(s, s', id, q, route) && s.switches[id].phase.Committing?
    ensures Descends(s, s', id)
  {
  }

  /** How many of the first n steps are moves of the switch. */
  function Moves(steps: seq<Step>, id: string, n: nat): nat
    requires n <= |steps|
  {
    if n == 0 then 0 else Moves(steps, id, n - 1) + if steps[n - 1].Switching? && steps[n - 1].id == id then 1 else 0
  }

  /** Nothing can block a switch: sixteen moves after its reservation at the latest it is finished, on whatever path. */
  lemma {:induction false} SwitchEnds(s: State, steps: seq<Step>, id: string, n: nat)
    requires Inv(s) && id in s.switches && n <= |steps|
    ensures id in Before(s, steps, n).switches
    ensures var left := Rank(Before(s, steps, n).switches[id]);
      left + Moves(steps, id, n) <= Rank(s.switches[id]) || left == 0
  {
    hide Inv, Run, Rank;
    if n == 0 {
      RunNothing(s, steps);
    } else {
      SwitchEnds(s, steps, id, n - 1);
      BeforeInv(s, steps, n - 1);
      BeforeNext(s, steps, n - 1);
      MoveOrKeep(Before(s, steps, n - 1), steps[n - 1], id);
    }
  }

  lemma MoveOrKeep(s: State, step: Step, id: string)
    requires Inv(s) && id in s.switches
    ensures var s' := Next(s, step);
      && id in s'.switches
      && if step.Switching? && step.id == id && Rank(s.switches[id]) > 0
          then Rank(s'.switches[id]) < Rank(s.switches[id])
         else Rank(s'.switches[id]) == Rank(s.switches[id])
  {
    hide Inv, Apply;
    FitsKnown(s, id);
    if step.Switching? && step.id == id {
      SwitchingIsAdvance(s, step);
      if Unfinished(s.switches[id]) { AdvanceDescends(s, id, step.input); } else { AdvanceFinished(s, id, step.input); }
    } else if Enabled(s, step) {
      RecordKept(s, step, id);
    }
  }

  /** Between its pre-flight check and its end a switch is never preempted: both lease checks always pass. */
  lemma NeverPreempted(s: State, id: string)
    requires Inv(s) && id in s.switches && HoldsLease(s.switches[id])
    ensures !Preempted(s, s.switches[id])
  {
    FitsKnown(s, id);
  }

  ghost predicate LeaseHolder(s: State, id: string, q: nat) {
    OwnedBy(s, id, q) && HoldsLease(s.switches[id])
  }

  /**
   In every reachable state a slot is overridden exactly while some unfinished switch is on it, and leased exactly
   while that switch has not released: so each way to the end of a switch frees both, and nothing else ever takes them.
   */
  lemma HeldExactlyWhileSwitching(s: State, q: nat)
    requires Inv(s) && q < s.maxActive
    ensures q in s.override <==> exists id :: OwnedBy(s, id, q)
    ensures s.controllers[q].owner != "" <==> exists id :: LeaseHolder(s, id, q)
    ensures forall i, j | OwnedBy(s, i, q) && OwnedBy(s, j, q) :: i == j
  {
    forall i, j | OwnedBy(s, i, q) && OwnedBy(s, j, q) ensures i == j {
      if i != j { OneOwner(s, i, j); }
    }
    if id :| OwnedBy(s, id, q) {
      FitsKnown(s, id);
      assert HoldsLease(s.switches[id]) ==> LeaseHolder(s, id, q);
    }
  }

  /**
   While the switch that has taken over is still publishing and releasing, its candidate is the tunnel of the
   slot.
   */
  lemma TakeoverHolds(s: State, id: string)
    requires Inv(s) && id in s.switches && s.switches[id].verdict.Succeeded? && Unfinished(s.switches[id])
    ensures Get(s.active, s.switches[id].slot) == s.switches[id].candidate
    ensures !s.switches[id].phase.Publishing? ==> Agrees(s, s.switches[id].slot)
  {
    FitsKnown(s, id);
  }

  /** No second request for the slot is granted before the first switch has released it. */
  lemma NoSecondReservation(s: State, id: string, other: string, target: Node, eligible: bool)
    requires Inv(s) && id in s.switches && Unfinished(s.switches[id])
    ensures Reserve(s, other, s.switches[id].slot, target, eligible) == s
  {
    FitsKnown(s, id);
  }

  /**
   A node being switched onto one slot is just as reservable for another: uniqueness is checked on active
   tunnels only.
   */
  lemma SameNodeReservedTwice(s: State, i: string, p: nat, j: string, q: nat, target: Node)
    requires Inv(s) && p != q && i != j && i !in s.switches && j !in s.switches
    requires Reservable(s, p, target, true)
    ensures var s' := Reserve(s, i, p, target, true);
      Reservable(s', q, target, true) <==> Reservable(s, q, target, true)
  {
  }
}
