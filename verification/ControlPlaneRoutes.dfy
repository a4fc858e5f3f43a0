/**
 Where the slot tables point: at the slot's tunnel, over every run in which no
 cleanup closes a slot that is being handed over and no rollback command fails; and
 exactly what goes wrong otherwise.
 */
module Routes {
  import opened Wrappers
  import opened ControlPlane
  import opened Invariant
  import opened Effects
  import opened Theorems
  import opened Runs
  import XrayTransaction

  function SlotTable(s: State, q: nat): Route {
    TableOf(s.world, BASE_TABLE + q)
  }

  /** The cutover has been undone: the switch is on its way out without the slot. */
  ghost predicate RolledBack(w: Switch) {
    && w.cut && !w.verdict.Succeeded?
    && (w.phase.UndoXray? || w.phase.StopCandidate? || w.phase.ReleasingLease? || w.phase.ReleasingOverride?)
  }

  /** The route a switch has to leave behind when it does not take the slot. */
  function Former(w: Switch): Route {
    if w.current.Some? then Dev(w.current.value) else Unreachable
  }

  ghost predicate RouteFits(s: State, w: Switch) {
    && (w.phase.Committing? ==> w.candidate.Some? && SlotTable(s, w.slot) == Dev(w.candidate.value))
    && (RolledBack(w) ==> w.current == Get(s.active, w.slot) && SlotTable(s, w.slot) == Former(w))
    && (Rank(w) >= 7 ==> !w.cut)
  }

  ghost predicate Detoured(s: State, q: nat) {
    exists id :: OwnedBy(s, id, q) && Detour(s.switches[id])
  }

  /** An active slot's table leads to its tunnel, except between a cutover and its commit or undoing. */
  ghost predicate SlotFits(s: State, q: nat) {
    && (q in s.active ==> Detoured(s, q) || SlotTable(s, q) == Dev(s.active[q]))
    && (forall id | OwnedBy(s, id, q) :: RouteFits(s, s.switches[id]))
  }

  ghost predicate RoutesAgree(s: State) {
    forall q: nat | q < s.maxActive :: SlotFits(s, q)
  }

  /** Rollback commands succeed, and no cleanup closes a slot while a candidate is being committed to it. */
  ghost predicate Clean(s: State, step: Step) {
    match step
    case Cleanup(q, e) =>
      ClosesEmptySlot(s, step, q) ==>
        e.clear.Done? && !exists id :: OwnedBy(s, id, q) && s.switches[id].phase.Committing?
    case Switching(id, e) => id in s.switches && Detour(s.switches[id]) ==> e.route.Done?
    case TunnelFails(_) | TunnelExits(_) | XrayCrashes | HealthCheck(_, _, _) | Fill(_, _) | Synchronise(_)
       | StartStandby(_, _, _) | DropStandby(_) | CommitStandby(_, _) | Request(_, _, _, _) => true
  }

  // ---- One slot, one step ----

  lemma FitsFrame(s: State, s': State, q: nat)
    requires SlotFits(s, q) && OwnersKept(s, s', q) && SlotKept(s, s', q) && SlotTable(s', q) == SlotTable(s, q)
    ensures SlotFits(s', q)
  {
    if q in s.active && Detoured(s, q) {
      var id :| OwnedBy(s, id, q) && Detour(s.switches[id]);
      assert OwnedBy(s', id, q);
    }
  }

  lemma Unowned(s: State, q: nat)
    requires Inv(s) && q !in s.override
    ensures forall id :: !OwnedBy(s, id, q)
  {
    forall id ensures !OwnedBy(s, id, q) {
      if OwnedBy(s, id, q) { FitsKnown(s, id); }
    }
  }

  lemma HealthCheckFits(s: State, q: nat, healthy: bool, e: DrainInput)
    requires Inv(s) && Enabled(s, HealthCheck(q, healthy, e)) && SlotFits(s, q) && q < 100
    ensures SlotFits(Apply(s, HealthCheck(q, healthy, e)), q)
  {
    Unowned(s, q);
    DrainingApart(s, q);
    hide Inv, TransitionToDraining;
    DrainReach(s, q, s.active[q], e);
  }

  lemma FillFits(s: State, q: nat, e: PromoteInput)
    requires Inv(s) && Enabled(s, Fill(q, e)) && SlotFits(s, q)
    ensures SlotFits(Apply(s, Fill(q, e)), q)
  {
    Unowned(s, q);
    StandbyKnown(s, 0);
    hide Inv, Promote;
    PromoteReach(s, q, e);
  }

  /** The timeout branch on an empty slot, taken apart from the rest of the cleanup. */
  lemma ClosedTable(s: State, q: nat, e: CleanupInput)
    requires ClosesEmptySlot(s, Cleanup(q, e), q) && q < 100 && e.clear.Done?
    requires q in s.drainingTable && s.drainingTable[q] == BASE_DRAINING_TABLE + q
    ensures SlotTable(CleanupSlot(s, q, e), q) == Unreachable
  {
  }

  lemma ClosingFits(s: State, q: nat, e: CleanupInput)
    requires Inv(s) && ClosesEmptySlot(s, Cleanup(q, e), q) && Clean(s, Cleanup(q, e)) && SlotFits(s, q) && q < 100
    ensures SlotFits(Apply(s, Cleanup(q, e)), q)
  {
    hide Inv, CleanupSlot;
    CleanupKnown(s, q);
    CleanupReach(s, q, e);
    ClosedTable(s, q, e);
  }

  lemma RequestFits(s: State, step: Step, q: nat)
    requires Enabled(s, step) && step.Request? && step.slot == q && SlotFits(s, q)
    requires forall id :: !OwnedBy(s, id, q)
    ensures SlotFits(Apply(s, step), q)
  {
    hide Diverse;
  }

  // ---- The moves of a switch on its own slot ----

  /** The switch on q was `id` and still is; its record and the slot's table decide. */
  lemma OwnerFits(s: State, s': State, id: string, q: nat)
    requires OwnedBy(s, id, q) && (forall j | OwnedBy(s, j, q) :: j == id)
    requires id in s'.switches && s'.switches == s.switches[id := s'.switches[id]] && s'.switches[id].slot == q
    requires RouteFits(s', s'.switches[id])
    requires q in s'.active ==> Detour(s'.switches[id]) || SlotTable(s', q) == Dev(s'.active[q])
    ensures SlotFits(s', q)
  {
    forall j | OwnedBy(s', j, q) ensures j == id {
      if j != id { assert OwnedBy(s, j, q); }
    }
    if q in s'.active && Detour(s'.switches[id]) {
      assert OwnedBy(s', id, q);
    }
  }

  lemma SoleOwner(s: State, id: string, q: nat)
    requires Inv(s) && OwnedBy(s, id, q)
    ensures q in s.override && q < s.maxActive && forall j | OwnedBy(s, j, q) :: j == id
  {
    FitsKnown(s, id);
    forall j | OwnedBy(s, j, q) ensures j == id { if j != id { OneOwner(s, id, j); } }
  }

  /** A move that leaves the table alone. */
  lemma PlainMoveFits(s: State, s': State, id: string, q: nat)
    requires OwnedBy(s, id, q) && (forall j | OwnedBy(s, j, q) :: j == id) && SlotFits(s, q)
    requires id in s'.switches && s'.switches == s.switches[id := s'.switches[id]] && s'.switches[id].slot == q
    requires Descends(s, s', id) && !Detour(s.switches[id]) && !s.switches[id].phase.Cutover?
    requires s.switches[id].verdict.Succeeded? ==> s'.switches[id].verdict.Succeeded?
    requires s.switches[id].phase.Publishing? ==> s.switches[id].verdict.Succeeded?
    requires Get(s'.active, q) == Get(s.active, q) && SlotTable(s', q) == SlotTable(s, q)
    ensures SlotFits(s', q)
  {
    var w, w' := s.switches[id], s'.switches[id];
    assert RouteFits(s, w);
    if RolledBack(w') {
      assert Rank(w) < 7;
      assert w.phase.Publishing? || RolledBack(w);
    }
    OwnerFits(s, s', id, q);
  }

  lemma CutoverFits(s: State, id: string, e: SwitchInput, q: nat)
    requires Inv(s) && Steerable(s, id) && OwnedBy(s, id, q) && s.switches[id].phase.Cutover?
    ensures SlotFits(Advance(s, id, e), q)
  {
    hide Inv, Advance, CutOver, Descends;
    FitsKnown(s, id);
    SoleOwner(s, id, q);
    CandidateNumber(s, id);
    CutOverReach(s, id, s.switches[id].candidate.value, e);
    CutOverRecord(s, id, e);
    OwnerFits(s, Advance(s, id, e), id, q);
  }

  lemma CutOverRecord(s: State, id: string, e: SwitchInput)
    requires Steerable(s, id) && s.switches[id].phase.Cutover?
    ensures Advance(s, id, e) == CutOver(s, id, s.switches[id].candidate.value, e)
    ensures var w' := Advance(s, id, e).switches[id];
      Rank(w') < 7 && Detour(w') && !RolledBack(w') && w'.candidate == s.switches[id].candidate
  {
    hide SetupSlot, Routed;
  }

  lemma UndoFits(s: State, id: string, e: SwitchInput, q: nat)
    requires Inv(s) && Steerable(s, id) && OwnedBy(s, id, q) && s.switches[id].phase.UndoRoute? && e.route.Done?
    ensures SlotFits(Advance(s, id, e), q)
  {
    hide Inv, Advance, RestoreRoute;
    FitsKnown(s, id);
    SoleOwner(s, id, q);
    AdvanceRecord(s, id, e);
    UndoIsRestore(s, id, e);
    RestoredRoute(s, id);
    RestoreRouteReach(s, id, Done, 0);
    OwnerFits(s, Advance(s, id, e), id, q);
  }

  lemma UndoIsRestore(s: State, id: string, e: SwitchInput)
    requires Steerable(s, id) && s.switches[id].phase.UndoRoute? && e.route.Done?
    ensures Advance(s, id, e) == RestoreRoute(s, id, Done)
  {
    hide RestoreRoute;
  }

  lemma CommitFits(s: State, id: string, e: SwitchInput, q: nat)
    requires Inv(s) && Steerable(s, id) && OwnedBy(s, id, q) && s.switches[id].phase.Committing? && e.route.Done?
    requires SlotFits(s, q) && q < 100
    ensures SlotFits(Advance(s, id, e), q)
  {
    hide Inv, Advance, Commit;
    FitsKnown(s, id);
    SoleOwner(s, id, q);
    AdvanceIsCommit(s, id, e);
    AdvanceRecord(s, id, e);
    CommitTables(s, id, s.switches[id].candidate.value, e);
    CommitTakesOverOrNot(s, id, e);
    CommitPhase(s, id, e);
    OwnerFits(s, Advance(s, id, e), id, q);
  }

  lemma CommitPhase(s: State, id: string, e: SwitchInput)
    requires Inv(s) && Steerable(s, id) && s.switches[id].phase.Committing?
    ensures var w' := Commit(s, id, s.switches[id].candidate.value, e).switches[id];
      w'.verdict.Succeeded? <==> w'.phase.Publishing?
  {
    hide Commit, Inv;
    FitsKnown(s, id);
    CommitKeepsTrial(s, id, e);
    if Commit(s, id, s.switches[id].candidate.value, e).switches[id].verdict.Succeeded? {
      CommitSucceedsPublishing(s, id, e);
    }
  }

  lemma CommitSucceedsPublishing(s: State, id: string, e: SwitchInput)
    requires Inv(s) && Steerable(s, id) && s.switches[id].phase.Committing?
    requires Commit(s, id, s.switches[id].candidate.value, e).switches[id].verdict.Succeeded?
    ensures Commit(s, id, s.switches[id].candidate.value, e).switches[id].phase.Publishing?
  {
    hide Commit, Replaces;
    FitsKnown(s, id);
    if s.switches[id].slot in s.active {
      ActiveKnown(s, s.switches[id].slot);
    }
    CommitReplaces(s, id, e);
  }

  lemma OtherMovesFit(s: State, id: string, e: SwitchInput, q: nat)
    requires Inv(s) && Steerable(s, id) && OwnedBy(s, id, q) && SlotFits(s, q)
    requires !Detour(s.switches[id]) && !s.switches[id].phase.Cutover?
    ensures SlotFits(Advance(s, id, e), q)
  {
    hide Inv, Advance, Descends, SlotFits;
    SoleOwner(s, id, q);
    AdvanceRecord(s, id, e);
    AdvanceReach(s, id, e);
    AdvanceDescends(s, id, e);
    CandidateNumber(s, id);
    SwitchStep(s, id, e);
    FitsKnown(s, id);
    PlainMoveFits(s, Advance(s, id, e), id, q);
  }

  lemma MoveFits(s: State, id: string, e: SwitchInput, q: nat)
    requires Inv(s) && Steerable(s, id) && OwnedBy(s, id, q) && SlotFits(s, q) && q < 100
    requires Detour(s.switches[id]) ==> e.route.Done?
    ensures SlotFits(Advance(s, id, e), q)
  {
    hide Inv, Advance;
    if s.switches[id].phase.Cutover? {
      CutoverFits(s, id, e, q);
    } else if s.switches[id].phase.UndoRoute? {
      UndoFits(s, id, e, q);
    } else if s.switches[id].phase.Committing? {
      CommitFits(s, id, e, q);
    } else {
      OtherMovesFit(s, id, e, q);
    }
  }

  // ---- Every step, every clean run ----

  lemma StepFits(s: State, step: Step, q: nat)
    requires Inv(s) && Enabled(s, step) && Clean(s, step) && SlotFits(s, q) && q < s.maxActive <= 100
    ensures SlotFits(Apply(s, step), q)
  {
    if step.Switching? {
      SwitchingIsAdvance(s, step);
    }
    hide Apply, Inv, SlotFits, SlotKept, OwnersKept, ClosesEmptySlot, Advance;
    if !Concerns(s, step, q) {
      StepElsewhere(s, step, q);
      FitsFrame(s, Apply(s, step), q);
    } else {
      match step
      case HealthCheck(_, healthy, e) => HealthCheckFits(s, q, healthy, e);
      case Fill(_, e) => FillFits(s, q, e);
      case Cleanup(p, e) => ClosesItsOwn(s, p, e, q); ClosingFits(s, q, e);
      case Request(_, _, _, _) => Unowned(s, q); RequestFits(s, step, q);
      case Switching(id, e) => MoveFits(s, id, e, q);
    }
  }

  lemma ClosesItsOwn(s: State, p: nat, e: CleanupInput, q: nat)
    requires ClosesEmptySlot(s, Cleanup(p, e), q)
    ensures p == q
  {
  }

  // ---- Runs ----

  ghost predicate SameBounds(s: State, s': State) {
    s'.maxActive == s.maxActive && s'.maxStandby == s.maxStandby
  }

  lemma AdvanceBounds(s: State, id: string, e: SwitchInput)
    requires Inv(s) && Steerable(s, id)
    ensures SameBounds(s, Advance(s, id, e))
  {
    hide Inv, Advance, Commit;
    if s.switches[id].phase.Committing? {
      AdvanceIsCommit(s, id, e);
      CommitBounds(s, id, e);
    } else {
      AdvanceReach(s, id, e);
    }
  }

  lemma CommitBounds(s: State, id: string, e: SwitchInput)
    requires Inv(s) && Steerable(s, id) && s.switches[id].phase.Committing?
    ensures SameBounds(s, Commit(s, id, s.switches[id].candidate.value, e))
  {
    hide Commit, PlacesTold, PrefixesDistinct, SwitchesFit, OverridesOwned;
    FitsKnown(s, id);
    if s.switches[id].slot in s.active {
      ActiveKnown(s, s.switches[id].slot);
    }
    CommitReplaces(s, id, e);
    CommitKeepsTrial(s, id, e);
  }

  lemma BoundsKept(s: State, step: Step)
    requires Inv(s) && Enabled(s, step)
    ensures SameBounds(s, Apply(s, step))
  {
    hide Inv, Advance, TransitionToDraining, Promote, CleanupSlot, Reserve, FireWorker, Enqueue, HireWorker, LiveSlots;
    match step
    case HealthCheck(p, _, e) => DrainingApart(s, p); DrainReach(s, p, s.active[p], e);
    case Fill(p, e) => HeadKnown(s); PromoteReach(s, p, e);
    case Cleanup(p, e) => CleanupKnown(s, p); CleanupReach(s, p, e);
    case StartStandby(_, _, _) => StandbyBounds(s, step);
    case DropStandby(_) => StandbyBounds(s, step);
    case CommitStandby(_, _) => StandbyBounds(s, step);
    case Request(id, p, target, eligible) => ReserveReach(s, id, p, target, eligible);
    case Switching(id, e) => AdvanceBounds(s, id, e);
    case TunnelFails(_) =>
    case TunnelExits(_) =>
    case XrayCrashes =>
    case Synchronise(_) =>
  }

  lemma StandbyBounds(s: State, step: Step)
    requires Inv(s) && Enabled(s, step) && (step.StartStandby? || step.DropStandby? || step.CommitStandby?)
    ensures SameBounds(s, Apply(s, step))
  {
    hide Apply;
    StandbyReach(s, step);
  }

  lemma {:induction false} RunBounds(s: State, steps: seq<Step>)
    requires Inv(s)
    ensures SameBounds(s, Run(s, steps))
  {
    hide Inv, Apply;
    if steps != [] {
      var before := Run(s, steps[..|steps| - 1]);
      RunBounds(s, steps[..|steps| - 1]);
      RunInv(s, steps[..|steps| - 1]);
      if Enabled(before, steps[|steps| - 1]) { BoundsKept(before, steps[|steps| - 1]); }
    }
  }

  /**
   In every state that any interleaving reaches: slots are below MaxActive and the standby pool within MaxStandby; no
   tunnel object is held twice; active and standby tunnels of different nodes share no /24; the draining records have
   one key set and table 200 + slot; and off overridden slots the controllers agree with the active map and are free.
   */
  lemma EveryReachableState(maxActive: nat, maxStandby: nat, xray: Option<XrayTransaction.Xray>, steps: seq<Step>)
    ensures var s := Run(Initial(maxActive, maxStandby, xray), steps);
      && (forall q | q in s.active || q in s.draining || q in s.override :: q < maxActive)
      && |s.standby| <= maxStandby
      && HeldOnce(s) && ExitsApart(s)
      && s.drainingTable.Keys == s.drainingIP.Keys == s.draining.Keys
      && (forall q | q in s.drainingTable :: s.drainingTable[q] == BASE_DRAINING_TABLE + q)
      && (forall q: nat | q < maxActive && q !in s.override :: Agrees(s, q) && s.controllers[q].owner == "")
  {
    hide Initial, HeldOnce, ExitsApart, PlacesTold, PrefixesDistinct, SwitchesFit, Agrees, Run;
    var first := Initial(maxActive, maxStandby, xray);
    var s := Run(first, steps);
    InitialInv(maxActive, maxStandby, xray);
    assert first.maxActive == maxActive && first.maxStandby == maxStandby by {
      InitialBounds(maxActive, maxStandby, xray);
    }
    RunInv(first, steps);
    RunBounds(first, steps);
    InvMeansHeldOnce(s);
    InvMeansExitsApart(s);
  }

  lemma InitialBounds(maxActive: nat, maxStandby: nat, xray: Option<XrayTransaction.Xray>)
    ensures Initial(maxActive, maxStandby, xray).maxActive == maxActive &&
        Initial(maxActive, maxStandby, xray).maxStandby == maxStandby
  {
  }

  ghost predicate CleanRun(s: State, steps: seq<Step>, n: nat)
    requires n <= |steps|
  {
    forall k: nat | k < n && Enabled(Before(s, steps, k), steps[k]) :: Clean(Before(s, steps, k), steps[k])
  }

  lemma StepRoutes(s: State, step: Step)
    requires Inv(s) && Clean(s, step) && RoutesAgree(s) && s.maxActive <= 100
    ensures RoutesAgree(Next(s, step)) && Next(s, step).maxActive == s.maxActive
  {
    hide Inv, Apply, Clean, SlotFits;
    if Enabled(s, step) {
      BoundsKept(s, step);
      forall q: nat | q < s.maxActive ensures SlotFits(Apply(s, step), q) { StepFits(s, step, q); }
    }
  }

  /**
   Over every clean run the slot tables agree with the maps. For a switch in progress this says: once it is rolled
   back its slot leads to the tunnel it found there, or is closed when it found none; once it has succeeded the slot
   leads to its candidate.
   */
  lemma {:induction false} RunRoutes(s: State, steps: seq<Step>, n: nat)
    requires Inv(s) && RoutesAgree(s) && s.maxActive <= 100 && n <= |steps| && CleanRun(s, steps, n)
    ensures RoutesAgree(Before(s, steps, n)) && Before(s, steps, n).maxActive == s.maxActive
  {
    hide Inv, Next, Run, RoutesAgree, Clean, Enabled;
    if n == 0 {
      RunNothing(s, steps);
    } else {
      RunRoutes(s, steps, n - 1);
      BeforeInv(s, steps, n - 1);
      BeforeNext(s, steps, n - 1);
      DisabledOrRoutes(Before(s, steps, n - 1), steps[n - 1]);
    }
  }

  lemma DisabledOrRoutes(s: State, step: Step)
    requires Inv(s) && (Enabled(s, step) ==> Clean(s, step)) && RoutesAgree(s) && s.maxActive <= 100
    ensures RoutesAgree(Next(s, step)) && Next(s, step).maxActive == s.maxActive
  {
    hide Inv, Apply, RoutesAgree, Clean;
    if Enabled(s, step) { StepRoutes(s, step); }
  }

  lemma InitialRoutes(maxActive: nat, maxStandby: nat, xray: Option<XrayTransaction.Xray>)
    ensures RoutesAgree(Initial(maxActive, maxStandby, xray))
  {
    var s := Initial(maxActive, maxStandby, xray);
    forall q: nat | q < maxActive ensures SlotFits(s, q) { assert forall id :: !OwnedBy(s, id, q); }
  }

  /**
   What a caller sees of a finished rollback: lease and override not yet released, nothing moved, the route put
   back.
   */
  lemma RolledBackSwitch(s: State, id: string)
    requires Inv(s) && RoutesAgree(s) && id in s.switches && RolledBack(s.switches[id])
    ensures var w := s.switches[id];
      && Get(s.active, w.slot) == w.current
      && SlotTable(s, w.slot) == (if w.slot in s.active then Dev(s.active[w.slot]) else Unreachable)
  {
    var w := s.switches[id];
    FitsKnown(s, id);
    assert OwnedBy(s, id, w.slot);
    assert SlotFits(s, w.slot);
  }

  /** And of a success: the slot leads to the candidate until the override is gone. */
  lemma SucceededSwitch(s: State, id: string)
    requires Inv(s) && RoutesAgree(s) && id in s.switches && s.switches[id].verdict.Succeeded? &&
        Unfinished(s.switches[id])
    ensures var w := s.switches[id];
      Get(s.active, w.slot) == w.candidate && w.candidate.Some? && SlotTable(s, w.slot) == Dev(w.candidate.value)
  {
    var w := s.switches[id];
    FitsKnown(s, id);
    SoleOwner(s, id, w.slot);
    assert SlotFits(s, w.slot);
  }

  // ---- The window between cutover and commit ----

  ghost predicate ClosedAt(s: State, steps: seq<Step>, q: nat, k: nat) {
    k < |steps| && Enabled(Before(s, steps, k), steps[k]) && ClosesEmptySlot(Before(s, steps, k), steps[k], q)
  }

  ghost predicate Closed(s: State, steps: seq<Step>, q: nat, n: nat) {
    exists k: nat :: k < n && ClosedAt(s, steps, q, k)
  }

  ghost predicate OthersOnly(s: State, steps: seq<Step>, id: string, q: nat, n: nat)
    requires n <= |steps|
  {
    forall k: nat | k < n :: ByOthers(steps[k], id) && (ClosedAt(s, steps, q, k) ==> steps[k].cleanup.clear.Done?)
  }

  lemma WindowStep(s: State, step: Step, id: string)
    requires Inv(s) && id in s.switches && Unfinished(s.switches[id]) && ByOthers(step, id) && s.maxActive <= 100
    requires Enabled(s, step) && ClosesEmptySlot(s, step, s.switches[id].slot) ==> step.cleanup.clear.Done?
    ensures var s' := Next(s, step); var q := s.switches[id].slot;
      && id in s'.switches && s'.switches[id] == s.switches[id] && s'.maxActive == s.maxActive
      && SlotTable(s', q) == if Enabled(s, step) && ClosesEmptySlot(s, step, q) then Unreachable else SlotTable(s, q)
  {
    hide Inv, Apply, ClosesEmptySlot, SlotKept;
    var q := s.switches[id].slot;
    if Enabled(s, step) {
      RecordKept(s, step, id);
      BoundsKept(s, step);
      if ClosesEmptySlot(s, step, q) {
        OwnerSlotInRange(s, id);
        StepCloses(s, step, q);
      } else {
        OthersKeepSlot(s, step, id);
      }
    }
  }

  lemma OwnerSlotInRange(s: State, id: string)
    requires Inv(s) && id in s.switches && Unfinished(s.switches[id])
    ensures s.switches[id].slot < s.maxActive
  {
    FitsKnown(s, id);
  }

  lemma StepCloses(s: State, step: Step, q: nat)
    requires Inv(s) && Enabled(s, step) && ClosesEmptySlot(s, step, q) && step.cleanup.clear.Done? && q < 100
    ensures SlotTable(Apply(s, step), q) == Unreachable
  {
    hide Inv, CleanupSlot;
    CleanupKnown(s, q);
    ClosedTable(s, q, step.cleanup);
  }

  /**
   While a switch waits, whatever the others do, its slot's table changes only when a cleanup closes the empty
   slot.
   */
  lemma {:induction false} WindowTable(s: State, steps: seq<Step>, id: string, n: nat)
    requires Inv(s) && id in s.switches && Unfinished(s.switches[id]) && s.maxActive <= 100 && n <= |steps|
    requires OthersOnly(s, steps, id, s.switches[id].slot, n)
    ensures var e := Before(s, steps, n); var q := s.switches[id].slot;
      && id in e.switches && e.switches[id] == s.switches[id] && e.maxActive == s.maxActive
      && SlotTable(e, q) == if Closed(s, steps, q, n) then Unreachable else SlotTable(s, q)
  {
    hide Inv, Run, Next, Enabled, ClosesEmptySlot, Unfinished, SlotTable;
    if n == 0 {
      RunNothing(s, steps);
    } else {
      var q := s.switches[id].slot;
      WindowTable(s, steps, id, n - 1);
      BeforeInv(s, steps, n - 1);
      BeforeNext(s, steps, n - 1);
      assert ClosedAt(s, steps, q, n - 1) <==>
        Enabled(Before(s, steps, n - 1), steps[n - 1]) && ClosesEmptySlot(Before(s, steps, n - 1), steps[n - 1], q);
      WindowStep(Before(s, steps, n - 1), steps[n - 1], id);
    }
  }

  /**
   A switch that has cut over commits after any number of foreign steps. Its candidate then holds the slot; but the
   slot's table leads to the candidate if and only if no cleanup timed out on the empty slot in the meantime. Otherwise
   the slot is active and closed.
   */
  lemma EmptySlotRace(s: State, steps: seq<Step>, id: string, e: SwitchInput)
    requires Inv(s) && s.maxActive <= 100 && id in s.switches && s.switches[id].phase.Committing?
    requires RouteFits(s, s.switches[id]) && OthersOnly(s, steps, id, s.switches[id].slot, |steps|)
    requires var m := Before(s, steps, |steps|);
      Steerable(m, id) && id in Advance(m, id, e).switches && Advance(m, id, e).switches[id].verdict.Succeeded?
    ensures var q := s.switches[id].slot; var s' := Advance(Before(s, steps, |steps|), id, e);
      && Get(s'.active, q) == s.switches[id].candidate
      && (SlotTable(s', q) == Dev(s'.active[q]) <==> !Closed(s, steps, q, |steps|))
      && (Closed(s, steps, q, |steps|) ==> SlotTable(s', q) == Unreachable)
  {
    hide Inv, Run, Advance, OthersOnly, Closed, Commit, CommitWrites;
    WindowTable(s, steps, id, |steps|);
    var m := Before(s, steps, |steps|);
    BeforeInv(s, steps, |steps|);
    AdvanceIsCommit(m, id, e);
    CommitTakesOverOrNot(m, id, e);
    CommitPhase(m, id, e);
    CommitTables(m, id, m.switches[id].candidate.value, e);
    OwnerSlotInRange(s, id);
    PublishingWrites(m, Advance(m, id, e), id, m.switches[id].slot, e.route);
  }

  lemma PublishingWrites(s: State, s': State, id: string, q: nat, route: RouteOutcome)
    requires CommitWrites(s, s', id, q, route) && s'.switches[id].phase.Publishing? && q < 100
    ensures SlotTable(s', q) == SlotTable(s, q)
  {
  }
}
