/**
 Two records of one drain: the scheduler's draining map and the controller's
 DrainingTunnel. They part in two places, and every other step keeps them
 together or brings them together again.
 */
module DrainRecords {
  import opened Wrappers
  import opened ControlPlane
  import opened Invariant
  import opened Effects
  import opened Theorems
  import opened Runs
  import opened NodeSharing
  import Leases
  import XrayTransaction

  ghost predicate DrainAgrees(s: State, q: nat) {
    q in s.controllers && s.controllers[q].drainingTunnel == Get(s.draining, q)
  }

  /** A health check that finds the process gone, and is not held up by Xray. */
  ghost predicate Retires(s: State, step: Step) {
    && step.HealthCheck? && step.slot in s.active && s.active[step.slot] in s.tunnels
    && !(s.tunnels[s.active[step.slot]].state == Up && step.healthy)
    && !XrayRefuses(s, step.slot, step.drain) && ProcessGone(s, s.active[step.slot])
  }

  ghost predicate TimesOut(s: State, step: Step) {
    && step.Cleanup? && step.slot in s.draining && s.draining[step.slot] in s.tunnels
    && TimedOut(s.tunnels[s.draining[step.slot]], step.cleanup.now)
  }

  /** The drain of slot q begins or is completed: both records are written. */
  ghost predicate WritesBoth(s: State, step: Step, q: nat)
    requires Enabled(s, step)
  {
    match step
    case HealthCheck(p, healthy, e) =>
      && p == q && !(s.tunnels[s.active[p]].state == Up && healthy)
      && !XrayRefuses(s, p, e) && !ProcessGone(s, s.active[p]) && e.route.Done?
    case Cleanup(p, e) => p == q && !TimesOut(s, step) && e.count == Some(0)
    case Switching(id, e) => s.switches[id].slot == q && q in s.active && Commits(s, id, e)
    case TunnelFails(_) | TunnelExits(_) | XrayCrashes | Fill(_, _) | Synchronise(_)
       | StartStandby(_, _, _) | DropStandby(_) | CommitStandby(_, _) | Request(_, _, _, _) => false
  }

  /** Whether the records agree after the step. */
  ghost predicate AgreesAfter(s: State, step: Step, q: nat)
    requires Enabled(s, step) && q in s.controllers
  {
    if WritesBoth(s, step, q) then true
    else if Retires(s, step) && step.slot == q then q !in s.draining
    else if TimesOut(s, step) && step.slot == q then s.controllers[q].drainingTunnel.None?
    else DrainAgrees(s, q)
  }

  /** Neither record of slot q is written. */
  ghost predicate RecordsKept(s: State, s': State, q: nat) {
    && Get(s'.draining, q) == Get(s.draining, q)
    && (q in s'.controllers <==> q in s.controllers)
    && (q in s.controllers ==> s'.controllers[q].drainingTunnel == s.controllers[q].drainingTunnel)
  }

  lemma KeptAgrees(s: State, s': State, q: nat)
    requires RecordsKept(s, s', q)
    ensures DrainAgrees(s', q) <==> DrainAgrees(s, q)
  {
  }

  lemma SameRecords(s: State, s': State, q: nat)
    requires s'.draining == s.draining && s'.controllers == s.controllers
    ensures RecordsKept(s, s', q)
  {
  }

  lemma ConfinedRecords(s: State, s': State, p: nat, q: nat)
    requires SlotsConfined(s, s', p) && p != q
    ensures RecordsKept(s, s', q)
  {
    assert Get(s'.controllers, q) == Get(s.controllers, q);
  }

  lemma TellingKeepsRecords(s: State, p: nat, c: Leases.Controller, q: nat)
    requires p in s.controllers ==> c.drainingTunnel == s.controllers[p].drainingTunnel
    ensures RecordsKept(s, WithController(s, p, c), q)
  {
  }

  // ---- Health checks ----

  lemma HealthCheckRecords(s: State, q: nat, healthy: bool, e: DrainInput)
    requires Inv(s) && Enabled(s, HealthCheck(q, healthy, e)) && q in s.controllers
    ensures DrainAgrees(Apply(s, HealthCheck(q, healthy, e)), q) <==>
      AgreesAfter(s, HealthCheck(q, healthy, e), q)
  {
    hide Inv, TransitionToDraining, XrayRefuses, ProcessGone;
    DrainingApart(s, q);
    var t := s.active[q];
    if !(s.tunnels[t].state == Up && healthy) {
      if XrayRefuses(s, q, e) {
        RefusedDrain(s, q, t, e);
      } else if ProcessGone(s, t) {
        RetiredDrain(s, q, t, e);
      } else if e.route.Failed? {
        RestoredDrain(s, q, t, e);
      } else {
        CompletedDrain(s, q, t, e);
      }
    }
  }

  lemma HealthCheckOfAnother(s: State, p: nat, healthy: bool, e: DrainInput, q: nat)
    requires Inv(s) && Enabled(s, HealthCheck(p, healthy, e)) && p != q
    ensures RecordsKept(s, Apply(s, HealthCheck(p, healthy, e)), q)
  {
    hide Inv, TransitionToDraining, RecordsKept;
    SameRecords(s, s, q);
    DrainingApart(s, p);
    DrainReach(s, p, s.active[p], e);
    ConfinedRecords(s, TransitionToDraining(s, p, s.active[p], e), p, q);
  }

  // ---- Cleanups ----

  lemma CleanupRecords(s: State, q: nat, e: CleanupInput)
    requires q in s.draining && s.draining[q] in s.tunnels && q in s.controllers
    ensures DrainAgrees(CleanupSlot(s, q, e), q) <==> AgreesAfter(s, Cleanup(q, e), q)
  {
    hide LeaveDraining;
    LeavingKeepsController(s, q, e.flush);
  }

  lemma LeavingKeepsController(s: State, q: nat, flush: RouteOutcome)
    requires q in s.draining && s.draining[q] in s.tunnels
    ensures var s' := LeaveDraining(s, q, flush); s'.controllers == s.controllers && q !in s'.draining
  {
  }

  lemma CleanupOfAnother(s: State, p: nat, e: CleanupInput, q: nat)
    requires Inv(s) && Enabled(s, Cleanup(p, e)) && p != q
    ensures RecordsKept(s, CleanupSlot(s, p, e), q)
  {
    hide Inv, CleanupSlot;
    CleanupKnown(s, p);
    CleanupReach(s, p, e);
    ConfinedRecords(s, CleanupSlot(s, p, e), p, q);
  }

  // ---- Promotions and reservations ----

  lemma FillRecords(s: State, p: nat, e: PromoteInput, q: nat)
    requires |s.standby| > 0 && s.standby[0] in s.tunnels
    ensures RecordsKept(s, Promote(s, p, e), q)
  {
    hide Promote, PromotionWorld, TablesConfined, SeatHead, StopHead;
    PromotionWorldReach(s, p, e);
    HeadRecords(s.(world := PromotionWorld(s, p, e).0), p, q);
  }

  lemma HeadRecords(s: State, p: nat, q: nat)
    requires |s.standby| > 0 && s.standby[0] in s.tunnels
    ensures RecordsKept(s, SeatHead(s, p), q) && RecordsKept(s, StopHead(s), q)
  {
  }

  lemma RequestRecords(s: State, id: string, p: nat, target: Node, eligible: bool, q: nat)
    ensures RecordsKept(s, Reserve(s, id, p, target, eligible), q)
  {
    hide Diverse;
  }

  // ---- Standby qualification and events ----

  lemma EventRecords(s: State, step: Step, q: nat)
    requires Inv(s) && Enabled(s, step)
    requires step.TunnelFails? || step.TunnelExits? || step.XrayCrashes? || step.Synchronise?
      || step.StartStandby? || step.DropStandby? || step.CommitStandby?
    ensures RecordsKept(s, Apply(s, step), q)
  {
    hide Inv, SyncXray, RecordsKept;
    if step.StartStandby? || step.DropStandby? || step.CommitStandby? {
      hide Apply;
      InvPlaces(s);
      NumbersKnown(s);
      StandbyReach(s, step);
      SameRecords(s, Apply(s, step), q);
    } else {
      if step.Synchronise? { SyncKeepsRecords(s, step.outcome); }
      SameRecords(s, Apply(s, step), q);
    }
  }

  lemma SyncKeepsRecords(s: State, outcome: XrayTransaction.Outcome)
    ensures SyncXray(s, outcome).draining == s.draining && SyncXray(s, outcome).controllers == s.controllers
  {
    hide LiveSlots, XrayTransaction.SyncSlots;
  }

  // ---- Switches ----

  lemma EndRecords(s: State, id: string, q: nat)
    requires id in s.switches
    ensures RecordsKept(s, Publish(s, id), q) && RecordsKept(s, ReleaseLease(s, id), q)
  {
    hide WithController, Leases.Release, RecordsKept;
    var w := s.switches[id];
    var c := ControllerOf(s, w.slot);
    var released := Leases.Release(c, w.lease);
    ReleaseKeepsDrain(c, w.lease);
    var published := c.(activeTunnel := w.candidate, state := Leases.Active, outboundActive := true);
    TellingKeepsTunnels(s, w.slot);
    TellingKeepsRecords(s, w.slot, published, q);
    TellingKeepsRecords(s, w.slot, released, q);
    GotoKeepsRecords(s, WithController(s, w.slot, published), id, ReleasingLease, q);
    GotoKeepsRecords(s, WithController(s, w.slot, released), id, ReleasingOverride, q);
  }

  lemma ReleaseKeepsDrain(c: Leases.Controller, lease: Leases.Lease)
    ensures Leases.Release(c, lease).drainingTunnel == c.drainingTunnel
  {
  }

  lemma GotoKeepsRecords(s: State, s1: State, id: string, p: Phase, q: nat)
    requires RecordsKept(s, s1, q) && id in s1.switches
    ensures RecordsKept(s, Goto(s1, id, p), q)
  {
  }

  /** Phases that do not write the controller. */
  lemma ControllersUntouched(s: State, id: string, e: SwitchInput)
    requires Steerable(s, id)
    requires var p := s.switches[id].phase; !p.Committing? && !p.Publishing? && !p.ReleasingLease?
    ensures Advance(s, id, e).controllers == s.controllers
  {
    var w := s.switches[id];
    if InBackground(w.phase) {
      hide Advance;
      QuietPhase(s, id, e);
    } else {
      if w.phase.Starting? { StartTellsNobody(s, id, e.ok); } else { TrialTellsNobody(s, id, w.candidate.value, e); }
      hide StartCandidate, Verify, Stop, Reject, Commit;
    }
  }

  lemma StartTellsNobody(s: State, id: string, started: bool)
    requires id in s.switches
    ensures StartCandidate(s, id, started).controllers == s.controllers
  {
  }

  lemma TrialTellsNobody(s: State, id: string, t: TunnelId, e: SwitchInput)
    requires Steerable(s, id) && s.switches[id].candidate == Some(t) && t in s.tunnels
    ensures Verify(s, id, t, e).controllers == s.controllers
    ensures Reject(Stop(s, t), id).controllers == s.controllers
  {
    hide Routed;
  }

  lemma OtherPhaseRecords(s: State, id: string, e: SwitchInput, q: nat)
    requires Inv(s) && Steerable(s, id) && !s.switches[id].phase.Committing?
    ensures RecordsKept(s, Advance(s, id, e), q)
  {
    hide Inv, Advance, RecordsKept;
    AdvanceReach(s, id, e);
    if s.switches[id].phase.Publishing? || s.switches[id].phase.ReleasingLease? {
      EndIsAdvance(s, id, e);
      EndRecords(s, id, q);
    } else {
      ControllersUntouched(s, id, e);
      SameRecords(s, Advance(s, id, e), q);
    }
  }

  /** The commit writes both records for the tunnel it replaces. */
  lemma CommitRecords(s: State, id: string, e: SwitchInput, q: nat)
    requires Inv(s) && Steerable(s, id) && s.switches[id].phase.Committing? && q in s.controllers
    ensures var s' := Advance(s, id, e); var p := s.switches[id].slot;
      if p == q && q in s.active && Commits(s, id, e) then DrainAgrees(s', q) else RecordsKept(s, s', q)
  {
    FitsKnown(s, id);
    var p := s.switches[id].slot;
    if p in s.active {
      ActiveKnown(s, p);
    }
    AdvanceIsCommit(s, id, e);
    hide Inv, Advance, CandidateDiverse;
    CommitWritesRecords(s, id, s.switches[id].candidate.value, e, q);
  }

  lemma CommitWritesRecords(s: State, id: string, t: TunnelId, e: SwitchInput, q: nat)
    requires Steerable(s, id) && s.switches[id].phase.Committing? && s.switches[id].candidate == Some(t)
    requires q in s.controllers
    requires s.switches[id].slot in s.active ==>
      s.active[s.switches[id].slot] in s.tunnels && s.active[s.switches[id].slot] != t
    ensures var s' := Commit(s, id, t, e); var p := s.switches[id].slot;
      if p == q && q in s.active && Commits(s, id, e) then DrainAgrees(s', q) else RecordsKept(s, s', q)
  {
    hide CandidateDiverse, DrainReplaced, SetupSlot;
    var p := s.switches[id].slot;
    if p in s.active {
      ReplacedIsDrained(Install(s, p, t), p, s.active[p], e.drainRoute, e.tunIP, e.now);
      ReplacedRecords(Install(s, p, t), p, s.active[p], e.drainRoute, e.tunIP, e.now, q);
    }
  }

  lemma ReplacedRecords(s: State, p: nat, t: TunnelId, route: RouteOutcome, tunIP: string, now: int, q: nat)
    requires t in s.tunnels && q in s.controllers
    ensures var (s', ok) := DrainReplaced(s, p, t, route, tunIP, now);
      if ok && p == q then DrainAgrees(s', q) else RecordsKept(s, s', q)
  {
  }

  // ---- Every step, every run ----

  /** A health check or cleanup of slot q, or a switch. */
  predicate MayWrite(step: Step, q: nat) {
    (step.HealthCheck? && step.slot == q) || (step.Cleanup? && step.slot == q) || step.Switching?
  }

  lemma Unconcerned(s: State, step: Step, q: nat)
    requires Enabled(s, step) && q in s.controllers && !MayWrite(step, q)
    ensures AgreesAfter(s, step, q) <==> DrainAgrees(s, q)
  {
  }

  lemma OtherRecords(s: State, step: Step, q: nat)
    requires Inv(s) && Enabled(s, step) && !MayWrite(step, q)
    ensures RecordsKept(s, Apply(s, step), q)
  {
    hide Inv, Apply, RecordsKept;
    match step
    case HealthCheck(p, healthy, e) => HealthCheckOfAnother(s, p, healthy, e, q);
    case Cleanup(p, e) => CleanupIsCleanup(s, p, e); CleanupOfAnother(s, p, e, q);
    case Fill(p, e) => FillIsPromotion(s, p, e); FillRecords(s, p, e, q);
    case Request(id, p, target, eligible) =>
      RequestIsReserve(s, id, p, target, eligible);
      RequestRecords(s, id, p, target, eligible, q);
    case TunnelFails(_) => EventRecords(s, step, q);
    case TunnelExits(_) => EventRecords(s, step, q);
    case XrayCrashes => EventRecords(s, step, q);
    case Synchronise(_) => EventRecords(s, step, q);
    case StartStandby(_, _, _) => EventRecords(s, step, q);
    case DropStandby(_) => EventRecords(s, step, q);
    case CommitStandby(_, _) => EventRecords(s, step, q);
  }

  lemma SwitchRecords(s: State, id: string, e: SwitchInput, q: nat)
    requires Inv(s) && Steerable(s, id) && q in s.controllers
    ensures DrainAgrees(Advance(s, id, e), q) <==> AgreesAfter(s, Switching(id, e), q)
  {
    hide Inv, Advance, RecordsKept, DrainAgrees;
    if s.switches[id].phase.Committing? {
      CommitRecords(s, id, e, q);
    } else {
      OtherPhaseRecords(s, id, e, q);
    }
    if RecordsKept(s, Advance(s, id, e), q) {
      KeptAgrees(s, Advance(s, id, e), q);
    }
  }

  /** Exactly what becomes of the agreement on slot q. */
  lemma StepRecords(s: State, step: Step, q: nat)
    requires Inv(s) && Enabled(s, step) && q in s.controllers
    ensures DrainAgrees(Apply(s, step), q) <==> AgreesAfter(s, step, q)
  {
    hide Inv, Apply, DrainAgrees, RecordsKept, AgreesAfter;
    if !MayWrite(step, q) {
      OtherRecords(s, step, q);
      KeptAgrees(s, Apply(s, step), q);
      Unconcerned(s, step, q);
    } else {
      match step
      case HealthCheck(_, healthy, e) => HealthCheckRecords(s, q, healthy, e);
      case Cleanup(_, e) => CleanupIsCleanup(s, q, e); CleanupRecords(s, q, e);
      case Switching(id, e) => SwitchingIsAdvance(s, step); SwitchRecords(s, id, e, q);
    }
  }

  lemma RequestIsReserve(s: State, id: string, p: nat, target: Node, eligible: bool)
    requires Enabled(s, Request(id, p, target, eligible))
    ensures Apply(s, Request(id, p, target, eligible)) == Reserve(s, id, p, target, eligible)
  {
    hide Reserve;
  }

  /** Agreement is lost exactly by a drain that times out, and by retiring the tunnel of a slot that is draining. */
  lemma AgreementLost(s: State, step: Step, q: nat)
    requires Inv(s) && Enabled(s, step) && DrainAgrees(s, q)
    ensures !DrainAgrees(Apply(s, step), q) <==>
      (TimesOut(s, step) && step.slot == q) || (Retires(s, step) && step.slot == q && q in s.draining)
  {
    hide Inv, Apply, XrayRefuses, ProcessGone, CandidateDiverse;
    StepRecords(s, step, q);
  }

  ghost predicate PartsAt(s: State, steps: seq<Step>, q: nat, k: nat) {
    && k < |steps| && Enabled(Before(s, steps, k), steps[k])
    && ((TimesOut(Before(s, steps, k), steps[k]) && steps[k].slot == q)
        || (Retires(Before(s, steps, k), steps[k]) && steps[k].slot == q && q in Before(s, steps, k).draining))
  }

  /** In every run the records of a slot agree up to some point if and only if no step before it has parted them. */
  lemma {:induction false} RunRecords(s: State, steps: seq<Step>, q: nat, n: nat)
    requires Inv(s) && DrainAgrees(s, q) && n <= |steps|
    ensures (forall k: nat | k <= n :: DrainAgrees(Before(s, steps, k), q)) <==>
      (forall k: nat | k < n :: !PartsAt(s, steps, q, k))
  {
    hide Inv, DrainAgrees, Run, Apply, Enabled, TimesOut, Retires;
    if n == 0 {
      RunNothing(s, steps);
    } else {
      RunRecords(s, steps, q, n - 1);
      BeforeInv(s, steps, n - 1);
      BeforeNext(s, steps, n - 1);
      var b := Before(s, steps, n - 1);
      assert DrainAgrees(b, q) && Enabled(b, steps[n - 1]) ==>
          (DrainAgrees(Before(s, steps, n), q) <==> !PartsAt(s, steps, q, n - 1)) by {
        if DrainAgrees(b, q) && Enabled(b, steps[n - 1]) { AgreementLost(b, steps[n - 1], q); }
      }
    }
  }

  lemma InitiallyAgree(maxActive: nat, maxStandby: nat, xray: Option<XrayTransaction.Xray>, q: nat)
    requires q < maxActive
    ensures DrainAgrees(Initial(maxActive, maxStandby, xray), q)
  {
  }
}
