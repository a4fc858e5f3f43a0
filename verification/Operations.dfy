/**
 The manual switch as the code runs it (internal/agentapi/operations.go): one region
 or command after another, early exits and rollbacks included, while the other
 actors go on between any two of them.
 */
module Operations {
  import opened Wrappers
  import opened ControlPlane
  import opened Invariant
  import opened Theorems
  import opened Runs
  import opened Gates
  import opened Scheduling
  import Leases
  import XrayTransaction

  // ---- The regions and commands of a switch ----

  method SetPhase(sched: Scheduler, id: string, phase: Phase)
    requires id in sched.operations
    modifies sched
    ensures sched.View() == Goto(old(sched.View()), id, phase)
  {
    sched.operations := sched.operations[id := sched.operations[id].(phase := phase)];
  }

  method Fail(sched: Scheduler, id: string)
    requires id in sched.operations
    modifies sched
    ensures sched.View() == Reject(old(sched.View()), id)
  {
    sched.operations := sched.operations[id := sched.operations[id].(phase := ReleasingLease, verdict := Rejected)];
  }

  /** ClearCandidateRouting; the candidate is stopped next. */
  method AbandonCandidate(sched: Scheduler, id: string, clear: RouteOutcome)
    requires id in sched.operations && sched.operations[id].candidate.Some?
    modifies sched
    ensures sched.View() == Abandon(old(sched.View()), id, clear)
  {
    hide Routed;
    var _ := sched.Route(BASE_TABLE + sched.operations[id].candidate.value, Empty, clear);
    SetPhase(sched, id, StopCandidate);
  }

  method PreflightCheck(sched: Scheduler, id: string, found: bool)
    requires id in sched.operations
    modifies sched
    ensures sched.View() == CheckTarget(old(sched.View()), id, found)
  {
    if !found {
      Fail(sched, id);
      return;
    }
    var w := sched.operations[id];
    var current := Get(sched.activeSlots, w.slot);
    sched.operations := sched.operations[id := w.(current := current)];
    if current.Some? && current.value in sched.tunnels && sched.tunnels[current.value].node.id == w.target.id {
      Fail(sched, id);
    } else {
      SetPhase(sched, id, FirstLeaseCheck);
    }
  }

  /** A lease that no longer validates ends the operation; once there is a candidate, it is abandoned first. */
  method LeaseStillValid(sched: Scheduler, id: string) returns (valid: bool)
    requires id in sched.operations
    ensures valid <==> !Preempted(sched.View(), sched.operations[id])
  {
    var w := sched.operations[id];
    valid := w.slot !in sched.controllers || Leases.Validates(sched.controllers[w.slot], w.lease);
  }

  method LaunchCandidate(sched: Scheduler, id: string, started: bool)
    requires id in sched.operations
    modifies sched
    ensures sched.View() == StartCandidate(old(sched.View()), id, started)
  {
    sched.counter := sched.counter + 1;
    if !started {
      Fail(sched, id);
      return;
    }
    var t := sched.counter;
    sched.tunnels := sched.tunnels[t := Tunnel(sched.operations[id].target, Up, false, 0, WithSwitch(id))];
    sched.operations := sched.operations[id := sched.operations[id].(candidate := Some(t), phase := CandidateRouting)];
  }

  method RouteTheCandidate(sched: Scheduler, id: string, route: RouteOutcome)
    requires id in sched.operations && sched.operations[id].candidate.Some?
    modifies sched
    ensures sched.View() == RouteCandidate(old(sched.View()), id, old(sched.operations[id].candidate.value), route)
  {
    hide Routed;
    var t := sched.operations[id].candidate.value;
    var ok := sched.Route(BASE_TABLE + t, Dev(t), route);
    SetPhase(sched, id, if ok then Verifying else StopCandidate);
  }

  method VerifyCandidate(sched: Scheduler, id: string, e: SwitchInput)
    requires Steerable(sched.View(), id) && sched.operations[id].phase.Verifying?
    modifies sched
    ensures sched.View() == Verify(old(sched.View()), id, old(sched.operations[id].candidate.value), e)
  {
    hide Abandon, Goto;
    var t := sched.operations[id].candidate.value;
    sched.Mark(t, sched.tunnels[t].(node := sched.tunnels[t].node.(observed := e.observed)));
    if e.ok {
      SetPhase(sched, id, DiversityCheck);
    } else {
      AbandonCandidate(sched, id, e.clear);
    }
  }

  method CandidateIsDiverse(sched: Scheduler, id: string) returns (ok: bool)
    requires PlacesTold(sched.View()) && id in sched.operations
    requires sched.operations[id].candidate.Some? && sched.operations[id].candidate.value in sched.tunnels
    ensures ok <==> CandidateDiverse(sched.View(), sched.operations[id])
  {
    hide Diverse, PlacesTold;
    var node := sched.tunnels[sched.operations[id].candidate.value].node;
    ok := sched.CheckPrefixDiversity(node, node.observed, sched.operations[id].slot);
  }

  method ActivateSlot(sched: Scheduler, id: string, e: SwitchInput)
    requires id in sched.operations && sched.operations[id].candidate.Some?
    modifies sched
    ensures sched.View() == SwitchXrayOn(old(sched.View()), id, e)
  {
    hide XrayActivate, Abandon, Goto;
    var ok := sched.ActivateXray(sched.operations[id].slot, e.xray);
    if ok {
      SetPhase(sched, id, Cutover);
    } else {
      AbandonCandidate(sched, id, e.clear);
    }
  }

  method CutOverSlot(sched: Scheduler, id: string, e: SwitchInput)
    requires id in sched.operations && sched.operations[id].candidate.Some?
    modifies sched
    ensures sched.View() == CutOver(old(sched.View()), id, old(sched.operations[id].candidate.value), e)
  {
    hide Routed, SetupSlot;
    var w := sched.operations[id];
    var ok := sched.SetupSlotRouting(w.slot, w.candidate.value, e.route);
    var _ := sched.Route(BASE_TABLE + w.candidate.value, Empty, e.clear);
    sched.operations := sched.operations[id := w.(cut := true)];
    SetPhase(sched, id, if ok then Committing else UndoRoute);
  }

  method SeatCandidate(sched: Scheduler, slot: nat, t: TunnelId)
    requires t in sched.tunnels
    modifies sched
    ensures sched.View() == Install(old(sched.View()), slot, t)
    ensures sched.tunnels.Keys == old(sched.tunnels.Keys) && sched.operations == old(sched.operations)
  {
    sched.tunnels := sched.tunnels[t := sched.tunnels[t].(place := InSlot(slot))];
    sched.activeSlots := sched.activeSlots[slot := t];
  }

  /** The old tunnel gets the slot back in the scheduler's map; the candidate is in the hands of the switch again. */
  method Reinstate(sched: Scheduler, slot: nat, previous: TunnelId, t: TunnelId, candidate: Tunnel)
    modifies sched
    ensures sched.View() == old(sched.View()).(active := old(sched.View()).active[slot := previous],
                                               tunnels := old(sched.View()).tunnels[t := candidate])
  {
    sched.activeSlots := sched.activeSlots[slot := previous];
    sched.tunnels := sched.tunnels[t := candidate];
  }

  /** The locked commit, with its own way back when the replaced tunnel cannot be preserved. */
  method CommitSwitch(sched: Scheduler, id: string, e: SwitchInput)
    requires PlacesTold(sched.View()) && Steerable(sched.View(), id) && sched.operations[id].phase.Committing?
    modifies sched
    ensures sched.View() == Commit(old(sched.View()), id, old(sched.operations[id].candidate.value), e)
  {
    hide PlacesTold, CandidateDiverse, Install, DrainReplaced, Goto, Succeed, SetupSlot;
    var w := sched.operations[id];
    var t := w.candidate.value;
    var diverse := CandidateIsDiverse(sched, id);
    if !diverse {
      SetPhase(sched, id, UndoRoute);
      return;
    }
    if w.slot !in sched.activeSlots || sched.activeSlots[w.slot] !in sched.tunnels || sched.activeSlots[w.slot] == t {
      SeatCandidate(sched, w.slot, t);
      MarkSucceeded(sched, id);
      return;
    }
    var previous, candidate := sched.activeSlots[w.slot], sched.tunnels[t];
    SeatCandidate(sched, w.slot, t);
    ghost var installed := sched.View();
    var ok := sched.DrainReplacedTunnel(w.slot, previous, e.drainRoute, e.tunIP, e.now);
    RefusalChangesWorldOnly(installed, w.slot, previous, e.drainRoute, e.tunIP, e.now);
    if ok {
      MarkSucceeded(sched, id);
      return;
    }
    Reinstate(sched, w.slot, previous, t, candidate);
    InstallUndone(old(sched.View()), w.slot, t);
    var _ := sched.SetupSlotRouting(w.slot, previous, e.route);
    SetPhase(sched, id, StopCandidate);
  }

  lemma InstallUndone(s: State, slot: nat, t: TunnelId)
    requires t in s.tunnels && slot in s.active
    ensures var i := Install(s, slot, t);
      && i == s.(active := i.active, tunnels := i.tunnels)
      && i.active[slot := s.active[slot]] == s.active && i.tunnels[t := s.tunnels[t]] == s.tunnels
  {
  }

  method MarkSucceeded(sched: Scheduler, id: string)
    requires id in sched.operations
    modifies sched
    ensures sched.View() == Succeed(old(sched.View()), id)
  {
    sched.operations := sched.operations[id := sched.operations[id].(phase := Publishing, verdict := Succeeded)];
  }

  method RestoreSlotRoute(sched: Scheduler, id: string, route: RouteOutcome)
    requires id in sched.operations
    modifies sched
    ensures sched.View() == RestoreRoute(old(sched.View()), id, route)
  {
    hide SetupSlot, ClearSlot;
    var w := sched.operations[id];
    if w.current.Some? {
      var _ := sched.SetupSlotRouting(w.slot, w.current.value, route);
      SetPhase(sched, id, StopCandidate);
    } else {
      sched.ClearSlotRouting(w.slot, route);
      SetPhase(sched, id, UndoXray);
    }
  }

  method DeactivateSlot(sched: Scheduler, id: string, outcome: XrayTransaction.Outcome)
    requires id in sched.operations
    modifies sched
    ensures var s := old(sched.View());
      sched.View() == Goto(s.(world := XrayDrain(s.world, s.switches[id].slot, outcome).0), id, StopCandidate)
  {
    hide XrayDrain;
    var _ := sched.DrainXray(sched.operations[id].slot, outcome);
    SetPhase(sched, id, StopCandidate);
  }

  method DestroyCandidate(sched: Scheduler, id: string)
    requires id in sched.operations && sched.operations[id].candidate.Some? &&
        sched.operations[id].candidate.value in sched.tunnels
    modifies sched
    ensures sched.View() == Reject(Stop(old(sched.View()), old(sched.operations[id].candidate.value)), id)
  {
    sched.StopTunnel(sched.operations[id].candidate.value);
    Fail(sched, id);
  }

  method PublishController(sched: Scheduler, id: string)
    requires id in sched.operations
    modifies sched
    ensures sched.View() == Publish(old(sched.View()), id)
  {
    hide WithController;
    var w := sched.operations[id];
    sched.Tell(w.slot, ControllerOf(sched.View(), w.slot).(
      activeTunnel := w.candidate, state := Leases.Active, outboundActive := true));
    SetPhase(sched, id, ReleasingLease);
  }

  method ReleaseSwitchLease(sched: Scheduler, id: string)
    requires id in sched.operations
    modifies sched
    ensures sched.View() == ReleaseLease(old(sched.View()), id)
  {
    hide WithController, Leases.Release;
    var w := sched.operations[id];
    sched.Tell(w.slot, Leases.Release(ControllerOf(sched.View(), w.slot), w.lease));
    SetPhase(sched, id, ReleasingOverride);
  }

  method ReleaseSlot(sched: Scheduler, id: string)
    requires id in sched.operations
    modifies sched
    ensures sched.View() == ReleaseOverride(old(sched.View()), id)
  {
    sched.manualOverride := sched.manualOverride - {sched.operations[id].slot};
    SetPhase(sched, id, Finished);
  }

  // ---- The next region or command of a switch, and any step of anybody ----

  method AdvanceSwitch(sched: Scheduler, id: string, e: SwitchInput)
    requires Inv(sched.View()) && Steerable(sched.View(), id)
    modifies sched
    ensures sched.View() == Advance(old(sched.View()), id, e)
  {
    hide Inv, Goto, Reject, CheckTarget, StartCandidate, RouteCandidate, Verify, SwitchXrayOn, CutOver,
        Commit, RestoreRoute,
         Publish, ReleaseLease, ReleaseOverride, Stop, Preempted, CandidateDiverse, Abandon, XrayDrain;
    FitsKnown(sched.View(), id);
    InvPlaces(sched.View());
    match sched.operations[id].phase
    case Admission => if e.ok { SetPhase(sched, id, Preflight); } else { Fail(sched, id); }
    case Preflight => PreflightCheck(sched, id, e.ok);
    case FirstLeaseCheck =>
      var valid := LeaseStillValid(sched, id);
      if valid { SetPhase(sched, id, Starting); } else { Fail(sched, id); }
    case Starting => LaunchCandidate(sched, id, e.ok);
    case CandidateRouting => RouteTheCandidate(sched, id, e.route);
    case Verifying => VerifyCandidate(sched, id, e);
    case DiversityCheck =>
      var diverse := CandidateIsDiverse(sched, id);
      if diverse { SetPhase(sched, id, SecondLeaseCheck); } else { AbandonCandidate(sched, id, e.clear); }
    case SecondLeaseCheck =>
      var valid := LeaseStillValid(sched, id);
      if valid { SetPhase(sched, id, XrayOn); } else { AbandonCandidate(sched, id, e.clear); }
    case XrayOn => ActivateSlot(sched, id, e);
    case Cutover => CutOverSlot(sched, id, e);
    case Committing => CommitSwitch(sched, id, e);
    case UndoRoute => RestoreSlotRoute(sched, id, e.route);
    case UndoXray => DeactivateSlot(sched, id, e.xray);
    case StopCandidate => DestroyCandidate(sched, id);
    case Publishing => PublishController(sched, id);
    case ReleasingLease => ReleaseSwitchLease(sched, id);
    case ReleasingOverride => ReleaseSlot(sched, id);
    case Finished =>
  }

  method CrashXray(sched: Scheduler)
    modifies sched
    ensures sched.View() == Apply(old(sched.View()), XrayCrashes)
  {
    if sched.xray.Some? {
      sched.xray := Some(sched.xray.value.(runtime := {}));
    }
  }

  /** A step, if it is enabled. */
  method Perform(sched: Scheduler, step: Step)
    requires Inv(sched.View())
    modifies sched
    ensures sched.View() == Next(old(sched.View()), step)
  {
    hide Inv, Advance, ControlPlane.TransitionToDraining, Promote, SyncXray, CleanupSlot, Reserve, FireWorker,
        Enqueue, HireWorker,
         Diverse, ClearSlot, SetupSlot;
    match step
    case TunnelFails(t) => if t in sched.tunnels { sched.Mark(t, sched.tunnels[t].(state := Down)); }
    case TunnelExits(t) => if t in sched.tunnels { sched.Mark(t, sched.tunnels[t].(exited := true)); }
    case XrayCrashes => CrashXray(sched);
    case HealthCheck(slot, healthy, e) =>
      if Enabled(sched.View(), step) { sched.HealthCheckSlot(slot, healthy, e); }
    case Fill(slot, e) =>
      if Enabled(sched.View(), step) { sched.FillSlot(slot, e); }
    case Synchronise(outcome) => sched.SynchroniseXray(outcome);
    case Cleanup(slot, e) =>
      if Enabled(sched.View(), step) { sched.CleanupOne(slot, e); }
    case StartStandby(node, started, probe) =>
      if Enabled(sched.View(), step) { sched.StartStandby(node, started, probe); }
    case DropStandby(clear) =>
      if Enabled(sched.View(), step) { sched.DropStandby(clear); }
    case CommitStandby(observed, clear) =>
      if Enabled(sched.View(), step) { sched.CommitStandby(observed, clear); }
    case Request(id, slot, target, eligible) =>
      if Enabled(sched.View(), step) { var _ := sched.ReserveSlot(id, slot, target, eligible); }
    case Switching(id, e) =>
      if Enabled(sched.View(), step) { AdvanceSwitch(sched, id, e); }
  }

  /** What goes on between two regions of the switch: any steps of others. */
  method Others(sched: Scheduler, id: string, steps: seq<Step>)
    requires Inv(sched.View()) && id in sched.operations && forall k | 0 <= k < |steps| :: ByOthers(steps[k], id)
    modifies sched
    ensures sched.View() == Run(old(sched.View()), steps) && Inv(sched.View())
    ensures id in sched.operations && sched.operations[id] == old(sched.operations[id])
  {
    hide Inv, Next, Run;
    RunNone(sched.View());
    for k := 0 to |steps|
      invariant sched.View() == Run(old(sched.View()), steps[..k]) && Inv(sched.View())
      invariant id in sched.operations && sched.operations[id] == old(sched.operations[id])
    {
      OneMore(old(sched.View()), steps, k, sched.View(), id);
      Perform(sched, steps[k]);
    }
    assert steps[..|steps|] == steps;
  }

  lemma OneMore(s: State, steps: seq<Step>, k: nat, b: State, id: string)
    requires k < |steps| && b == Run(s, steps[..k]) && Inv(b) && id in b.switches && ByOthers(steps[k], id)
    ensures Run(s, steps[..k + 1]) == Next(b, steps[k]) && Inv(Next(b, steps[k]))
    ensures id in Next(b, steps[k]).switches && Next(b, steps[k]).switches[id] == b.switches[id]
  {
    hide Inv, Apply;
    assert steps[..k + 1][..k] == steps[..k];
    if Enabled(b, steps[k]) {
      StepInv(b, steps[k]);
      RecordKept(b, steps[k], id);
    }
  }

  // ---- The operation from reservation to release ----

  /** What the operation will find and what the others will do, phase by phase. */
  datatype Script = Script(inputs: Phase -> SwitchInput, others: Phase -> seq<Step>)

  ghost predicate Foreign(script: Script, id: string) {
    forall p: Phase, k: nat | k < |script.others(p)| :: ByOthers(script.others(p)[k], id)
  }

  /** What k turns of the operation play: each time the others, then the move with the input for its phase. */
  ghost function Played(s: State, id: string, script: Script, k: nat): seq<Step> {
    if k == 0 then []
    else
      var before := Played(s, id, script, k - 1);
      var b := Run(s, before);
      if id !in b.switches || b.switches[id].phase.Finished? then before
      else
        var p := b.switches[id].phase;
        before + script.others(p) + [Switching(id, script.inputs(p))]
  }

  ghost predicate InPlay(s: State, id: string, script: Script, steps: seq<Step>) {
    exists k: nat :: steps == Played(s, id, script, k)
  }

  lemma PlayStarts(s: State, id: string, script: Script)
    ensures InPlay(s, id, script, [])
  {
    assert [] == Played(s, id, script, 0);
  }

  lemma PlaysOn(s: State, id: string, script: Script, steps: seq<Step>)
    requires InPlay(s, id, script, steps) && id in Run(s, steps).switches
    requires !Run(s, steps).switches[id].phase.Finished?
    ensures var p := Run(s, steps).switches[id].phase;
      InPlay(s, id, script, steps + script.others(p) + [Switching(id, script.inputs(p))])
  {
    hide Run;
    var k: nat :| steps == Played(s, id, script, k);
    var p := Run(s, steps).switches[id].phase;
    assert Played(s, id, script, k + 1) == steps + script.others(p) + [Switching(id, script.inputs(p))];
  }

  /** How the record of a switch changes in one move of its own. */
  ghost predicate Turned(before: Switch, e: SwitchInput, after: Switch) {
    && Successor(before.phase, after.phase) && after.slot == before.slot
    && (!before.phase.Committing? && after.verdict.Succeeded? ==> before.verdict.Succeeded?)
    && (BeforeCommitting(before.phase) && after.phase == Following(before.phase) ==> Answered(before.phase, e))
  }

  /** All checks and commands before the commit have answered well. */
  predicate AllAnswered(script: Script) {
    && script.inputs(Admission).ok && script.inputs(Preflight).ok && script.inputs(Starting).ok
    && script.inputs(CandidateRouting).route.Done? && script.inputs(Verifying).ok && script.inputs(Cutover).route.Done?
  }

  /** The others run, then the next region or command of the switch. */
  method Turn(sched: Scheduler, id: string, script: Script, ghost s: State, ghost steps: seq<Step>)
      returns (ghost more: seq<Step>)
    requires Inv(sched.View()) && id in sched.operations && Unfinished(sched.operations[id]) && Foreign(script, id)
    requires sched.View() == Run(s, steps) && InPlay(s, id, script, steps)
    modifies sched
    ensures sched.View() == Run(s, more) && Inv(sched.View()) && id in sched.operations
    ensures InPlay(s, id, script, more)
    ensures Turned(old(sched.operations[id]), script.inputs(old(sched.operations[id].phase)), sched.operations[id])
    ensures sched.operations[id].phase.Finished? ==> Freed(sched.View(), sched.operations[id].slot)
  {
    hide Inv, Run, Advance, Descends, InPlay, Turned;
    var p := sched.operations[id].phase;
    Others(sched, id, script.others(p));
    ghost var before := sched.View();
    AlwaysSteerable(before, id);
    AdvanceSwitch(sched, id, script.inputs(p));
    more := steps + script.others(p) + [Switching(id, script.inputs(p))];
    PlaysOn(s, id, script, steps);
    TurnTaken(s, steps, script.others(p), before, id, script.inputs(p));
  }

  ghost predicate Freed(s: State, q: nat) {
    q !in s.override && q in s.controllers && s.controllers[q].owner == ""
  }

  lemma AlwaysSteerable(s: State, id: string)
    requires Inv(s) && id in s.switches
    ensures Steerable(s, id)
  {
    FitsKnown(s, id);
  }

  lemma TurnTaken(s: State, steps: seq<Step>, others: seq<Step>, before: State, id: string, e: SwitchInput)
    requires before == Run(Run(s, steps), others) && Inv(before) && id in before.switches
    requires Steerable(before, id) && Unfinished(before.switches[id])
    ensures var after := Advance(before, id, e);
      && after == Run(s, steps + others + [Switching(id, e)]) && Inv(after)
      && id in after.switches && Turned(before.switches[id], e, after.switches[id])
      && (after.switches[id].phase.Finished? ==> Freed(after, after.switches[id].slot))
  {
    hide Inv, Run, Advance, Freed;
    RunConcat(s, steps, others);
    RunOneMore(s, steps + others, Switching(id, e));
    SwitchingIsAdvance(before, Switching(id, e));
    StepInv(before, Switching(id, e));
    AdvanceDescends(before, id, e);
    AdvanceRecord(before, id, e);
    GatesAnswered(before, id, e);
    if Advance(before, id, e).switches[id].phase.Finished? {
      LastTurnFrees(before, id, e);
    }
  }

  lemma GatesAnswered(s: State, id: string, e: SwitchInput)
    requires Inv(s) && Steerable(s, id)
    ensures var w := s.switches[id]; var s' := Advance(s, id, e);
      && id in s'.switches
      && (!w.phase.Committing? && s'.switches[id].verdict.Succeeded? ==> w.verdict.Succeeded?)
      && (BeforeCommitting(w.phase) && s'.switches[id].phase == Following(w.phase) ==> Answered(w.phase, e))
  {
    hide Inv, Advance, Admitted;
    if s.switches[id].phase.Committing? {
      CommitPasses(s, id, e);
    } else {
      SuccessBefore(s, id, e);
    }
    if BeforeCommitting(s.switches[id].phase) { NextPhase(s, id, e); }
  }

  lemma LastTurnFrees(s: State, id: string, e: SwitchInput)
    requires Inv(s) && Steerable(s, id) && s.switches[id].phase.ReleasingOverride?
    ensures Freed(Advance(s, id, e), s.switches[id].slot)
  {
    hide Inv, Commit, CheckTarget, StartCandidate, RouteCandidate, Verify, SwitchXrayOn, CutOver, RestoreRoute, Publish,
         ReleaseLease, Abandon, XrayDrain, CandidateDiverse, Preempted;
    FitsKnown(s, id);
  }

  /** lease.Release and releaseSlot, which end every path. */
  method Finish(sched: Scheduler, id: string, script: Script, ghost s: State, ghost steps: seq<Step>)
      returns (ghost more: seq<Step>)
    requires Inv(sched.View()) && id in sched.operations && sched.operations[id].phase.ReleasingLease? &&
        Foreign(script, id)
    requires sched.View() == Run(s, steps) && InPlay(s, id, script, steps)
    modifies sched
    ensures sched.View() == Run(s, more) && InPlay(s, id, script, more)
    ensures Inv(sched.View()) && id in sched.operations && sched.operations[id].phase.Finished?
    ensures Freed(sched.View(), sched.operations[id].slot) &&
        sched.operations[id].slot == old(sched.operations[id].slot)
    ensures sched.operations[id].verdict.Succeeded? ==> old(sched.operations[id].verdict).Succeeded?
  {
    hide Inv, Run, Foreign, Freed, InPlay;
    more := Turn(sched, id, script, s, steps);
    more := Turn(sched, id, script, s, more);
  }

  /** The candidate is stopped, and the operation ends. */
  method Dispose(sched: Scheduler, id: string, script: Script, ghost s: State, ghost steps: seq<Step>)
      returns (ghost more: seq<Step>)
    requires Inv(sched.View()) && id in sched.operations && sched.operations[id].phase.StopCandidate? &&
        Foreign(script, id)
    requires sched.View() == Run(s, steps) && InPlay(s, id, script, steps)
    modifies sched
    ensures sched.View() == Run(s, more) && InPlay(s, id, script, more)
    ensures Inv(sched.View()) && id in sched.operations && sched.operations[id].phase.Finished?
    ensures Freed(sched.View(), sched.operations[id].slot) &&
        sched.operations[id].slot == old(sched.operations[id].slot)
    ensures sched.operations[id].verdict.Succeeded? ==> old(sched.operations[id].verdict).Succeeded?
  {
    hide Inv, Run, Foreign, Freed, InPlay;
    more := Turn(sched, id, script, s, steps);
    more := Finish(sched, id, script, s, more);
  }

  /** The slot's route goes back first. */
  method RollBack(sched: Scheduler, id: string, script: Script, ghost s: State, ghost steps: seq<Step>)
      returns (ghost more: seq<Step>)
    requires Inv(sched.View()) && id in sched.operations && sched.operations[id].phase.UndoRoute? && Foreign(script, id)
    requires sched.View() == Run(s, steps) && InPlay(s, id, script, steps)
    modifies sched
    ensures sched.View() == Run(s, more) && InPlay(s, id, script, more)
    ensures Inv(sched.View()) && id in sched.operations && sched.operations[id].phase.Finished?
    ensures Freed(sched.View(), sched.operations[id].slot) &&
        sched.operations[id].slot == old(sched.operations[id].slot)
    ensures sched.operations[id].verdict.Succeeded? ==> old(sched.operations[id].verdict).Succeeded?
  {
    hide Inv, Run, Foreign, Freed, InPlay;
    more := Turn(sched, id, script, s, steps);
    if sched.operations[id].phase.UndoXray? {
      more := Turn(sched, id, script, s, more);
    }
    more := Dispose(sched, id, script, s, more);
  }

  /** Everything before there is a candidate; the result says whether one was started. */
  method Prepare(sched: Scheduler, id: string, script: Script, ghost s: State)
      returns (started: bool, ghost steps: seq<Step>)
    requires Inv(sched.View()) && id in sched.operations && sched.operations[id].phase.Admission? && Foreign(script, id)
    requires sched.View() == s
    modifies sched
    ensures sched.View() == Run(s, steps) && InPlay(s, id, script, steps)
    ensures Inv(sched.View()) && id in sched.operations
    ensures sched.operations[id].phase == if started then CandidateRouting else ReleasingLease
    ensures sched.operations[id].slot == old(sched.operations[id].slot)
    ensures sched.operations[id].verdict.Succeeded? ==> old(sched.operations[id].verdict).Succeeded?
    ensures started ==> script.inputs(Admission).ok && script.inputs(Preflight).ok && script.inputs(Starting).ok
  {
    hide Inv, Run, Foreign, Freed, InPlay;
    RunNone(s);
    PlayStarts(s, id, script);
    steps := Turn(sched, id, script, s, []);
    if sched.operations[id].phase.ReleasingLease? {
      return false, steps;
    }
    steps := Turn(sched, id, script, s, steps);
    if sched.operations[id].phase.ReleasingLease? {
      return false, steps;
    }
    steps := Turn(sched, id, script, s, steps);
    if sched.operations[id].phase.ReleasingLease? {
      return false, steps;
    }
    steps := Turn(sched, id, script, s, steps);
    started := !sched.operations[id].phase.ReleasingLease?;
  }

  /** The trial of the candidate in a table of its own; the result says whether it passed. */
  method TryOut(sched: Scheduler, id: string, script: Script, ghost s: State, ghost steps: seq<Step>)
    returns (passed: bool, ghost more: seq<Step>)
    requires Inv(sched.View()) && id in sched.operations && sched.operations[id].phase.CandidateRouting? &&
        Foreign(script, id)
    requires sched.View() == Run(s, steps) && InPlay(s, id, script, steps)
    modifies sched
    ensures sched.View() == Run(s, more) && InPlay(s, id, script, more)
    ensures Inv(sched.View()) && id in sched.operations
    ensures sched.operations[id].phase == if passed then SecondLeaseCheck else StopCandidate
    ensures sched.operations[id].slot == old(sched.operations[id].slot)
    ensures sched.operations[id].verdict.Succeeded? ==> old(sched.operations[id].verdict).Succeeded?
    ensures passed ==> script.inputs(CandidateRouting).route.Done? && script.inputs(Verifying).ok
  {
    hide Inv, Run, Foreign, Freed, InPlay;
    more := Turn(sched, id, script, s, steps);
    if sched.operations[id].phase.StopCandidate? {
      return false, more;
    }
    more := Turn(sched, id, script, s, more);
    if sched.operations[id].phase.StopCandidate? {
      return false, more;
    }
    more := Turn(sched, id, script, s, more);
    passed := !sched.operations[id].phase.StopCandidate?;
  }

  /** The second lease check and the Xray activation, the last steps that leave the slot's table alone. */
  method OpenXray(sched: Scheduler, id: string, script: Script, ghost s: State, ghost steps: seq<Step>)
    returns (open: bool, ghost more: seq<Step>)
    requires Inv(sched.View()) && id in sched.operations && sched.operations[id].phase.SecondLeaseCheck? &&
        Foreign(script, id)
    requires sched.View() == Run(s, steps) && InPlay(s, id, script, steps)
    modifies sched
    ensures sched.View() == Run(s, more) && InPlay(s, id, script, more)
    ensures Inv(sched.View()) && id in sched.operations
    ensures sched.operations[id].phase == if open then Cutover else StopCandidate
    ensures sched.operations[id].slot == old(sched.operations[id].slot)
    ensures sched.operations[id].verdict.Succeeded? ==> old(sched.operations[id].verdict).Succeeded?
  {
    hide Inv, Run, Foreign, Freed, InPlay;
    more := Turn(sched, id, script, s, steps);
    if sched.operations[id].phase.StopCandidate? {
      return false, more;
    }
    more := Turn(sched, id, script, s, more);
    open := !sched.operations[id].phase.StopCandidate?;
  }

  /**
   executeManualSwitch. It plays its script to the end, and always ends with a verdict and with slot and lease free. It
   succeeds only if every check and command before the commit has answered well. Over the whole run, the steps of the
   others included, a success stands for exactly one takeover, and a failure for none.
   */
  method ExecuteManualSwitch(sched: Scheduler, id: string, script: Script)
      returns (succeeded: bool, ghost steps: seq<Step>)
    requires Inv(sched.View()) && id in sched.operations && sched.operations[id].phase.Admission? && Foreign(script, id)
    modifies sched
    ensures sched.View() == Run(old(sched.View()), steps) && Inv(sched.View())
    ensures InPlay(old(sched.View()), id, script, steps)
    ensures id in sched.operations && sched.operations[id].phase.Finished?
    ensures succeeded ==> AllAnswered(script)
    ensures sched.operations[id].verdict == if succeeded then Succeeded else Rejected
    ensures Freed(sched.View(), old(sched.operations[id].slot))
    ensures AllOrNothingSoFar(old(sched.View()), steps, id, |steps|)
  {
    hide Inv, Run, Foreign, Freed, AllOrNothingSoFar, InPlay;
    ghost var s := sched.View();
    PendingAtFirst(s, id);
    var started: bool;
    started, steps := Prepare(sched, id, script, s);
    if !started {
      steps := Finish(sched, id, script, s, steps);
    } else {
      var passed: bool;
      passed, steps := TryOut(sched, id, script, s, steps);
      if passed {
        passed, steps := OpenXray(sched, id, script, s, steps);
      }
      if !passed {
        steps := Dispose(sched, id, script, s, steps);
      } else {
        steps := CutOverAndCommit(sched, id, script, s, steps);
      }
    }
    succeeded := sched.operations[id].verdict.Succeeded?;
    VerdictGiven(sched.View(), id);
    SwitchIsAllOrNothing(s, steps, id, |steps|);
  }

  method CutOverAndCommit(sched: Scheduler, id: string, script: Script, ghost s: State, ghost steps: seq<Step>)
    returns (ghost more: seq<Step>)
    requires Inv(sched.View()) && id in sched.operations && sched.operations[id].phase.Cutover? && Foreign(script, id)
    requires sched.View() == Run(s, steps) && InPlay(s, id, script, steps)
    modifies sched
    ensures sched.View() == Run(s, more) && InPlay(s, id, script, more)
    ensures Inv(sched.View()) && id in sched.operations && sched.operations[id].phase.Finished?
    ensures Freed(sched.View(), sched.operations[id].slot) &&
        sched.operations[id].slot == old(sched.operations[id].slot)
    ensures sched.operations[id].verdict.Succeeded? && !old(sched.operations[id].verdict).Succeeded? ==>
      script.inputs(Cutover).route.Done?
  {
    hide Inv, Run, Foreign, Freed, InPlay;
    more := Turn(sched, id, script, s, steps);
    if sched.operations[id].phase.UndoRoute? {
      more := RollBack(sched, id, script, s, more);
      return;
    }
    more := Turn(sched, id, script, s, more);
    if sched.operations[id].phase.UndoRoute? {
      more := RollBack(sched, id, script, s, more);
    } else if sched.operations[id].phase.StopCandidate? {
      more := Dispose(sched, id, script, s, more);
    } else {
      more := Turn(sched, id, script, s, more);
      more := Finish(sched, id, script, s, more);
    }
  }

  lemma PendingAtFirst(s: State, id: string)
    requires Inv(s) && id in s.switches && s.switches[id].phase.Admission?
    ensures s.switches[id].verdict.Pending?
  {
    FitsKnown(s, id);
  }

  lemma VerdictGiven(s: State, id: string)
    requires Inv(s) && id in s.switches && s.switches[id].phase.Finished?
    ensures !s.switches[id].verdict.Pending?
  {
    FitsKnown(s, id);
  }
}
