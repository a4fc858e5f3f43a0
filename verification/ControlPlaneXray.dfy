/**
 The control plane refines the Xray transaction: projected on the supervisor, a run
 of the control plane is a run of XrayTransaction, so the runtime never routes more
 than the supervisor remembers, and a reconcile that synchronises leaves exactly the
 live active slots routed.
 */
module XrayProjection {
  import opened Wrappers
  import opened ControlPlane
  import opened Invariant
  import opened Effects
  import opened Theorems
  import opened Runs
  import XrayTransaction

  /** The transactions a step issues to the Xray supervisor. */
  function XrayEvents(s: State, step: Step): seq<XrayTransaction.Event>
    requires Enabled(s, step)
  {
    match step
    case XrayCrashes => [XrayTransaction.Crash]
    case Synchronise(outcome) => [XrayTransaction.Sync(LiveSlots(s), outcome)]
    case HealthCheck(q, healthy, e) =>
      if s.tunnels[s.active[q]].state == Up && healthy then []
      else if s.tunnels[s.active[q]].state == Up && !s.tunnels[s.active[q]].exited && e.route.Failed? &&
          !XrayRejects(s, q, e)
      then [XrayTransaction.Drain(q, e.xray), XrayTransaction.Activate(q, e.reactivate)]
      else [XrayTransaction.Drain(q, e.xray)]
    case Fill(q, e) =>
      if s.tunnels[s.standby[0]].state != Up || e.route.Failed? then [] else [XrayTransaction.Activate(q, e.activate)]
    case Switching(id, e) =>
      var w := s.switches[id];
      if w.phase.XrayOn? then [XrayTransaction.Activate(w.slot, e.xray)]
      else if w.phase.UndoXray? then [XrayTransaction.Drain(w.slot, e.xray)]
      else []
    case TunnelFails(_) | TunnelExits(_) | Cleanup(_, _) | StartStandby(_, _, _) | DropStandby(_) | CommitStandby(_, _)
       | Request(_, _, _, _) => []
  }

  predicate XrayRejects(s: State, q: nat, e: DrainInput) {
    s.world.xray.Some? && q in s.world.xray.value.memory && !e.xray.Applied?
  }

  function After(xray: Option<XrayTransaction.Xray>, events: seq<XrayTransaction.Event>): Option<XrayTransaction.Xray> {
    match xray
    case None => None
    case Some(x) => Some(XrayTransaction.Run(x, events))
  }

  lemma RunOne(x: XrayTransaction.Xray, a: XrayTransaction.Event)
    ensures XrayTransaction.Run(x, []) == x && XrayTransaction.Run(x, [a]) == XrayTransaction.Step(x, a)
  {
    assert [a][..0] == [];
  }

  lemma RunTwo(x: XrayTransaction.Xray, a: XrayTransaction.Event, b: XrayTransaction.Event)
    ensures XrayTransaction.Run(x, [a, b]) == XrayTransaction.Step(XrayTransaction.Step(x, a), b)
  {
    assert [a, b][..1] == [a];
    RunOne(x, a);
  }

  // ---- One step ----

  lemma DrainProjects(s: State, q: nat, t: TunnelId, e: DrainInput)
    requires t in s.tunnels && (q in s.draining ==> s.draining[q] in s.tunnels)
    ensures var x' := TransitionToDraining(s, q, t, e).world.xray;
      if s.tunnels[t].state == Up && !s.tunnels[t].exited && e.route.Failed? && !XrayRejects(s, q, e)
      then x' == After(s.world.xray, [XrayTransaction.Drain(q, e.xray), XrayTransaction.Activate(q, e.reactivate)])
      else x' == After(s.world.xray, [XrayTransaction.Drain(q, e.xray)])
  {
    hide Retire, LeaveSlot, Overwrite, XrayTransaction.Run;
    RetireKeepsWorld(s.(world := ClearSlot(XrayDrain(s.world, q, e.xray).0, q, e.clear)), q, t);
    var w2 := Routed(XrayDrain(s.world, q, e.xray).0, BASE_DRAINING_TABLE + q, Dev(t), e.route);
    LeaveKeepsWorld(s.(world := w2), q, t, e.tunIP, e.now);
    if s.world.xray.Some? {
      RunOne(s.world.xray.value, XrayTransaction.Drain(q, e.xray));
      RunTwo(s.world.xray.value, XrayTransaction.Drain(q, e.xray), XrayTransaction.Activate(q, e.reactivate));
    }
  }

  lemma RetireKeepsWorld(s: State, q: nat, t: TunnelId)
    requires t in s.tunnels
    ensures Retire(s, q, t).world == s.world
  {
  }

  lemma LeaveKeepsWorld(s: State, q: nat, t: TunnelId, tunIP: string, now: int)
    requires t in s.tunnels && (q in s.draining ==> s.draining[q] in s.tunnels)
    ensures t in Overwrite(s, q).tunnels && LeaveSlot(Overwrite(s, q), q, t, tunIP, now).world == s.world
  {
  }

  lemma FillProjects(s: State, q: nat, e: PromoteInput)
    requires |s.standby| > 0 && s.standby[0] in s.tunnels
    ensures Promote(s, q, e).world.xray ==
              if s.tunnels[s.standby[0]].state != Up || e.route.Failed? then s.world.xray
              else After(s.world.xray, [XrayTransaction.Activate(q, e.activate)])
  {
    hide XrayTransaction.Run, NothingLost;
    if s.world.xray.Some? {
      RunOne(s.world.xray.value, XrayTransaction.Activate(q, e.activate));
    }
    HeadKeepsWorld(s, q, e);
  }

  lemma HeadKeepsWorld(s: State, q: nat, e: PromoteInput)
    requires |s.standby| > 0 && s.standby[0] in s.tunnels
    ensures Promote(s, q, e).world == PromotionWorld(s, q, e).0
  {
    hide StopHead, SeatHead, TablesConfined;
    PromotionWorldReach(s, q, e);
    var w := PromotionWorld(s, q, e).0;
    HeadWorld(s.(world := w), q);
  }

  lemma HeadWorld(s: State, q: nat)
    requires |s.standby| > 0 && s.standby[0] in s.tunnels
    ensures StopHead(s).world == s.world && SeatHead(s, q).world == s.world
  {
  }

  lemma SyncProjects(s: State, outcome: XrayTransaction.Outcome)
    ensures SyncXray(s, outcome).world.xray == After(s.world.xray, [XrayTransaction.Sync(LiveSlots(s), outcome)])
  {
    hide LiveSlots, XrayTransaction.Run, XrayTransaction.SyncSlots;
    if s.world.xray.Some? {
      RunOne(s.world.xray.value, XrayTransaction.Sync(LiveSlots(s), outcome));
    }
  }

  lemma CrashProjects(s: State)
    ensures Apply(s, XrayCrashes).world.xray == After(s.world.xray, [XrayTransaction.Crash])
  {
    hide XrayTransaction.Run;
    if s.world.xray.Some? {
      RunOne(s.world.xray.value, XrayTransaction.Crash);
    }
  }

  lemma SwitchOnProjects(s: State, id: string, e: SwitchInput)
    requires Steerable(s, id) && s.switches[id].phase.XrayOn?
    ensures Advance(s, id, e).world.xray == After(s.world.xray, [XrayTransaction.Activate(s.switches[id].slot, e.xray)])
  {
    hide XrayTransaction.Run, CandidateDiverse, Preempted, Commit, CheckTarget, Verify, CutOver, RestoreRoute, Publish,
         ReleaseLease, StartCandidate, RouteCandidate, ReleaseOverride;
    if s.world.xray.Some? {
      RunOne(s.world.xray.value, XrayTransaction.Activate(s.switches[id].slot, e.xray));
    }
  }

  lemma UndoProjects(s: State, id: string, e: SwitchInput)
    requires Steerable(s, id) && s.switches[id].phase.UndoXray?
    ensures Advance(s, id, e).world.xray == After(s.world.xray, [XrayTransaction.Drain(s.switches[id].slot, e.xray)])
  {
    hide XrayTransaction.Run, CandidateDiverse, Preempted, Commit, CheckTarget, Verify, CutOver, RestoreRoute, Publish,
         ReleaseLease, StartCandidate, RouteCandidate, ReleaseOverride, SwitchXrayOn;
    if s.world.xray.Some? {
      RunOne(s.world.xray.value, XrayTransaction.Drain(s.switches[id].slot, e.xray));
    }
  }

  lemma AdvanceProjects(s: State, id: string, e: SwitchInput)
    requires Inv(s) && Steerable(s, id)
    ensures Advance(s, id, e).world.xray == After(s.world.xray, XrayEvents(s, Switching(id, e)))
  {
    hide Inv, Advance, Commit, CommitWrites, XrayTransaction.Run, CommitWrites;
    FitsKnown(s, id);
    if s.world.xray.Some? {
      RunOne(s.world.xray.value, XrayTransaction.Crash);
    }
    if s.switches[id].phase.Committing? {
      AdvanceIsCommit(s, id, e);
      CommitTables(s, id, s.switches[id].candidate.value, e);
      WritesKeepXray(s, Advance(s, id, e), id, s.switches[id].slot, e.route);
    } else if s.switches[id].phase.XrayOn? {
      SwitchOnProjects(s, id, e);
    } else if s.switches[id].phase.UndoXray? {
      UndoProjects(s, id, e);
    } else {
      AdvanceReach(s, id, e);
    }
  }

  lemma WritesKeepXray(s: State, s': State, id: string, q: nat, route: RouteOutcome)
    requires CommitWrites(s, s', id, q, route)
    ensures s'.world.xray == s.world.xray
  {
  }

  lemma NoEvents(xray: Option<XrayTransaction.Xray>)
    ensures After(xray, []) == xray
  {
  }

  lemma LeaveDrainingKeepsXray(s: State, q: nat, flush: RouteOutcome)
    requires q in s.draining && s.draining[q] in s.tunnels
    ensures LeaveDraining(s, q, flush).world.xray == s.world.xray
  {
  }

  lemma CleanupKeepsXray(s: State, q: nat, e: CleanupInput)
    requires q in s.draining && s.draining[q] in s.tunnels
    ensures CleanupSlot(s, q, e).world.xray == s.world.xray
  {
    hide LeaveDraining;
    LeaveDrainingKeepsXray(s, q, e.flush);
  }

  lemma StandbyKeepsXray(s: State, step: Step)
    requires Inv(s) && Enabled(s, step) && (step.StartStandby? || step.DropStandby? || step.CommitStandby?)
    ensures Apply(s, step).world.xray == s.world.xray
  {
    hide Apply;
    StandbyReach(s, step);
  }

  /** Every step is, for the supervisor, the transactions it issues. */
  lemma StepProjects(s: State, step: Step)
    requires Inv(s) && Enabled(s, step)
    ensures Apply(s, step).world.xray == After(s.world.xray, XrayEvents(s, step))
  {
    hide Inv, Advance, TransitionToDraining, Promote, SyncXray, CleanupSlot, Reserve, FireWorker, Enqueue, HireWorker,
        After, LiveSlots;
    NoEvents(s.world.xray);
    match step
    case TunnelFails(_) =>
    case TunnelExits(_) =>
    case XrayCrashes => CrashProjects(s);
    case HealthCheck(q, _, e) => DrainProjects(s, q, s.active[q], e);
    case Fill(q, e) => FillProjects(s, q, e);
    case Synchronise(outcome) => SyncProjects(s, outcome);
    case Cleanup(q, e) => CleanupKeepsXray(s, q, e);
    case StartStandby(_, _, _) => StandbyKeepsXray(s, step);
    case DropStandby(_) => StandbyKeepsXray(s, step);
    case CommitStandby(_, _) => StandbyKeepsXray(s, step);
    case Request(id, p, target, eligible) => ReserveReach(s, id, p, target, eligible);
    case Switching(id, e) => AdvanceProjects(s, id, e);
  }

  // ---- Whole runs ----

  function Trace(s: State, steps: seq<Step>, n: nat): seq<XrayTransaction.Event>
    requires n <= |steps|
  {
    if n == 0 then []
    else
      var b := Before(s, steps, n - 1);
      Trace(s, steps, n - 1) + if Enabled(b, steps[n - 1]) then XrayEvents(b, steps[n - 1]) else []
  }

  lemma {:induction false} RunAppend(x: XrayTransaction.Xray, a: seq<XrayTransaction.Event>,
      b: seq<XrayTransaction.Event>)
    ensures XrayTransaction.Run(x, a + b) == XrayTransaction.Run(XrayTransaction.Run(x, a), b)
    decreases |b|
  {
    if b == [] {
      assert a + b == a;
    } else {
      var b' := b[..|b| - 1];
      assert (a + b)[..|a + b| - 1] == a + b';
      RunAppend(x, a, b');
    }
  }

  lemma AfterAppend(xray: Option<XrayTransaction.Xray>, a: seq<XrayTransaction.Event>, b: seq<XrayTransaction.Event>)
    ensures After(After(xray, a), b) == After(xray, a + b)
  {
    if xray.Some? {
      RunAppend(xray.value, a, b);
    }
  }

  /** A run of the control plane is a run of the Xray transaction. */
  lemma {:induction false} RunProjects(s: State, steps: seq<Step>, n: nat)
    requires Inv(s) && n <= |steps|
    ensures Before(s, steps, n).world.xray == After(s.world.xray, Trace(s, steps, n))
  {
    hide Inv, Run, Apply, Enabled, XrayEvents, After;
    if n == 0 {
      RunNothing(s, steps);
      NoEvents(s.world.xray);
    } else {
      RunProjects(s, steps, n - 1);
      BeforeInv(s, steps, n - 1);
      BeforeNext(s, steps, n - 1);
      var b := Before(s, steps, n - 1);
      if Enabled(b, steps[n - 1]) {
        StepProjects(b, steps[n - 1]);
        AfterAppend(s.world.xray, Trace(s, steps, n - 1), XrayEvents(b, steps[n - 1]));
      } else {
        assert Trace(s, steps, n - 1) + [] == Trace(s, steps, n - 1);
      }
    }
  }

  /** When every rollback in the run succeeds, the runtime routes only slots the supervisor remembers as active. */
  lemma RuntimeContained(s: State, steps: seq<Step>, n: nat)
    requires Inv(s) && n <= |steps| && s.world.xray.Some? && XrayTransaction.Contained(s.world.xray.value)
    requires forall k :: 0 <= k < |Trace(s, steps, n)| ==> XrayTransaction.RollsBack(Trace(s, steps, n)[k])
    ensures var x := Before(s, steps, n).world.xray;
      x.Some? && XrayTransaction.Contained(x.value) && x.value.slotCount == s.world.xray.value.slotCount
  {
    hide Inv, Run, Trace, XrayTransaction.Run;
    RunProjects(s, steps, n);
    XrayTransaction.RunKeepsContained(s.world.xray.value, Trace(s, steps, n));
  }

  /** A reconcile whose synchronisation succeeds leaves exactly the slots with a live tunnel routed and remembered. */
  lemma SyncIsExact(s: State)
    requires Inv(s) && s.world.xray.Some? && s.world.xray.value.slotCount >= s.maxActive
    ensures var x := SyncXray(s, XrayTransaction.Applied).world.xray;
      && x.Some?
      && (forall q: nat :: q in x.value.runtime <==> q in s.active && Live(s, q))
      && (forall q: nat | q < s.maxActive :: q in x.value.memory <==> q in s.active && Live(s, q))
  {
    forall q | q in s.active ensures q < s.maxActive {}
    hide Inv;
  }
}
