/**
 What is written where: for each operation the fields, the controller and the routing
 tables as they are afterwards, in numbers. Table 100 + n is that of slot or tunnel n,
 table 200 + q the draining table of slot q; a drain times out after 30 seconds.
 */
module Commands {
  import opened Wrappers
  import opened ControlPlane
  import opened Invariant
  import opened Effects
  import opened Theorems
  import opened Runs
  import opened NodeSharing
  import opened Gates
  import Leases
  import XrayTransaction

  function Gone(t: Tunnel): Tunnel {
    Tunnel(t.node, Down, true, t.drainingSince, Stopped)
  }

  function Draining(t: Tunnel, q: nat, now: int): Tunnel {
    Tunnel(t.node, Leaving, t.exited, now, InDraining(q))
  }

  // ---- Drains ----

  /** The controller of a slot whose tunnel is drained, or retired. */
  lemma DrainTells(s: State, q: nat, t: TunnelId, e: DrainInput)
    requires t in s.tunnels && (q in s.draining ==> s.draining[q] in s.tunnels && s.draining[q] != t)
    requires q in s.controllers && !XrayRefuses(s, q, e)
    ensures var s' := TransitionToDraining(s, q, t, e); var c := s.controllers[q];
      s'.controllers == s.controllers[q :=
        if ProcessGone(s, t) then
          c.(state := Leases.Failed, activeTunnel := None, drainingTunnel := None, drainingTable := 0,
             outboundActive := false)
        else if e.route.Failed? then c
        else
          c.(state := Leases.Draining, activeTunnel := None, drainingTunnel := Some(t), drainingTable := 200 + q,
             outboundActive := false)]
  {
    hide Overwrite, Retire, LeaveSlot, Routed, ClearSlot;
    RetireTells(s.(world := ClearSlot(XrayDrain(s.world, q, e.xray).0, q, e.clear)), q, t);
    var w := Routed(XrayDrain(s.world, q, e.xray).0, BASE_DRAINING_TABLE + q, Dev(t), e.route);
    OverwriteEffect(s.(world := w), q, e.tunIP);
    LeaveTells(Overwrite(s.(world := w), q), q, t, e.tunIP, e.now);
    hide XrayDrain, XrayActivate;
  }

  lemma RetireTells(s: State, q: nat, t: TunnelId)
    requires t in s.tunnels && q in s.controllers
    ensures Retire(s, q, t).controllers == s.controllers[q := s.controllers[q].(
      state := Leases.Failed, activeTunnel := None, drainingTunnel := None, drainingTable := 0,
      outboundActive := false)]
  {
  }

  lemma LeaveTells(s: State, q: nat, t: TunnelId, tunIP: string, now: int)
    requires t in s.tunnels && q in s.controllers
    ensures LeaveSlot(s, q, t, tunIP, now).controllers == s.controllers[q := s.controllers[q].(
      state := Leases.Draining, activeTunnel := None, drainingTunnel := Some(t), drainingTable := 200 + q,
      outboundActive := false)]
  {
  }

  /** The draining table leads to the tunnel, or holds what a failed command has left; the slot's own table is kept. */
  lemma DrainRoutes(s: State, q: nat, t: TunnelId, e: DrainInput)
    requires t in s.tunnels && (q in s.draining ==> s.draining[q] in s.tunnels && s.draining[q] != t)
    requires !XrayRefuses(s, q, e)
    ensures var s' := TransitionToDraining(s, q, t, e);
      s'.world.tables ==
        if ProcessGone(s, t) then s.world.tables[100 + q := Left(e.clear, Unreachable)]
        else s.world.tables[200 + q := Left(e.route, Dev(t))]
  {
    hide Overwrite, Retire, LeaveSlot, XrayDrain, XrayActivate;
    var w1 := XrayDrain(s.world, q, e.xray).0;
    var w := Routed(w1, BASE_DRAINING_TABLE + q, Dev(t), e.route);
    DrainAnswers(s, q, e);
    ActivationKeepsTables(s.world, q, e.xray);
    ActivationKeepsTables(w, q, e.reactivate);
    RetireReach(s.(world := ClearSlot(w1, q, e.clear)), q, t);
    OverwriteEffect(s.(world := w), q, e.tunIP);
    LeaveSlotEffect(Overwrite(s.(world := w), q), q, t, e.tunIP, e.now);
  }

  lemma DrainAnswers(s: State, q: nat, e: DrainInput)
    ensures XrayDrain(s.world, q, e.xray).1 <==> !XrayRefuses(s, q, e)
  {
  }

  lemma ActivationKeepsTables(w: World, q: nat, outcome: XrayTransaction.Outcome)
    ensures XrayActivate(w, q, outcome).0.tables == w.tables && XrayDrain(w, q, outcome).0.tables == w.tables
  {
  }

  /** Preserving a replaced tunnel: refused on a slot that is still draining, undone by a failed route. */
  lemma ReplacementMeans(s: State, q: nat, t: TunnelId, route: RouteOutcome, tunIP: string, now: int)
    requires t in s.tunnels
    ensures var (s', ok) := DrainReplaced(s, q, t, route, tunIP, now);
      && ok == (q !in s.draining && route.Done?)
      && (q in s.draining ==> s' == s)
      && (q !in s.draining ==> s'.world == s.world.(tables := s.world.tables[200 + q := Left(route, Dev(t))]))
      && (!ok ==> OnlyCommands(s, s'))
      && (ok ==>
            s' == s.(tunnels := s.tunnels[t := Draining(s.tunnels[t], q, now)], draining := s.draining[q := t],
                     drainingTable := s.drainingTable[q := 200 + q], drainingIP := s.drainingIP[q := tunIP],
                     controllers := s'.controllers, world := s'.world))
      && (ok && q in s.controllers ==>
            s'.controllers == s.controllers[q :=
              s.controllers[q].(drainingTunnel := Some(t), drainingTable := 200 + q)])
  {
  }

  /** A drain ends when it is more than 30 seconds old, or its connections are known to be none. */
  ghost predicate Ends(s: State, q: nat, e: CleanupInput)
    requires q in s.draining && s.draining[q] in s.tunnels
  {
    e.now - s.tunnels[s.draining[q]].drainingSince > 30000 || e.count == Some(0)
  }

  lemma CleanupMeans(s: State, q: nat, e: CleanupInput)
    requires q in s.draining && s.draining[q] in s.tunnels
    requires q in s.drainingTable && s.drainingTable[q] == 200 + q && q in s.controllers
    ensures var s' := CleanupSlot(s, q, e); var t := s.draining[q];
      var late := e.now - s.tunnels[t].drainingSince > 30000;
      && (!Ends(s, q, e) ==> s' == s)
      && (Ends(s, q, e) ==>
            && s' == s.(tunnels := s.tunnels[t := Gone(s.tunnels[t])], draining := s.draining - {q},
                        drainingTable := s.drainingTable - {q}, drainingIP := s.drainingIP - {q},
                        controllers := s'.controllers, world := s.world.(tables := s'.world.tables))
            && s'.controllers == (if late then s.controllers
                                  else s.controllers[q := s.controllers[q].(drainingTunnel := None)])
            && s'.world.tables ==
               (if late && q !in s.active
                then s.world.tables[200 + q := Left(e.flush, Empty)][100 + q := Left(e.clear, Unreachable)]
                else s.world.tables[200 + q := Left(e.flush, Empty)]))
  {
  }

  // ---- Promotions ----

  /** The head of the queue is seated, or stopped; it leaves the queue either way. */
  lemma PromotionMeans(s: State, q: nat, e: PromoteInput)
    requires |s.standby| > 0 && s.standby[0] in s.tunnels && q in s.controllers
    ensures var s' := Promote(s, q, e); var t := s.standby[0]; var up := s.tunnels[t].state == Up;
      var seated := up && e.route.Done? &&
        (s.world.xray.None? || q in s.world.xray.value.memory || e.activate.Applied?);
      && s'.standby == s.standby[1..]
      && (seated ==>
            && s' == s.(tunnels := s.tunnels[t := s.tunnels[t].(place := InSlot(q))], active := s.active[q := t],
                        standby := s'.standby, world := s'.world,
                        controllers := s.controllers[q := s.controllers[q].(
                          activeTunnel := Some(t), state := Leases.Active, outboundActive := true)])
            && s'.world.tables == s.world.tables[100 + q := Dev(t)])
      && (!seated ==>
            && s' == s.(tunnels := s.tunnels[t := Gone(s.tunnels[t])], standby := s'.standby, world := s'.world)
            && s'.world.tables == if !up then s.world.tables
                                  else s.world.tables[100 + q := if e.route.Failed? then e.route.left
                                                                 else Left(e.clear, Unreachable)])
  {
    hide SeatHead, StopHead;
    PromotionGoesThrough(s, q, e);
    PromotionTables(s, q, e);
    PromotionWorldReach(s, q, e);
    var w := PromotionWorld(s, q, e).0;
    HeadMeans(s.(world := w), q);
    hide PromotionWorld, Promote;
  }

  lemma PromotionGoesThrough(s: State, q: nat, e: PromoteInput)
    requires |s.standby| > 0 && s.standby[0] in s.tunnels
    ensures PromotionWorld(s, q, e).1 <==>
      && s.tunnels[s.standby[0]].state == Up && e.route.Done?
      && (s.world.xray.None? || q in s.world.xray.value.memory || e.activate.Applied?)
  {
    hide SetupSlot, ClearSlot, XrayActivate;
    ActivationAnswers(SetupSlot(s.world, q, s.standby[0], e.route), q, e.activate);
    SetupKeepsXray(s.world, q, s.standby[0], e.route);
  }

  lemma SetupKeepsXray(w: World, q: nat, t: TunnelId, route: RouteOutcome)
    ensures SetupSlot(w, q, t, route).xray == w.xray
  {
  }

  lemma PromotionTables(s: State, q: nat, e: PromoteInput)
    requires |s.standby| > 0 && s.standby[0] in s.tunnels
    ensures var (w, seated) := PromotionWorld(s, q, e);
      w.tables == if s.tunnels[s.standby[0]].state != Up then s.world.tables
                  else s.world.tables[100 + q := if e.route.Failed? then e.route.left
                                                 else if seated then Dev(s.standby[0]) else Left(e.clear, Unreachable)]
  {
  }

  lemma HeadMeans(s: State, q: nat)
    requires |s.standby| > 0 && s.standby[0] in s.tunnels && q in s.controllers
    ensures var t := s.standby[0];
      && StopHead(s) == s.(tunnels := s.tunnels[t := Gone(s.tunnels[t])], standby := s.standby[1..])
      && SeatHead(s, q) == s.(tunnels := s.tunnels[t := s.tunnels[t].(place := InSlot(q))], active := s.active[q := t],
                              standby := s.standby[1..],
                              controllers := s.controllers[q := s.controllers[q].(
                                activeTunnel := Some(t), state := Leases.Active, outboundActive := true)])
  {
  }

  // ---- Health checks and synchronisation ----

  /** An active slot is drained when its tunnel is not up or its check fails, and left alone otherwise. */
  lemma HealthCheckMeans(s: State, q: nat, healthy: bool, e: DrainInput)
    requires Enabled(s, HealthCheck(q, healthy, e))
    ensures var up := s.tunnels[s.active[q]].state == Up;
      Apply(s, HealthCheck(q, healthy, e)) ==
        if up && healthy then s else TransitionToDraining(s, q, s.active[q], e)
  {
    hide TransitionToDraining;
  }

  /** Xray is told of the slots in range whose tunnel is up and not exited; nothing else happens. */
  lemma SynchroniseMeans(s: State, outcome: XrayTransaction.Outcome)
    ensures forall q: nat :: q in LiveSlots(s) <==>
      && q < s.maxActive && q in s.active && s.active[q] in s.tunnels
      && s.tunnels[s.active[q]].state == Up && !s.tunnels[s.active[q]].exited
    ensures Apply(s, Synchronise(outcome)) ==
      if s.world.xray.None? then s
      else s.(world := s.world.(xray := Some(
        XrayTransaction.SyncSlots(s.world.xray.value, LiveSlots(s), outcome).after)))
  {
    hide XrayTransaction.SyncSlots;
  }

  // ---- Standby qualification ----

  /** Every attempt takes the next number, started or not; a started tunnel has a table of its own. */
  lemma StartStandbyMeans(s: State, node: Node, started: bool, probe: RouteOutcome)
    requires Enabled(s, StartStandby(node, started, probe))
    ensures var n := s.counter + 1;
      Apply(s, StartStandby(node, started, probe)) ==
        if !started then s.(counter := n)
        else s.(counter := n, worker := Some(n), tunnels := s.tunnels[n := Tunnel(node, Up, false, 0, WithWorker)],
                world := s.world.(tables := s.world.tables[100 + n := Left(probe, Dev(n))]))
  {
  }

  /** A qualified tunnel joins the end of the queue exactly when its node keeps apart from all others. */
  lemma CommitStandbyMeans(s: State, observed: Address, clear: RouteOutcome)
    requires Enabled(s, CommitStandby(observed, clear))
    ensures var t := s.worker.value; var node := s.tunnels[t].node.(observed := observed);
      var tables := s.world.tables[100 + t := Left(clear, Unreachable)];
      Apply(s, CommitStandby(observed, clear)) ==
        if Apart(s, node, Unusable, -1)
        then s.(worker := None, standby := s.standby + [t], world := s.world.(tables := tables),
                tunnels := s.tunnels[t := s.tunnels[t].(node := node, state := Up, place := InStandby)])
        else s.(worker := None, tunnels := s.tunnels[t := Gone(s.tunnels[t])], world := s.world.(tables := tables))
  {
    var node := s.tunnels[s.worker.value].node.(observed := observed);
    DiverseMeans(s, node, observed, -1);
    ObservedIsExtra(s, node, -1);
    WorkerLeaves(s.(world := ClearSlot(s.world, s.worker.value, clear)), node);
    ClosesTable(s.world, s.worker.value, clear);
    hide Diverse, Apart, Enqueue, FireWorker, ClearSlot;
  }

  lemma WorkerLeaves(s: State, node: Node)
    requires s.worker.Some? && s.worker.value in s.tunnels
    ensures var t := s.worker.value;
      && Enqueue(s, node) == s.(worker := None, standby := s.standby + [t],
           tunnels := s.tunnels[t := s.tunnels[t].(node := node, state := Up, place := InStandby)])
      && FireWorker(s) == s.(worker := None, tunnels := s.tunnels[t := Gone(s.tunnels[t])])
  {
  }

  lemma ClosesTable(w: World, n: nat, clear: RouteOutcome)
    ensures ClearSlot(w, n, clear) == w.(tables := w.tables[100 + n := Left(clear, Unreachable)])
  {
  }

  lemma DropStandbyMeans(s: State, clear: RouteOutcome)
    requires Enabled(s, DropStandby(clear))
    ensures var t := s.worker.value;
      Apply(s, DropStandby(clear)) ==
        s.(worker := None, tunnels := s.tunnels[t := Gone(s.tunnels[t])],
           world := s.world.(tables := s.world.tables[100 + t := Left(clear, Unreachable)]))
  {
    var t := s.worker.value;
    WorkerLeaves(s.(world := ClearSlot(s.world, t, clear)), s.tunnels[t].node);
    ClosesTable(s.world, t, clear);
    hide FireWorker, ClearSlot;
  }

  // ---- Reservations ----

  /** A granted request takes the slot's next lease and its override, and records a switch that has not begun. */
  lemma RequestMeans(s: State, id: string, q: nat, target: Node, eligible: bool)
    requires Inv(s)
    ensures !Grantable(s, q, target, eligible) ==> Reserve(s, id, q, target, eligible) == s
    ensures Grantable(s, q, target, eligible) ==>
      && q in s.controllers
      && var n := s.controllers[q].generation + 1;
         Reserve(s, id, q, target, eligible) ==
           s.(controllers := s.controllers[q := s.controllers[q].(
                generation := n, owner := "manual-switch", operation := id)],
              override := s.override + {q},
              switches := s.switches[id := Switch(q, target, Leases.Lease(q, n, "manual-switch", id), Admission,
                                                  Pending, None, None, false)])
  {
    ReservableMeans(s, q, target, eligible);
    if Grantable(s, q, target, eligible) { FreeController(s, q); }
    hide Inv, Reservable, Grantable;
  }

  // ---- The moves of a switch ----

  /** The operation behind each move. */
  lemma Moves(s: State, id: string, e: SwitchInput)
    requires Steerable(s, id)
    ensures var w, s' := s.switches[id], Advance(s, id, e);
      match w.phase
      case Admission => s' == if e.ok then Goto(s, id, Preflight) else Reject(s, id)
      case Preflight => s' == CheckTarget(s, id, e.ok)
      case FirstLeaseCheck => s' == Reject(s, id) || s' == Goto(s, id, Starting)
      case Starting => s' == StartCandidate(s, id, e.ok)
      case CandidateRouting => s' == RouteCandidate(s, id, w.candidate.value, e.route)
      case Verifying => s' == Verify(s, id, w.candidate.value, e)
      case DiversityCheck => s' == Goto(s, id, SecondLeaseCheck) || s' == Abandon(s, id, e.clear)
      case SecondLeaseCheck => s' == Abandon(s, id, e.clear) || s' == Goto(s, id, XrayOn)
      case XrayOn => s' == SwitchXrayOn(s, id, e)
      case Cutover => s' == CutOver(s, id, w.candidate.value, e)
      case Committing => s' == Commit(s, id, w.candidate.value, e)
      case UndoRoute => s' == RestoreRoute(s, id, e.route)
      case UndoXray => s' == Goto(s.(world := XrayDrain(s.world, w.slot, e.xray).0), id, StopCandidate)
      case StopCandidate => s' == Reject(Stop(s, w.candidate.value), id)
      case Publishing => s' == Publish(s, id)
      case ReleasingLease => s' == ReleaseLease(s, id)
      case ReleasingOverride => s' == ReleaseOverride(s, id)
      case Finished => s' == s
  {
    hide CheckTarget, StartCandidate, RouteCandidate, Verify, Abandon, SwitchXrayOn, CutOver, Commit, RestoreRoute,
         XrayDrain, Stop, Publish, ReleaseLease, ReleaseOverride, Goto, Reject, CandidateDiverse, Preempted;
  }

  /** What a switch has on record after its move; its phase and verdict are told apart. */
  ghost predicate Recorded(s: State, s': State, id: string, e: SwitchInput)
    requires id in s.switches
  {
    var w := s.switches[id];
    && id in s'.switches && s'.switches == s.switches[id := s'.switches[id]]
    && s'.switches[id] == Switch(
         w.slot, w.target, w.lease, s'.switches[id].phase, s'.switches[id].verdict,
         if w.phase.Preflight? && e.ok then Get(s.active, w.slot) else w.current,
         if w.phase.Starting? && e.ok then Some(s.counter + 1) else w.candidate,
         w.cut || w.phase.Cutover?)
  }

  /** Most moves write the phase, and at most the verdict. */
  predicate WritesPhase(p: Phase) {
    !p.Preflight? && !p.Starting? && !p.Cutover?
  }

  lemma PhaseRecord(s: State, s1: State, id: string, p: Phase, e: SwitchInput)
    requires id in s.switches && WritesPhase(s.switches[id].phase) && s1.switches == s.switches
    ensures Recorded(s, s, id, e) && Recorded(s, Goto(s1, id, p), id, e) && Recorded(s, Reject(s1, id), id, e)
    ensures s.switches[id].candidate.Some? ==> Recorded(s, Abandon(s1, id, e.clear), id, e)
  {
    assert s.switches == s.switches[id := s.switches[id]];
    hide Routed;
  }

  lemma CheckRecord(s: State, id: string, e: SwitchInput)
    requires id in s.switches && s.switches[id].phase.Preflight?
    ensures Recorded(s, CheckTarget(s, id, e.ok), id, e)
  {
  }

  lemma StartRecord(s: State, id: string, e: SwitchInput)
    requires id in s.switches && s.switches[id].phase.Starting?
    ensures Recorded(s, StartCandidate(s, id, e.ok), id, e)
  {
  }

  lemma TrialRecord(s: State, id: string, t: TunnelId, e: SwitchInput)
    requires Steerable(s, id) && s.switches[id].candidate == Some(t) && t in s.tunnels
    ensures s.switches[id].phase.Cutover? ==> Recorded(s, CutOver(s, id, t, e), id, e)
    ensures WritesPhase(s.switches[id].phase) ==>
      Recorded(s, RouteCandidate(s, id, t, e.route), id, e) && Recorded(s, Verify(s, id, t, e), id, e)
  {
    hide Routed;
  }

  lemma LateRecord(s: State, id: string, t: TunnelId, e: SwitchInput)
    requires id in s.switches && s.switches[id].candidate == Some(t) && t in s.tunnels
    requires WritesPhase(s.switches[id].phase)
    ensures Recorded(s, SwitchXrayOn(s, id, e), id, e) && Recorded(s, RestoreRoute(s, id, e.route), id, e)
    ensures Recorded(s, Reject(Stop(s, t), id), id, e)
  {
    hide Goto, Abandon, Reject, XrayActivate, SetupSlot, ClearSlot, Recorded;
    var w := s.switches[id];
    var w1 := XrayActivate(s.world, w.slot, e.xray).0;
    PhaseRecord(s, s.(world := w1), id, Cutover, e);
    PhaseRecord(s, Stop(s, t), id, StopCandidate, e);
    if w.current.Some? {
      PhaseRecord(s, s.(world := SetupSlot(s.world, w.slot, w.current.value, e.route)), id, StopCandidate, e);
    } else {
      PhaseRecord(s, s.(world := ClearSlot(s.world, w.slot, e.route)), id, UndoXray, e);
    }
  }

  lemma ReleaseRecord(s: State, id: string, e: SwitchInput)
    requires id in s.switches && WritesPhase(s.switches[id].phase)
    ensures Recorded(s, Publish(s, id), id, e) && Recorded(s, ReleaseLease(s, id), id, e)
    ensures Recorded(s, ReleaseOverride(s, id), id, e)
  {
    EndRecord(s, id);
    hide Publish, ReleaseLease;
  }

  lemma RecordMeans(s: State, id: string, e: SwitchInput)
    requires Steerable(s, id)
    ensures Recorded(s, Advance(s, id, e), id, e)
  {
    hide Advance, Goto, Reject, CheckTarget, StartCandidate, RouteCandidate, Verify, Abandon, SwitchXrayOn, CutOver,
         Commit, RestoreRoute, Stop, Publish, ReleaseLease, ReleaseOverride, XrayDrain, Recorded;
    Moves(s, id, e);
    var w := s.switches[id];
    match w.phase
    case Admission => PhaseRecord(s, s, id, Preflight, e);
    case Preflight => CheckRecord(s, id, e);
    case FirstLeaseCheck => PhaseRecord(s, s, id, Starting, e);
    case Starting => StartRecord(s, id, e);
    case CandidateRouting => TrialRecord(s, id, w.candidate.value, e);
    case Verifying => TrialRecord(s, id, w.candidate.value, e);
    case DiversityCheck => PhaseRecord(s, s, id, SecondLeaseCheck, e);
    case SecondLeaseCheck => PhaseRecord(s, s, id, XrayOn, e);
    case XrayOn => LateRecord(s, id, w.candidate.value, e);
    case Cutover => TrialRecord(s, id, w.candidate.value, e);
    case Committing => CommitIsRecorded(s, id, e);
    case UndoRoute => LateRecord(s, id, w.candidate.value, e);
    case UndoXray => PhaseRecord(s, s.(world := XrayDrain(s.world, w.slot, e.xray).0), id, StopCandidate, e);
    case StopCandidate => LateRecord(s, id, w.candidate.value, e);
    case Publishing => ReleaseRecord(s, id, e);
    case ReleasingLease => ReleaseRecord(s, id, e);
    case ReleasingOverride => ReleaseRecord(s, id, e);
    case Finished => PhaseRecord(s, s, id, Finished, e);
  }

  lemma CommitIsRecorded(s: State, id: string, e: SwitchInput)
    requires Steerable(s, id) && s.switches[id].phase.Committing?
    ensures Recorded(s, Commit(s, id, s.switches[id].candidate.value, e), id, e)
  {
    CommitRecord(s, id, s.switches[id].candidate.value, e);
    hide Commit;
  }

  lemma CommitRecord(s: State, id: string, t: TunnelId, e: SwitchInput)
    requires id in s.switches && s.switches[id].candidate == Some(t) && t in s.tunnels
    ensures var s' := Commit(s, id, t, e);
      && id in s'.switches && s'.switches == s.switches[id := s'.switches[id]]
      && s'.switches[id] == s.switches[id].(phase := s'.switches[id].phase, verdict := s'.switches[id].verdict)
  {
    hide CandidateDiverse, DrainReplaced, SetupSlot, Goto, Succeed;
    var q := s.switches[id].slot;
    var seated := Install(s, q, t);
    CommitEnds(s, id, UndoRoute);
    CommitEnds(seated, id, UndoRoute);
    if q in s.active && s.active[q] in s.tunnels {
      DrainReplacedReach(seated, q, s.active[q], e.drainRoute, e.tunIP, e.now);
      var s1 := DrainReplaced(seated, q, s.active[q], e.drainRoute, e.tunIP, e.now).0;
      CommitEnds(s1, id, StopCandidate);
      CommitEnds(s.(world := SetupSlot(s1.world, q, s.active[q], e.route)), id, StopCandidate);
    }
  }

  lemma EndRecord(s: State, id: string)
    requires id in s.switches
    ensures Publish(s, id).switches == s.switches[id := s.switches[id].(phase := ReleasingLease)]
    ensures ReleaseLease(s, id).switches == s.switches[id := s.switches[id].(phase := ReleasingOverride)]
  {
    hide Leases.Release, WithController;
    TellingKeepsTunnels(s, s.switches[id].slot);
  }

  /** Where a switch goes when it is not before a gate. */
  function PhaseAfter(p: Phase, seated: bool, mayCommit: bool, apart: bool): Phase
    requires !BeforeCommitting(p)
  {
    match p
    case Committing => if mayCommit then Publishing else if apart then StopCandidate else UndoRoute
    case UndoRoute => if seated then StopCandidate else UndoXray
    case UndoXray => StopCandidate
    case StopCandidate => ReleasingLease
    case Publishing => ReleasingLease
    case ReleasingLease => ReleasingOverride
    case ReleasingOverride => Finished
    case Finished => Finished
  }

  lemma LaterPhase(s: State, id: string, e: SwitchInput)
    requires Inv(s) && Steerable(s, id) && !BeforeCommitting(s.switches[id].phase)
    ensures id in Advance(s, id, e).switches
    ensures var w, w' := s.switches[id], Advance(s, id, e).switches[id];
      var apart := w.phase.Committing? && Apart(s, s.tunnels[w.candidate.value].node, Unusable, w.slot);
      && w'.phase == PhaseAfter(w.phase, w.current.Some?, MayCommit(s, w, e), apart)
      && w'.verdict == (if w.phase.Committing? && MayCommit(s, w, e) then Succeeded
                        else if w.phase.StopCandidate? then Rejected else w.verdict)
  {
    hide Inv, Advance, Commit, MayCommit, XrayDrain, RestoreRoute, Publish, ReleaseLease, ReleaseOverride, Stop, Goto,
         Reject, Apart;
    Moves(s, id, e);
    var w := s.switches[id];
    match w.phase
    case Committing => CommitPhase(s, id, e);
    case UndoRoute => RestorePhase(s, id, e.route);
    case UndoXray => WrittenPhase(s.(world := XrayDrain(s.world, w.slot, e.xray).0), id, StopCandidate);
    case StopCandidate => StopPhase(s, id, w.candidate.value);
    case Publishing => EndRecord(s, id);
    case ReleasingLease => EndRecord(s, id);
    case ReleasingOverride => OverridePhase(s, id);
    case Finished =>
  }

  lemma WrittenPhase(s: State, id: string, p: Phase)
    requires id in s.switches
    ensures Goto(s, id, p).switches == s.switches[id := s.switches[id].(phase := p)]
    ensures Reject(s, id).switches == s.switches[id := s.switches[id].(phase := ReleasingLease, verdict := Rejected)]
  {
  }

  lemma OverridePhase(s: State, id: string)
    requires id in s.switches
    ensures ReleaseOverride(s, id).switches == s.switches[id := s.switches[id].(phase := Finished)]
  {
  }

  lemma StopPhase(s: State, id: string, t: TunnelId)
    requires id in s.switches && t in s.tunnels
    ensures Reject(Stop(s, t), id).switches ==
      s.switches[id := s.switches[id].(phase := ReleasingLease, verdict := Rejected)]
  {
    hide Reject;
    WrittenPhase(Stop(s, t), id, ReleasingLease);
  }

  lemma RestorePhase(s: State, id: string, route: RouteOutcome)
    requires id in s.switches
    ensures var w := s.switches[id];
      var phase := if w.current.Some? then StopCandidate else UndoXray;
      RestoreRoute(s, id, route).switches == s.switches[id := w.(phase := phase)]
  {
    hide SetupSlot, ClearSlot, Goto;
    var w := s.switches[id];
    if w.current.Some? {
      WrittenPhase(s.(world := SetupSlot(s.world, w.slot, w.current.value, route)), id, StopCandidate);
    } else {
      WrittenPhase(s.(world := ClearSlot(s.world, w.slot, route)), id, UndoXray);
    }
  }

  lemma CommitPhase(s: State, id: string, e: SwitchInput)
    requires Inv(s) && Steerable(s, id) && s.switches[id].phase.Committing?
    ensures var w := s.switches[id]; var s' := Commit(s, id, w.candidate.value, e);
      && id in s'.switches
      && s'.switches[id].phase == (if MayCommit(s, w, e) then Publishing
           else if Apart(s, s.tunnels[w.candidate.value].node, Unusable, w.slot) then StopCandidate else UndoRoute)
      && s'.switches[id].verdict == (if MayCommit(s, w, e) then Succeeded else w.verdict)
  {
    hide Inv, Commit, CandidateDiverse, Apart;
    var w := s.switches[id];
    ReplacedKnown(s, id);
    CommitEffect(s, id, w.candidate.value, e);
    CandidateDiverseMeans(s, w);
  }

  lemma ReplacedKnown(s: State, id: string)
    requires Inv(s) && Steerable(s, id) && s.switches[id].phase.Committing?
    ensures var q, t := s.switches[id].slot, s.switches[id].candidate.value;
      q in s.controllers && (q in s.active ==> s.active[q] in s.tunnels && s.active[q] != t)
  {
    FitsKnown(s, id);
    if s.switches[id].slot in s.active { ActiveKnown(s, s.switches[id].slot); }
  }

  /** The tunnels after a commit, the replaced one included. */
  function Seated(s: State, q: nat, t: TunnelId, now: int): map<TunnelId, Tunnel>
    requires t in s.tunnels && (q in s.active ==> s.active[q] in s.tunnels)
  {
    var seated := s.tunnels[t := s.tunnels[t].(place := InSlot(q))];
    if q in s.active then seated[s.active[q] := Draining(s.tunnels[s.active[q]], q, now)] else seated
  }

  /** What a commit does, by the answers of its final check and of the draining route. */
  lemma CommitEffect(s: State, id: string, t: TunnelId, e: SwitchInput)
    requires id in s.switches && s.switches[id].candidate == Some(t) && t in s.tunnels
    requires var q := s.switches[id].slot; q in s.active ==> s.active[q] in s.tunnels && s.active[q] != t
    requires s.switches[id].slot in s.controllers
    ensures var w, s' := s.switches[id], Commit(s, id, t, e); var q := w.slot;
      if !CandidateDiverse(s, w) then s' == s.(switches := s.switches[id := w.(phase := UndoRoute)])
      else if q !in s.active then
        s' == s.(tunnels := Seated(s, q, t, e.now), active := s.active[q := t],
                 switches := s.switches[id := w.(phase := Publishing, verdict := Succeeded)])
      else if q !in s.draining && e.drainRoute.Done? then
        s' == s.(tunnels := Seated(s, q, t, e.now), active := s.active[q := t],
                 draining := s.draining[q := s.active[q]], drainingTable := s.drainingTable[q := 200 + q],
                 drainingIP := s.drainingIP[q := e.tunIP],
                 controllers := s.controllers[q := s.controllers[q].(
                   drainingTunnel := Some(s.active[q]), drainingTable := 200 + q)],
                 world := s.world.(tables := s.world.tables[200 + q := Dev(s.active[q])]),
                 switches := s.switches[id := w.(phase := Publishing, verdict := Succeeded)])
      else
        s' == s.(switches := s.switches[id := w.(phase := StopCandidate)],
                 world := s.world.(tables :=
                   (if q in s.draining then s.world.tables
                    else s.world.tables[200 + q := Left(e.drainRoute, Dev(s.active[q]))])
                   [100 + q := Left(e.route, Dev(s.active[q]))]))
  {
    hide CandidateDiverse, DrainReplaced, Goto, Succeed;
    var q := s.switches[id].slot;
    var seated := Install(s, q, t);
    CommitEnds(s, id, UndoRoute);
    CommitEnds(seated, id, UndoRoute);
    if q in s.active {
      ReplacementMeans(seated, q, s.active[q], e.drainRoute, e.tunIP, e.now);
      var s1 := DrainReplaced(seated, q, s.active[q], e.drainRoute, e.tunIP, e.now).0;
      CommitEnds(s1, id, StopCandidate);
      CommitEnds(s.(world := SetupSlot(s1.world, q, s.active[q], e.route)), id, StopCandidate);
    }
  }

  lemma CommitEnds(s: State, id: string, p: Phase)
    requires id in s.switches
    ensures var w := s.switches[id];
      Succeed(s, id) == s.(switches := s.switches[id := w.(phase := Publishing, verdict := Succeeded)])
    ensures Goto(s, id, p) == s.(switches := s.switches[id := s.switches[id].(phase := p)])
  {
  }

  /** Tunnels and numbers: a candidate is started under the next number, verified, and stopped by a rollback. */
  lemma TunnelsMean(s: State, id: string, e: SwitchInput)
    requires Steerable(s, id) && !s.switches[id].phase.Committing?
    ensures var s' := Advance(s, id, e); var w := s.switches[id]; var n := s.counter + 1;
      && s'.counter == (if w.phase.Starting? then n else s.counter)
      && s'.tunnels == (match w.phase
           case Starting => if e.ok then s.tunnels[n := Tunnel(w.target, Up, false, 0, WithSwitch(id))] else s.tunnels
           case Verifying =>
             var t := w.candidate.value;
             s.tunnels[t := s.tunnels[t].(node := s.tunnels[t].node.(observed := e.observed))]
           case StopCandidate => s.tunnels[w.candidate.value := Gone(s.tunnels[w.candidate.value])]
           case Admission | Preflight | FirstLeaseCheck | CandidateRouting | DiversityCheck | SecondLeaseCheck | XrayOn
              | Cutover | Committing | Publishing | UndoRoute | UndoXray | ReleasingLease | ReleasingOverride
              | Finished => s.tunnels)
  {
    hide Advance, StartCandidate, Verify, Stop, Publish, ReleaseLease, Commit;
    var w := s.switches[id];
    if InBackground(w.phase) {
      QuietPhase(s, id, e);
    } else {
      Moves(s, id, e);
      EndCounts(s, id);
      StartCounts(s, id, e.ok);
      if w.phase.Verifying? || w.phase.StopCandidate? { TrialCounts(s, id, w.candidate.value, e); }
    }
  }

  lemma StartCounts(s: State, id: string, started: bool)
    requires id in s.switches
    ensures var s', n := StartCandidate(s, id, started), s.counter + 1;
      && s'.counter == n
      && s'.tunnels == if started then s.tunnels[n := Tunnel(s.switches[id].target, Up, false, 0, WithSwitch(id))]
                       else s.tunnels
  {
  }

  lemma TrialCounts(s: State, id: string, t: TunnelId, e: SwitchInput)
    requires Steerable(s, id) && s.switches[id].candidate == Some(t) && t in s.tunnels
    ensures Verify(s, id, t, e).counter == s.counter && Reject(Stop(s, t), id).counter == s.counter
    ensures Verify(s, id, t, e).tunnels ==
      s.tunnels[t := s.tunnels[t].(node := s.tunnels[t].node.(observed := e.observed))]
    ensures Reject(Stop(s, t), id).tunnels == s.tunnels[t := Gone(s.tunnels[t])]
  {
    hide Routed;
  }

  lemma EndCounts(s: State, id: string)
    requires id in s.switches
    ensures Publish(s, id).tunnels == s.tunnels && ReleaseLease(s, id).tunnels == s.tunnels
    ensures Publish(s, id).counter == s.counter && ReleaseLease(s, id).counter == s.counter
  {
    hide Leases.Release;
  }

  /** The slot's controller is told of the new tunnel, then freed; then the override goes. */
  lemma EndMeans(s: State, id: string, e: SwitchInput)
    requires Inv(s) && Steerable(s, id)
    requires var p := s.switches[id].phase; p.Publishing? || p.ReleasingLease? || p.ReleasingOverride?
    ensures var s' := Advance(s, id, e); var w := s.switches[id]; var q := w.slot;
      && q in s.controllers
      && s' == s.(controllers := s'.controllers, override := s'.override, switches := s'.switches)
      && s'.override == (if w.phase.ReleasingOverride? then s.override - {q} else s.override)
      && s'.controllers == (match w.phase
           case Publishing => s.controllers[q := s.controllers[q].(
             activeTunnel := w.candidate, state := Leases.Active, outboundActive := true)]
           case ReleasingLease => s.controllers[q := s.controllers[q].(owner := "", operation := "")]
           case _ => s.controllers)
  {
    FitsKnown(s, id);
    hide Inv;
  }

  // ---- The routing tables of a switch ----

  /** A candidate that is given up before the cutover has its table emptied. */
  predicate TurnsBack(p: Phase, p': Phase) {
    (p.Verifying? || p.DiversityCheck? || p.SecondLeaseCheck? || p.XrayOn?) && p'.StopCandidate?
  }

  lemma TablesMean(s: State, id: string, e: SwitchInput)
    requires Steerable(s, id) && !s.switches[id].phase.Committing?
    ensures id in Advance(s, id, e).switches
    ensures var w, s' := s.switches[id], Advance(s, id, e);
      s'.world.tables ==
        if w.phase.CandidateRouting? then
          s.world.tables[100 + w.candidate.value := Left(e.route, Dev(w.candidate.value))]
        else if TurnsBack(w.phase, s'.switches[id].phase) then
          s.world.tables[100 + w.candidate.value := Left(e.clear, Empty)]
        else if w.phase.Cutover? then
          s.world.tables[100 + w.slot := Left(e.route, Dev(w.candidate.value))]
                        [100 + w.candidate.value := Left(e.clear, Empty)]
        else if w.phase.UndoRoute? then
          s.world.tables[100 + w.slot := Left(e.route, if w.current.Some? then Dev(w.current.value) else Unreachable)]
        else s.world.tables
  {
    hide Advance, CheckTarget, StartCandidate, RouteCandidate, Verify, SwitchXrayOn, CutOver, Commit, RestoreRoute,
         XrayDrain, Publish, ReleaseLease, ReleaseOverride, Goto, Reject, Abandon, Stop, Recorded;
    Moves(s, id, e);
    RecordIsThere(s, id, e);
    var w := s.switches[id];
    match w.phase
    case CandidateRouting => RoutingTables(s, id, w.candidate.value, e);
    case Verifying => VerifyTables(s, id, w.candidate.value, e);
    case DiversityCheck => PhaseTables(s, id, SecondLeaseCheck, e.clear);
    case SecondLeaseCheck => PhaseTables(s, id, XrayOn, e.clear);
    case XrayOn => XrayTables(s, id, e);
    case Cutover => RoutingTables(s, id, w.candidate.value, e);
    case UndoRoute => RestoreTables(s, id, e.route);
    case Admission => OtherTables(s, id, e);
    case Preflight => OtherTables(s, id, e);
    case FirstLeaseCheck => OtherTables(s, id, e);
    case Starting => OtherTables(s, id, e);
    case UndoXray => OtherTables(s, id, e);
    case StopCandidate => OtherTables(s, id, e);
    case Publishing => EndTables(s, id);
    case ReleasingLease => EndTables(s, id);
    case ReleasingOverride => OtherTables(s, id, e);
    case Finished =>
  }

  lemma RecordIsThere(s: State, id: string, e: SwitchInput)
    requires Steerable(s, id)
    ensures id in Advance(s, id, e).switches
  {
    hide Advance;
    RecordMeans(s, id, e);
  }

  lemma RoutingTables(s: State, id: string, t: TunnelId, e: SwitchInput)
    requires id in s.switches
    ensures RouteCandidate(s, id, t, e.route).world.tables == s.world.tables[100 + t := Left(e.route, Dev(t))]
    ensures CutOver(s, id, t, e).world.tables ==
      s.world.tables[100 + s.switches[id].slot := Left(e.route, Dev(t))][100 + t := Left(e.clear, Empty)]
  {
  }

  lemma RestoreTables(s: State, id: string, route: RouteOutcome)
    requires id in s.switches
    ensures var w := s.switches[id];
      var intended := if w.current.Some? then Dev(w.current.value) else Unreachable;
      RestoreRoute(s, id, route).world.tables == s.world.tables[100 + w.slot := Left(route, intended)]
  {
  }

  lemma PhaseTables(s: State, id: string, p: Phase, clear: RouteOutcome)
    requires id in s.switches
    ensures id in Goto(s, id, p).switches
    ensures Goto(s, id, p).world == s.world && Goto(s, id, p).switches[id].phase == p
    ensures s.switches[id].candidate.Some? ==>
      && id in Abandon(s, id, clear).switches && Abandon(s, id, clear).switches[id].phase == StopCandidate
      && Abandon(s, id, clear).world.tables ==
           s.world.tables[100 + s.switches[id].candidate.value := Left(clear, Empty)]
  {
  }

  lemma VerifyTables(s: State, id: string, t: TunnelId, e: SwitchInput)
    requires Steerable(s, id) && s.switches[id].candidate == Some(t) && t in s.tunnels
    ensures var s' := Verify(s, id, t, e);
      && id in s'.switches && (s'.switches[id].phase.StopCandidate? <==> !e.ok)
      && s'.world.tables == if e.ok then s.world.tables else s.world.tables[100 + t := Left(e.clear, Empty)]
  {
    hide Goto, Abandon;
    var s1 := WithTunnel(s, t, s.tunnels[t].(node := s.tunnels[t].node.(observed := e.observed)));
    PhaseTables(s1, id, DiversityCheck, e.clear);
  }

  lemma XrayTables(s: State, id: string, e: SwitchInput)
    requires id in s.switches && s.switches[id].candidate.Some?
    ensures var s' := SwitchXrayOn(s, id, e);
      && id in s'.switches
      && s'.world.tables == if s'.switches[id].phase.StopCandidate?
                            then s.world.tables[100 + s.switches[id].candidate.value := Left(e.clear, Empty)]
                            else s.world.tables
  {
    hide XrayActivate, Goto, Abandon;
    ActivationKeepsTables(s.world, s.switches[id].slot, e.xray);
    PhaseTables(s.(world := XrayActivate(s.world, s.switches[id].slot, e.xray).0), id, Cutover, e.clear);
  }

  lemma OtherTables(s: State, id: string, e: SwitchInput)
    requires Steerable(s, id)
    requires match s.switches[id].phase
      case Admission | Preflight | FirstLeaseCheck | Starting | UndoXray | StopCandidate | ReleasingOverride => true
      case CandidateRouting | Verifying | DiversityCheck | SecondLeaseCheck | XrayOn | Cutover | Committing | Publishing
         | UndoRoute | ReleasingLease | Finished => false
    ensures Advance(s, id, e).world.tables == s.world.tables
  {
    hide Advance, XrayDrain, StartCandidate;
    Moves(s, id, e);
    ActivationKeepsTables(s.world, s.switches[id].slot, e.xray);
    StartTables(s, id, e.ok);
  }

  lemma StartTables(s: State, id: string, started: bool)
    requires id in s.switches
    ensures StartCandidate(s, id, started).world == s.world
  {
  }

  lemma EndTables(s: State, id: string)
    requires id in s.switches
    ensures Publish(s, id).world == s.world && ReleaseLease(s, id).world == s.world
  {
    hide Leases.Release;
  }

  // ---- The commit ----

  /** A commit seats the candidate and drains the tunnel it replaces, or leaves all maps as they were. */
  lemma CommitMeans(s: State, id: string, e: SwitchInput)
    requires Inv(s) && Steerable(s, id) && s.switches[id].phase.Committing?
    ensures var w, s' := s.switches[id], Advance(s, id, e); var q, t := w.slot, w.candidate.value;
      if !MayCommit(s, w, e) then s' == s.(switches := s'.switches, world := s'.world)
      else if q in s.active then
        && s.active[q] in s.tunnels && q in s.controllers
        && s' == s.(tunnels := Seated(s, q, t, e.now), active := s.active[q := t],
                    draining := s.draining[q := s.active[q]], drainingTable := s.drainingTable[q := 200 + q],
                    drainingIP := s.drainingIP[q := e.tunIP],
                    controllers := s.controllers[q := s.controllers[q].(
                      drainingTunnel := Some(s.active[q]), drainingTable := 200 + q)],
                    world := s.world.(tables := s.world.tables[200 + q := Dev(s.active[q])]),
                    switches := s'.switches)
      else s' == s.(tunnels := Seated(s, q, t, e.now), active := s.active[q := t], switches := s'.switches)
  {
    hide Inv, Advance, Commit, CandidateDiverse, Apart, Seated;
    var w := s.switches[id];
    ReplacedKnown(s, id);
    CommitEffect(s, id, w.candidate.value, e);
    CandidateDiverseMeans(s, w);
    AdvanceIsCommit(s, id, e);
  }

  /** A commit that fails because the replaced tunnel cannot be preserved points the slot back at that tunnel. */
  lemma FailedCommitTables(s: State, id: string, e: SwitchInput)
    requires Inv(s) && Steerable(s, id) && s.switches[id].phase.Committing? && !MayCommit(s, s.switches[id], e)
    ensures var w, s' := s.switches[id], Advance(s, id, e); var q := w.slot;
      if !Apart(s, s.tunnels[w.candidate.value].node, Unusable, q) then s'.world == s.world
      else
        && q in s.active && s'.world.xray == s.world.xray
        && s'.world.tables ==
           (if q in s.draining then s.world.tables
            else s.world.tables[200 + q := Left(e.drainRoute, Dev(s.active[q]))])
           [100 + q := Left(e.route, Dev(s.active[q]))]
  {
    hide Inv, Advance, Commit, CandidateDiverse, Apart, Seated;
    var w := s.switches[id];
    ReplacedKnown(s, id);
    CommitEffect(s, id, w.candidate.value, e);
    CandidateDiverseMeans(s, w);
    AdvanceIsCommit(s, id, e);
  }

  // ---- The node that was asked for ----

  /** The candidate of a switch carries its target, whatever address was observed at its exit since. */
  ghost predicate CarriesTarget(s: State, id: string) {
    id in s.switches && (HoldsCandidate(s.switches[id]) || s.switches[id].verdict.Succeeded?) ==>
      && s.switches[id].candidate.Some? && s.switches[id].candidate.value in s.tunnels
      && SameNode(s.tunnels[s.switches[id].candidate.value].node, s.switches[id].target)
  }

  lemma OwnMoveCarries(s: State, id: string, e: SwitchInput)
    requires Inv(s) && Steerable(s, id) && CarriesTarget(s, id) && NodesKept(s, Advance(s, id, e))
    ensures CarriesTarget(Advance(s, id, e), id)
  {
    hide Inv, Advance;
    RecordMeans(s, id, e);
    var w := s.switches[id];
    if w.phase.Starting? {
      TunnelsMean(s, id, e);
      StartingEnds(s, id, e);
    } else {
      HeldBefore(s, id, e);
    }
  }

  /** A failed start leaves no candidate to speak of. */
  lemma StartingEnds(s: State, id: string, e: SwitchInput)
    requires Inv(s) && Steerable(s, id) && s.switches[id].phase.Starting? && id in Advance(s, id, e).switches
    ensures var w' := Advance(s, id, e).switches[id]; !e.ok ==> !HoldsCandidate(w') && !w'.verdict.Succeeded?
  {
    hide Inv, Advance;
    NextPhase(s, id, e);
    SuccessBefore(s, id, e);
    EarlyIsPending(s, id);
  }

  lemma HeldBefore(s: State, id: string, e: SwitchInput)
    requires Inv(s) && Steerable(s, id) && !s.switches[id].phase.Starting? && id in Advance(s, id, e).switches
    ensures var w, w' := s.switches[id], Advance(s, id, e).switches[id];
      HoldsCandidate(w') || w'.verdict.Succeeded? ==> HoldsCandidate(w) || w.verdict.Succeeded?
  {
    hide Inv, Advance, Passes, MayCommit, Apart;
    if BeforeCommitting(s.switches[id].phase) {
      NextPhase(s, id, e);
      SuccessBefore(s, id, e);
    } else {
      LaterPhase(s, id, e);
    }
  }

  lemma StepCarries(s: State, step: Step, id: string)
    requires Inv(s) && CarriesTarget(s, id) && (id !in s.switches ==> step.Request? || id !in Next(s, step).switches)
    ensures CarriesTarget(Next(s, step), id)
  {
    if Enabled(s, step) {
      StepKeepsNodes(s, step);
      if step.Switching? { SwitchingIsAdvance(s, step); }
      hide Inv, Apply, Advance;
      if step.Switching? && step.id == id {
        OwnMoveCarries(s, id, step.input);
      } else if id in s.switches {
        RecordKept(s, step, id);
      } else if step.Request? {
        RequestIsNew(s, step, id);
      }
    }
  }

  lemma RequestIsNew(s: State, step: Step, id: string)
    requires step.Request? && Enabled(s, step) && id !in s.switches
    ensures id in Apply(s, step).switches ==>
      !HoldsCandidate(Apply(s, step).switches[id]) && Apply(s, step).switches[id].verdict.Pending?
  {
    hide Reservable;
  }

  /** Switches come from requests only. */
  lemma NewRecord(s: State, step: Step, id: string)
    requires Inv(s) && id !in s.switches && !step.Request?
    ensures id !in Next(s, step).switches
  {
    hide Inv, Advance, TransitionToDraining, Promote, CleanupSlot, FireWorker, Enqueue, HireWorker, SyncXray;
    if Enabled(s, step) {
      match step
      case HealthCheck(p, _, e) => HealthCheckKeepsSwitches(s, p, e);
      case Fill(p, e) => FillKeepsSwitches(s, p, e);
      case Cleanup(p, e) => CleanupKnown(s, p); CleanupReach(s, p, e);
      case StartStandby(_, _, _) => StandbyKeepsSwitches(s, step);
      case DropStandby(_) => StandbyKeepsSwitches(s, step);
      case CommitStandby(_, _) => StandbyKeepsSwitches(s, step);
      case Switching(other, e) => AdvanceRecord(s, other, e);
      case TunnelFails(_) =>
      case TunnelExits(_) =>
      case XrayCrashes =>
      case Synchronise(outcome) => SyncKeepsSwitches(s, outcome);
    }
  }

  lemma SyncKeepsSwitches(s: State, outcome: XrayTransaction.Outcome)
    ensures SyncXray(s, outcome).switches == s.switches
  {
    hide LiveSlots, XrayTransaction.SyncSlots;
  }

  /** In every run: a switch that has succeeded has given its slot a tunnel of the node that was asked for. */
  lemma {:induction false} RunCarriesTarget(s: State, steps: seq<Step>, id: string, n: nat)
    requires Inv(s) && id !in s.switches && n <= |steps|
    ensures CarriesTarget(Before(s, steps, n), id)
  {
    hide Inv, Next, Run, CarriesTarget;
    if n == 0 {
      assert steps[..0] == [];
      RunNone(s);
      NoRecord(s, id);
    } else {
      RunCarriesTarget(s, steps, id, n - 1);
      BeforeInv(s, steps, n - 1);
      BeforeNext(s, steps, n - 1);
      var b := Before(s, steps, n - 1);
      if id !in b.switches && !steps[n - 1].Request? { NewRecord(b, steps[n - 1], id); }
      StepCarries(b, steps[n - 1], id);
    }
  }

  lemma NoRecord(s: State, id: string)
    requires id !in s.switches
    ensures CarriesTarget(s, id)
  {
  }
}
