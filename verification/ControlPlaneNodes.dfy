/**
 One node on two slots: the reservation of a switch looks for its node among the
 active tunnels, and nothing looks again when a tunnel is given its slot. A node
 stays on one slot exactly as long as no tunnel is seated next to another of its
 node.
 */
module NodeSharing {
  import opened Wrappers
  import opened ControlPlane
  import opened Invariant
  import opened Effects
  import opened Theorems
  import opened Runs
  import Leases
  import XrayTransaction

  /** Slot q has a tunnel of this node. */
  ghost predicate SeatedNode(s: State, q: nat, node: string) {
    q in s.active && s.active[q] in s.tunnels && s.tunnels[s.active[q]].node.id == node
  }

  /** No two active slots carry one node. */
  ghost predicate NodesApart(s: State) {
    forall p, q, node | SeatedNode(s, p, node) && SeatedNode(s, q, node) :: p == q
  }

  /** A slot other than q carries the node. */
  ghost predicate Elsewhere(s: State, q: nat, node: string) {
    exists p :: p != q && SeatedNode(s, p, node)
  }

  /** The commit of a switch goes through: the /24 check passes and the tunnel it replaces, if any, can be preserved. */
  predicate Commits(s: State, id: string, e: SwitchInput)
    requires Steerable(s, id)
  {
    && s.switches[id].phase.Committing? && CandidateDiverse(s, s.switches[id])
    && (s.switches[id].slot in s.active ==> s.switches[id].slot !in s.draining && e.drainRoute.Done?)
  }

  /** The step gives a slot a tunnel whose node another slot already carries. */
  ghost predicate SeatsTwice(s: State, step: Step)
    requires Enabled(s, step)
  {
    match step
    case Fill(q, e) => PromotionWorld(s, q, e).1 && Elsewhere(s, q, s.tunnels[s.standby[0]].node.id)
    case Switching(id, e) =>
      Commits(s, id, e) && Elsewhere(s, s.switches[id].slot, s.tunnels[s.switches[id].candidate.value].node.id)
    case TunnelFails(_) | TunnelExits(_) | XrayCrashes | HealthCheck(_, _, _) | Synchronise(_) | Cleanup(_, _)
       | StartStandby(_, _, _) | DropStandby(_) | CommitStandby(_, _) | Request(_, _, _, _) => false
  }

  // ---- Seating and unseating ----

  predicate SameNode(a: Node, b: Node) {
    a.id == b.id && a.ip == b.ip
  }

  /** Tunnels do not change their node; only the address observed at its exit may be learnt. */
  ghost predicate NodesKept(s: State, s': State) {
    forall t | t in s.tunnels :: t in s'.tunnels && SameNode(s'.tunnels[t].node, s.tunnels[t].node)
  }

  ghost predicate ActiveKnownTunnels(s: State) {
    forall q | q in s.active :: s.active[q] in s.tunnels
  }

  lemma InvKnowsActive(s: State)
    requires Inv(s)
    ensures ActiveKnownTunnels(s)
  {
    forall q | q in s.active ensures s.active[q] in s.tunnels { ActiveKnown(s, q); }
  }

  ghost predicate NoNewSeat(s: State, s': State) {
    NodesKept(s, s') && forall q | q in s'.active :: q in s.active && s'.active[q] == s.active[q]
  }

  lemma UnseatingKeepsApart(s: State, s': State)
    requires NodesApart(s) && ActiveKnownTunnels(s) && NoNewSeat(s, s')
    ensures NodesApart(s')
  {
    forall p, node | SeatedNode(s', p, node) ensures SeatedNode(s, p, node) {}
  }

  lemma SeatingKeepsApart(s: State, s': State, q: nat, t: TunnelId)
    requires NodesApart(s) && ActiveKnownTunnels(s) && NodesKept(s, s')
    requires t in s.tunnels && s'.active == s.active[q := t]
    ensures NodesApart(s') <==> !Elsewhere(s, q, s.tunnels[t].node.id)
  {
    var node := s.tunnels[t].node.id;
    assert SeatedNode(s', q, node);
    forall p, n | p != q ensures SeatedNode(s', p, n) <==> SeatedNode(s, p, n) {}
    if Elsewhere(s, q, node) {
      var p :| p != q && SeatedNode(s, p, node);
      assert SeatedNode(s', p, node);
    } else {
      forall p, r, n | SeatedNode(s', p, n) && SeatedNode(s', r, n) ensures p == r {
        assert p != q ==> SeatedNode(s, p, n);
        assert r != q ==> SeatedNode(s, r, n);
      }
    }
  }

  // ---- Steps that seat nobody ----

  lemma HealthCheckUnseats(s: State, q: nat, healthy: bool, e: DrainInput)
    requires Inv(s) && Enabled(s, HealthCheck(q, healthy, e))
    ensures NoNewSeat(s, Apply(s, HealthCheck(q, healthy, e)))
  {
    hide Inv, TransitionToDraining, NodesKept;
    DrainingApart(s, q);
    NodesSame(s, s);
    DrainReach(s, q, s.active[q], e);
    DrainKeepsNodes(s, q, s.active[q], e);
    DrainSeatsNobody(s, TransitionToDraining(s, q, s.active[q], e), q);
  }

  lemma DrainSeatsNobody(s: State, s': State, q: nat)
    requires DrainReached(s, s', q)
    ensures forall p | p in s'.active :: p in s.active && s'.active[p] == s.active[p]
  {
    forall p | p in s'.active ensures p in s.active && s'.active[p] == s.active[p] {
      if p != q { assert Get(s'.active, p) == Get(s.active, p); }
    }
  }

  lemma DrainKeepsNodes(s: State, q: nat, t: TunnelId, e: DrainInput)
    requires t in s.tunnels && (q in s.draining ==> s.draining[q] in s.tunnels)
    ensures NodesKept(s, TransitionToDraining(s, q, t, e))
  {
    hide Retire, LeaveSlot, Overwrite, NodesKept, WithTunnel, Routed, XrayDrain, XrayActivate;
    var (w1, ok) := XrayDrain(s.world, q, e.xray);
    var closed, w2 := ClearSlot(w1, q, e.clear), Routed(w1, BASE_DRAINING_TABLE + q, Dev(t), e.route);
    NodesSame(s, s.(world := w1));
    RetireKeepsNodes(s.(world := closed), q, t);
    OnlyWorld(s, closed, Retire(s.(world := closed), q, t));
    StateKeepsNodes(s, t, XrayActivate(w2, q, e.reactivate).0);
    LeaveKeepsNodes(s.(world := w2), q, t, e.tunIP, e.now);
    OnlyWorld(s, w2, LeaveSlot(Overwrite(s.(world := w2), q), q, t, e.tunIP, e.now));
  }

  lemma StateKeepsNodes(s: State, t: TunnelId, w: World)
    requires t in s.tunnels
    ensures NodesKept(s, WithTunnel(s, t, s.tunnels[t].(state := Up, drainingSince := 0)).(world := w))
  {
  }

  lemma RetireKeepsNodes(s: State, q: nat, t: TunnelId)
    requires t in s.tunnels
    ensures NodesKept(s, Retire(s, q, t))
  {
  }

  lemma LeaveKeepsNodes(s: State, q: nat, t: TunnelId, tunIP: string, now: int)
    requires t in s.tunnels && (q in s.draining ==> s.draining[q] in s.tunnels)
    ensures t in Overwrite(s, q).tunnels && NodesKept(s, LeaveSlot(Overwrite(s, q), q, t, tunIP, now))
  {
  }

  lemma CleanupSeatsNobody(s: State, q: nat, e: CleanupInput)
    requires q in s.draining && s.draining[q] in s.tunnels
    ensures NoNewSeat(s, CleanupSlot(s, q, e))
  {
    hide LeaveDraining;
    EndOfDrain(s, q, e.flush);
  }

  lemma EndOfDrain(s: State, q: nat, flush: RouteOutcome)
    requires q in s.draining && s.draining[q] in s.tunnels
    ensures LeaveDraining(s, q, flush).active == s.active && NodesKept(s, LeaveDraining(s, q, flush))
  {
  }

  lemma StandbySeatsNobody(s: State, step: Step)
    requires Inv(s) && Enabled(s, step) && (step.StartStandby? || step.DropStandby? || step.CommitStandby?)
    ensures NoNewSeat(s, Apply(s, step))
  {
    hide Inv, Apply, NodesKept, Enabled;
    InvPlaces(s);
    NumbersKnown(s);
    StandbyReach(s, step);
    NextNumberFree(s);
    match step
    case StartStandby(node, started, probe) => StartKeepsNodes(s, node, started, probe);
    case DropStandby(clear) => DropKeepsNodes(s, clear);
    case CommitStandby(observed, clear) => QueueKeepsNodes(s, observed, clear);
  }

  lemma NumbersKnown(s: State)
    requires Inv(s)
    ensures NumbersFresh(s)
  {
  }

  lemma NextNumberFree(s: State)
    requires Inv(s)
    ensures s.counter + 1 !in s.tunnels
  {
  }

  lemma StartKeepsNodes(s: State, node: Node, started: bool, probe: RouteOutcome)
    requires s.counter + 1 !in s.tunnels && Enabled(s, StartStandby(node, started, probe))
    ensures NodesKept(s, Apply(s, StartStandby(node, started, probe)))
  {
    hide HireWorker, NodesKept;
    var w := SetupSlot(s.world, s.counter + 1, s.counter + 1, probe);
    HireKeepsNodes(s.(world := w), node);
    OnlyWorld(s, w, HireWorker(s.(world := w), node));
    NodesSame(s, s.(counter := s.counter + 1));
  }

  lemma DropKeepsNodes(s: State, clear: RouteOutcome)
    requires Enabled(s, DropStandby(clear))
    ensures NodesKept(s, Apply(s, DropStandby(clear)))
  {
    hide FireWorker, NodesKept;
    var w := ClearSlot(s.world, s.worker.value, clear);
    WorkerKeepsNodes(s.(world := w), Unusable);
    OnlyWorld(s, w, FireWorker(s.(world := w)));
  }

  lemma QueueKeepsNodes(s: State, observed: Address, clear: RouteOutcome)
    requires Enabled(s, CommitStandby(observed, clear))
    ensures NodesKept(s, Apply(s, CommitStandby(observed, clear)))
  {
    hide FireWorker, Enqueue, NodesKept, Diverse;
    var w := ClearSlot(s.world, s.worker.value, clear);
    WorkerKeepsNodes(s.(world := w), observed);
    OnlyWorld(s, w, FireWorker(s.(world := w)));
    OnlyWorld(s, w, Enqueue(s.(world := w), s.tunnels[s.worker.value].node.(observed := observed)));
  }

  lemma OnlyWorld(s: State, w: World, s': State)
    requires NodesKept(s.(world := w), s')
    ensures NodesKept(s, s')
  {
  }

  lemma NodesSame(s: State, s': State)
    requires s'.tunnels == s.tunnels
    ensures NodesKept(s, s')
  {
  }

  lemma HireKeepsNodes(s: State, node: Node)
    requires s.counter + 1 !in s.tunnels
    ensures NodesKept(s, HireWorker(s, node)) && HireWorker(s, node).active == s.active
  {
  }

  lemma WorkerKeepsNodes(s: State, observed: Address)
    requires s.worker.Some? && s.worker.value in s.tunnels
    ensures NodesKept(s, FireWorker(s)) && FireWorker(s).active == s.active
    ensures var s' := Enqueue(s, s.tunnels[s.worker.value].node.(observed := observed));
      NodesKept(s, s') && s'.active == s.active
  {
  }

  lemma EventSeatsNobody(s: State, step: Step)
    requires Enabled(s, step)
    requires step.TunnelFails? || step.TunnelExits? || step.XrayCrashes? || step.Synchronise? || step.Request?
    ensures NoNewSeat(s, Apply(s, step))
  {
    hide Reserve, SyncXray, NodesKept;
    match step
    case TunnelFails(t) => StatesOnly(s, t);
    case TunnelExits(t) => StatesOnly(s, t);
    case XrayCrashes => NodesSame(s, Apply(s, step));
    case Synchronise(outcome) => SyncKeepsMaps(s, outcome); NodesSame(s, Apply(s, step));
    case Request(id, q, target, eligible) => ReserveReach(s, id, q, target, eligible); NodesSame(s, Apply(s, step));
  }

  lemma StatesOnly(s: State, t: TunnelId)
    requires t in s.tunnels
    ensures NodesKept(s, WithTunnel(s, t, s.tunnels[t].(state := Down)))
    ensures NodesKept(s, WithTunnel(s, t, s.tunnels[t].(exited := true)))
  {
  }

  lemma SyncKeepsMaps(s: State, outcome: XrayTransaction.Outcome)
    ensures SyncXray(s, outcome).tunnels == s.tunnels && SyncXray(s, outcome).active == s.active
  {
    hide LiveSlots, XrayTransaction.SyncSlots;
  }

  lemma OtherPhaseSeatsNobody(s: State, id: string, e: SwitchInput)
    requires Inv(s) && Steerable(s, id) && !s.switches[id].phase.Committing?
    ensures NoNewSeat(s, Advance(s, id, e))
  {
    NextNumberFree(s);
    AdvanceReach(s, id, e);
    FitsKnown(s, id);
    AdvanceKeepsNodes(s, id, e);
    hide Inv, Advance;
  }

  lemma AdvanceKeepsNodes(s: State, id: string, e: SwitchInput)
    requires Steerable(s, id) && !s.switches[id].phase.Committing? && s.counter + 1 !in s.tunnels
    ensures NodesKept(s, Advance(s, id, e))
  {
    var w := s.switches[id];
    if w.phase.Starting? {
      CandidateKeepsNodes(s, id, e.ok);
    } else if w.phase.Verifying? {
      VerifyKeepsNodes(s, id, w.candidate.value, e);
    } else if w.phase.StopCandidate? {
      StopKeepsNodes(s, id, w.candidate.value);
    } else {
      TunnelsUntouched(s, id, e);
    }
    hide Commit, CheckTarget, StartCandidate, RouteCandidate, Verify, SwitchXrayOn, CutOver, RestoreRoute, Abandon,
         CandidateDiverse, Preempted, XrayDrain, Publish, ReleaseLease, ReleaseOverride, Goto, Reject, Stop;
  }

  lemma CandidateKeepsNodes(s: State, id: string, started: bool)
    requires id in s.switches && s.counter + 1 !in s.tunnels
    ensures NodesKept(s, StartCandidate(s, id, started))
  {
  }

  lemma VerifyKeepsNodes(s: State, id: string, t: TunnelId, e: SwitchInput)
    requires Steerable(s, id) && s.switches[id].candidate == Some(t) && t in s.tunnels
    ensures NodesKept(s, Verify(s, id, t, e))
  {
    hide Routed;
  }

  lemma StopKeepsNodes(s: State, id: string, t: TunnelId)
    requires id in s.switches && t in s.tunnels
    ensures NodesKept(s, Reject(Stop(s, t), id))
  {
  }

  lemma TunnelsUntouched(s: State, id: string, e: SwitchInput)
    requires Steerable(s, id)
    requires var p := s.switches[id].phase; !p.Committing? && !p.Starting? && !p.Verifying? && !p.StopCandidate?
    ensures Advance(s, id, e).tunnels == s.tunnels
  {
    hide Advance, Publish, ReleaseLease;
    EndIsAdvance(s, id, e);
    EndKeepsTunnels(s, id);
    if !s.switches[id].phase.Publishing? && !s.switches[id].phase.ReleasingLease? { QuietPhase(s, id, e); }
  }

  lemma EndIsAdvance(s: State, id: string, e: SwitchInput)
    requires Steerable(s, id)
    ensures s.switches[id].phase.Publishing? ==> Advance(s, id, e) == Publish(s, id)
    ensures s.switches[id].phase.ReleasingLease? ==> Advance(s, id, e) == ReleaseLease(s, id)
  {
    hide Publish, ReleaseLease, Commit;
  }

  lemma EndKeepsTunnels(s: State, id: string)
    requires id in s.switches
    ensures Publish(s, id).tunnels == s.tunnels && ReleaseLease(s, id).tunnels == s.tunnels
  {
    hide Leases.Release, ControllerOf, WithController;
    TellingKeepsTunnels(s, s.switches[id].slot);
  }

  /** Commands, the record of a switch and its override. */
  ghost predicate CommandsAndRecord(s: State, s': State) {
    s' == s.(world := s'.world, switches := s'.switches, override := s'.override)
  }

  /** The phases that touch neither tunnel objects nor controllers. */
  predicate InBackground(p: Phase) {
    && !p.Committing? && !p.Starting? && !p.Verifying? && !p.StopCandidate?
    && !p.Publishing? && !p.ReleasingLease?
  }

  lemma QuietPhase(s: State, id: string, e: SwitchInput)
    requires Steerable(s, id) && InBackground(s.switches[id].phase)
    ensures CommandsAndRecord(s, Advance(s, id, e))
  {
    hide Commit, StartCandidate, Verify, CandidateDiverse, Preempted, Stop, CheckTarget, RouteCandidate, Abandon,
         SwitchXrayOn, CutOver, RestoreRoute, Publish, ReleaseLease, ReleaseOverride, XrayDrain, Goto, Reject,
         CommandsAndRecord;
    var w := s.switches[id];
    RejectQuiet(s, id);
    assert s.(world := s.world) == s;
    match w.phase
    case Admission => GotoQuiet(s, id, Preflight, s.world);
    case Preflight => CheckTargetQuiet(s, id, e.ok);
    case FirstLeaseCheck => GotoQuiet(s, id, Starting, s.world);
    case CandidateRouting => RouteCandidateQuiet(s, id, w.candidate.value, e.route);
    case DiversityCheck => GotoQuiet(s, id, SecondLeaseCheck, s.world); AbandonQuiet(s, id, s.world, e.clear);
    case SecondLeaseCheck => GotoQuiet(s, id, XrayOn, s.world); AbandonQuiet(s, id, s.world, e.clear);
    case XrayOn => SwitchXrayOnQuiet(s, id, e);
    case Cutover => CutOverQuiet(s, id, w.candidate.value, e);
    case UndoRoute => RestoreRouteQuiet(s, id, e.route);
    case UndoXray => GotoQuiet(s, id, StopCandidate, XrayDrain(s.world, w.slot, e.xray).0);
    case ReleasingOverride => ReleaseOverrideQuiet(s, id);
    case Finished => NothingQuiet(s);
  }

  lemma NothingQuiet(s: State)
    ensures CommandsAndRecord(s, s)
  {
  }

  lemma GotoQuiet(s: State, id: string, p: Phase, w: World)
    requires id in s.switches
    ensures CommandsAndRecord(s, Goto(s.(world := w), id, p))
  {
  }

  lemma RejectQuiet(s: State, id: string)
    requires id in s.switches
    ensures CommandsAndRecord(s, Reject(s, id))
  {
  }

  lemma CheckTargetQuiet(s: State, id: string, found: bool)
    requires id in s.switches
    ensures CommandsAndRecord(s, CheckTarget(s, id, found))
  {
  }

  lemma RouteCandidateQuiet(s: State, id: string, t: TunnelId, route: RouteOutcome)
    requires id in s.switches
    ensures CommandsAndRecord(s, RouteCandidate(s, id, t, route))
  {
    hide Routed;
  }

  lemma AbandonQuiet(s: State, id: string, w: World, clear: RouteOutcome)
    requires id in s.switches && s.switches[id].candidate.Some?
    ensures CommandsAndRecord(s, Abandon(s.(world := w), id, clear))
  {
    hide Routed;
  }

  lemma SwitchXrayOnQuiet(s: State, id: string, e: SwitchInput)
    requires id in s.switches && s.switches[id].candidate.Some?
    ensures CommandsAndRecord(s, SwitchXrayOn(s, id, e))
  {
    hide Abandon, Goto, XrayActivate, CommandsAndRecord;
    var w := XrayActivate(s.world, s.switches[id].slot, e.xray).0;
    GotoQuiet(s, id, Cutover, w);
    AbandonQuiet(s, id, w, e.clear);
  }

  lemma CutOverQuiet(s: State, id: string, t: TunnelId, e: SwitchInput)
    requires id in s.switches
    ensures CommandsAndRecord(s, CutOver(s, id, t, e))
  {
    hide Routed;
  }

  lemma RestoreRouteQuiet(s: State, id: string, route: RouteOutcome)
    requires id in s.switches
    ensures CommandsAndRecord(s, RestoreRoute(s, id, route))
  {
    hide Goto, SetupSlot, ClearSlot, CommandsAndRecord;
    var w := s.switches[id];
    if w.current.Some? {
      GotoQuiet(s, id, StopCandidate, SetupSlot(s.world, w.slot, w.current.value, route));
    } else {
      GotoQuiet(s, id, UndoXray, ClearSlot(s.world, w.slot, route));
    }
  }

  lemma ReleaseOverrideQuiet(s: State, id: string)
    requires id in s.switches
    ensures CommandsAndRecord(s, ReleaseOverride(s, id))
  {
  }

  lemma TellingKeepsTunnels(s: State, q: nat)
    ensures forall c :: WithController(s, q, c).tunnels == s.tunnels && WithController(s, q, c).switches == s.switches
  {
  }

  // ---- Steps that may seat a tunnel ----

  lemma FillSeats(s: State, q: nat, e: PromoteInput)
    requires |s.standby| > 0 && s.standby[0] in s.tunnels
    ensures var s' := Promote(s, q, e);
      if PromotionWorld(s, q, e).1 then NodesKept(s, s') && s'.active == s.active[q := s.standby[0]]
      else NoNewSeat(s, s')
  {
    hide Promote, PromotionWorld, TablesConfined, SeatHead, StopHead;
    PromotionWorldReach(s, q, e);
    HeadKeepsNodes(s.(world := PromotionWorld(s, q, e).0), q);
  }

  lemma HeadKeepsNodes(s: State, q: nat)
    requires |s.standby| > 0 && s.standby[0] in s.tunnels
    ensures NodesKept(s, SeatHead(s, q)) && SeatHead(s, q).active == s.active[q := s.standby[0]]
    ensures NodesKept(s, StopHead(s)) && StopHead(s).active == s.active
  {
  }

  /** Exactly when a commit goes through. */
  lemma CommitSucceedsExactly(s: State, id: string, e: SwitchInput)
    requires Inv(s) && Steerable(s, id) && s.switches[id].phase.Committing?
    ensures id in Advance(s, id, e).switches
    ensures Advance(s, id, e).switches[id].verdict.Succeeded? <==> Commits(s, id, e)
  {
    FitsKnown(s, id);
    var q := s.switches[id].slot;
    if q in s.active {
      ActiveKnown(s, q);
    }
    AdvanceIsCommit(s, id, e);
    hide Inv, Advance, CandidateDiverse;
    CommitVerdict(s, id, s.switches[id].candidate.value, e);
  }

  lemma CommitVerdict(s: State, id: string, t: TunnelId, e: SwitchInput)
    requires Steerable(s, id) && s.switches[id].phase.Committing? && s.switches[id].candidate == Some(t)
    requires !s.switches[id].verdict.Succeeded?
    requires s.switches[id].slot in s.active ==>
      s.active[s.switches[id].slot] in s.tunnels && s.active[s.switches[id].slot] != t
    ensures id in Commit(s, id, t, e).switches
    ensures Commit(s, id, t, e).switches[id].verdict.Succeeded? <==> Commits(s, id, e)
  {
    hide CandidateDiverse, DrainReplaced, SetupSlot;
    var q := s.switches[id].slot;
    if q in s.active {
      ReplacedIsDrained(Install(s, q, t), q, s.active[q], e.drainRoute, e.tunIP, e.now);
    }
  }

  lemma ReplacedIsDrained(s: State, q: nat, t: TunnelId, route: RouteOutcome, tunIP: string, now: int)
    requires t in s.tunnels
    ensures var (s', ok) := DrainReplaced(s, q, t, route, tunIP, now);
      (ok <==> q !in s.draining && route.Done?) && s'.switches == s.switches
  {
  }

  lemma CommitSeats(s: State, id: string, e: SwitchInput)
    requires Inv(s) && Steerable(s, id) && s.switches[id].phase.Committing?
    ensures var s' := Advance(s, id, e);
      if Commits(s, id, e) then
        NodesKept(s, s') && s'.active == s.active[s.switches[id].slot := s.switches[id].candidate.value]
      else NoNewSeat(s, s')
  {
    CommitSucceedsExactly(s, id, e);
    FitsKnown(s, id);
    if s.switches[id].slot in s.active {
      ActiveKnown(s, s.switches[id].slot);
    }
    hide Inv, Advance, Commit, Commits, CandidateDiverse;
    AdvanceIsCommit(s, id, e);
    CommitReplaces(s, id, e);
    CommitKeepsTrial(s, id, e);
  }

  // ---- Every step, every run ----

  /** A step keeps nodes on one slot each if and only if it does not seat a tunnel next to another of its node. */
  lemma StepKeepsApart(s: State, step: Step)
    requires Inv(s) && NodesApart(s) && Enabled(s, step)
    ensures NodesApart(Apply(s, step)) <==> !SeatsTwice(s, step)
  {
    InvKnowsActive(s);
    var s' := Apply(s, step);
    if step.Switching? {
      SwitchingIsAdvance(s, step);
    }
    hide Inv, Apply, NodesApart, NoNewSeat, NodesKept, ActiveKnownTunnels, Elsewhere, PromotionWorld, CandidateDiverse;
    match step
    case Fill(q, e) =>
      FillIsPromotion(s, q, e);
      FillSeats(s, q, e);
      if PromotionWorld(s, q, e).1 { SeatingKeepsApart(s, s', q, s.standby[0]); } else { UnseatingKeepsApart(s, s'); }
    case Switching(id, e) =>
      if s.switches[id].phase.Committing? {
        FitsKnown(s, id);
        CommitSeats(s, id, e);
      } else {
        OtherPhaseSeatsNobody(s, id, e);
      }
      if Commits(s, id, e) { SeatingKeepsApart(s, s', s.switches[id].slot, s.switches[id].candidate.value); }
      else { UnseatingKeepsApart(s, s'); }
    case HealthCheck(q, healthy, e) => HealthCheckUnseats(s, q, healthy, e); UnseatingKeepsApart(s, s');
    case Cleanup(q, e) => CleanupIsCleanup(s, q, e); CleanupSeatsNobody(s, q, e); UnseatingKeepsApart(s, s');
    case StartStandby(_, _, _) => StandbySeatsNobody(s, step); UnseatingKeepsApart(s, s');
    case DropStandby(_) => StandbySeatsNobody(s, step); UnseatingKeepsApart(s, s');
    case CommitStandby(_, _) => StandbySeatsNobody(s, step); UnseatingKeepsApart(s, s');
    case TunnelFails(_) => EventSeatsNobody(s, step); UnseatingKeepsApart(s, s');
    case TunnelExits(_) => EventSeatsNobody(s, step); UnseatingKeepsApart(s, s');
    case XrayCrashes => EventSeatsNobody(s, step); UnseatingKeepsApart(s, s');
    case Synchronise(_) => EventSeatsNobody(s, step); UnseatingKeepsApart(s, s');
    case Request(_, _, _, _) => EventSeatsNobody(s, step); UnseatingKeepsApart(s, s');
  }

  /** Every step keeps the node of every tunnel. */
  lemma StepKeepsNodes(s: State, step: Step)
    requires Inv(s) && Enabled(s, step)
    ensures NodesKept(s, Apply(s, step))
  {
    if step.Switching? {
      SwitchingIsAdvance(s, step);
    }
    hide Inv, Apply, NodesKept, PromotionWorld, CandidateDiverse;
    match step
    case Fill(q, e) => FillIsPromotion(s, q, e); FillSeats(s, q, e);
    case Switching(id, e) =>
      if s.switches[id].phase.Committing? { CommitSeats(s, id, e); } else { OtherPhaseSeatsNobody(s, id, e); }
    case HealthCheck(q, healthy, e) => HealthCheckUnseats(s, q, healthy, e);
    case Cleanup(q, e) => CleanupIsCleanup(s, q, e); CleanupSeatsNobody(s, q, e);
    case StartStandby(_, _, _) => StandbySeatsNobody(s, step);
    case DropStandby(_) => StandbySeatsNobody(s, step);
    case CommitStandby(_, _) => StandbySeatsNobody(s, step);
    case TunnelFails(_) => EventSeatsNobody(s, step);
    case TunnelExits(_) => EventSeatsNobody(s, step);
    case XrayCrashes => EventSeatsNobody(s, step);
    case Synchronise(_) => EventSeatsNobody(s, step);
    case Request(_, _, _, _) => EventSeatsNobody(s, step);
  }

  lemma FillIsPromotion(s: State, q: nat, e: PromoteInput)
    requires Enabled(s, Fill(q, e))
    ensures Apply(s, Fill(q, e)) == Promote(s, q, e)
  {
    hide Promote;
  }

  lemma CleanupIsCleanup(s: State, q: nat, e: CleanupInput)
    requires Enabled(s, Cleanup(q, e))
    ensures Apply(s, Cleanup(q, e)) == CleanupSlot(s, q, e)
  {
    hide CleanupSlot;
  }

  ghost predicate SeatsTwiceAt(s: State, steps: seq<Step>, k: nat) {
    k < |steps| && Enabled(Before(s, steps, k), steps[k]) && SeatsTwice(Before(s, steps, k), steps[k])
  }

  /** In every run nodes stay on one slot each up to some point if and only if no step before it seats one twice. */
  lemma {:induction false} RunKeepsApart(s: State, steps: seq<Step>, n: nat)
    requires Inv(s) && NodesApart(s) && n <= |steps|
    ensures (forall k: nat | k <= n :: NodesApart(Before(s, steps, k))) <==>
      (forall k: nat | k < n :: !SeatsTwiceAt(s, steps, k))
  {
    hide Inv, NodesApart, Run, Apply, Enabled, SeatsTwice;
    if n == 0 {
      RunNothing(s, steps);
    } else {
      RunKeepsApart(s, steps, n - 1);
      BeforeInv(s, steps, n - 1);
      BeforeNext(s, steps, n - 1);
      var b := Before(s, steps, n - 1);
      assert NodesApart(b) && Enabled(b, steps[n - 1]) ==>
          (NodesApart(Before(s, steps, n)) <==> !SeatsTwiceAt(s, steps, n - 1)) by {
        if NodesApart(b) && Enabled(b, steps[n - 1]) { StepKeepsApart(b, steps[n - 1]); }
      }
    }
  }

  lemma InitiallyApart(maxActive: nat, maxStandby: nat, xray: Option<XrayTransaction.Xray>)
    ensures Inv(Initial(maxActive, maxStandby, xray)) && NodesApart(Initial(maxActive, maxStandby, xray))
  {
    InitialInv(maxActive, maxStandby, xray);
    forall q, node ensures !SeatedNode(Initial(maxActive, maxStandby, xray), q, node) {}
    hide Inv;
  }
}
