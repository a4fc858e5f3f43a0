/**
 The control plane as a state machine: the scheduler's maps, the slot controllers,
 the Xray active set, the kernel routing tables and the manual switch operations.

 A step is one lock-protected region, or one command a switch issues without the
 scheduler lock. A reconcile pass holds the lock while switches on other slots go
 on talking to Xray and the kernel, so it is split into one step per slot, and the
 steps of all actors interleave freely. Health checks, ip and xray commands,
 conntrack and the clock are inputs of the steps.

 A tunnel object is named by the number of its interface, which NextTunnelID hands
 out once. `place` is a history variable: where that object is.
 */
module ControlPlane {
  import opened Wrappers
  import Leases
  import XrayTransaction

  type TunnelId = nat

  // ---- Nodes and /24 prefixes (internal/scheduler/diversity.go, internal/reputation/prefix.go) ----

  datatype Address = V4(bits: nat) | Unusable

  datatype Node = Node(id: string, ip: Address, observed: Address)

  /** AnalyzePrefix: an IPv4 address without its last octet. */
  function Prefix(a: Address): Option<nat> {
    match a
    case V4(bits) => Some(bits / 256)
    case Unusable => None
  }

  /** The key set of nodePrefixes(node, extra). */
  function Prefixes(n: Node, extra: Address): set<nat> {
    set a | a in {n.ip, n.observed, extra} && Prefix(a).Some? :: Prefix(a).value
  }

  predicate Conflict(candidate: Node, extra: Address, other: Node) {
    candidate.id != other.id && !(Prefixes(candidate, extra) !! Prefixes(other, Unusable))
  }

  // ---- State ----

  datatype TunnelState = Up | Leaving | Down

  datatype Place = InSlot(slot: nat) | InDraining(slot: nat) | InStandby
                 | WithSwitch(operation: string) | WithWorker | Stopped | Lost

  datatype Tunnel = Tunnel(node: Node, state: TunnelState, exited: bool, drainingSince: int, place: Place)

  /** What a routing table holds as its default route. */
  datatype Route = Dev(tunnel: TunnelId) | Unreachable | Empty

  /** A routing call either leaves the table as intended or in whatever state the failed commands produced. */
  datatype RouteOutcome = Done | Failed(left: Route)

  datatype Phase =
    | Admission | Preflight | FirstLeaseCheck | Starting | CandidateRouting | Verifying | DiversityCheck
    | SecondLeaseCheck | XrayOn | Cutover | Committing | Publishing
    | UndoRoute | UndoXray | StopCandidate
    | ReleasingLease | ReleasingOverride | Finished

  datatype Verdict = Pending | Succeeded | Rejected

  datatype Switch = Switch(
    slot: nat,
    target: Node,
    lease: Leases.Lease,
    phase: Phase,
    verdict: Verdict,
    current: Option<TunnelId>,     // the tunnel found on the slot by the pre-flight check
    candidate: Option<TunnelId>,
    cut: bool)                     // the slot table has been handed to the candidate

  datatype State = State(
    maxActive: nat,
    maxStandby: nat,
    counter: nat,                                  // standbySlotCount
    tunnels: map<TunnelId, Tunnel>,
    active: map<nat, TunnelId>,
    draining: map<nat, TunnelId>,
    drainingTable: map<nat, int>,
    drainingIP: map<nat, string>,
    standby: seq<TunnelId>,
    worker: Option<TunnelId>,                      // the tunnel maintainStandbyPool is qualifying
    override: set<nat>,
    controllers: map<nat, Leases.Controller>,
    switches: map<string, Switch>,
    world: World)

  /** What is reached by running commands: the Xray supervisor, if one is attached, and the kernel tables. */
  datatype World = World(xray: Option<XrayTransaction.Xray>, tables: map<int, Route>)

  const BASE_TABLE := 100
  const BASE_DRAINING_TABLE := 200
  const DRAINING_TIMEOUT := 30000

  function FreshController(slot: nat): Leases.Controller {
    Leases.NewController
  }

  function Initial(maxActive: nat, maxStandby: nat, xray: Option<XrayTransaction.Xray>): State {
    State(maxActive, maxStandby, maxActive + maxStandby + 10, map[], map[], map[], map[], map[], [], None, {},
          map slot: nat | slot < maxActive :: FreshController(slot), map[], World(xray, map[]))
  }

  // ---- Small updates ----

  function WithTunnel(s: State, t: TunnelId, tunnel: Tunnel): State {
    s.(tunnels := s.tunnels[t := tunnel])
  }

  /** Tunnel.Stop: the process is gone and the object leaves whatever held it. */
  function Stop(s: State, t: TunnelId): State
    requires t in s.tunnels
  {
    WithTunnel(s, t, s.tunnels[t].(state := Down, exited := true, place := Stopped))
  }

  function Routed(w: World, table: int, intended: Route, outcome: RouteOutcome): World {
    w.(tables := w.tables[table := if outcome.Done? then intended else outcome.left])
  }

  function SetupSlot(w: World, slot: nat, t: TunnelId, outcome: RouteOutcome): World {
    Routed(w, BASE_TABLE + slot, Dev(t), outcome)
  }

  function ClearSlot(w: World, slot: nat, outcome: RouteOutcome): World {
    Routed(w, BASE_TABLE + slot, Unreachable, outcome)
  }

  function XrayDrain(w: World, slot: nat, outcome: XrayTransaction.Outcome): (World, bool) {
    match w.xray
    case None => (w, true)
    case Some(x) => var r := XrayTransaction.DrainSlot(x, slot, outcome); (w.(xray := Some(r.after)), r.ok)
  }

  function XrayActivate(w: World, slot: nat, outcome: XrayTransaction.Outcome): (World, bool) {
    match w.xray
    case None => (w, true)
    case Some(x) => var r := XrayTransaction.ActivateSlot(x, slot, outcome); (w.(xray := Some(r.after)), r.ok)
  }

  function WithController(s: State, slot: nat, c: Leases.Controller): State {
    if slot in s.controllers then s.(controllers := s.controllers[slot := c]) else s
  }

  function ControllerOf(s: State, slot: nat): Leases.Controller {
    if slot in s.controllers then s.controllers[slot] else Leases.NewController
  }

  // ---- Diversity ----

  /** CheckPrefixDiversityLocked; `exclude` is -1 when no active slot is exempt. */
  predicate Diverse(s: State, candidate: Node, extra: Address, exclude: int) {
    && Prefixes(candidate, extra) != {}
    && (forall slot | slot in s.active && slot != exclude ::
          s.active[slot] in s.tunnels ==> !Conflict(candidate, extra, s.tunnels[s.active[slot]].node))
    && (forall i | 0 <= i < |s.standby| ::
          s.standby[i] in s.tunnels ==> !Conflict(candidate, extra, s.tunnels[s.standby[i]].node))
  }

  // ---- Draining ----

  datatype DrainInput = DrainInput(
    xray: XrayTransaction.Outcome, reactivate: XrayTransaction.Outcome,
    route: RouteOutcome, clear: RouteOutcome, tunIP: string, now: int)

  /** A process that is gone has nothing to drain: it is retired at once. */
  function Retire(s: State, slot: nat, t: TunnelId): State
    requires t in s.tunnels
  {
    var s1 := s.(active := s.active - {slot});
    var s2 := WithController(s1, slot, ControllerOf(s1, slot).(
      activeTunnel := None, drainingTunnel := None, drainingTable := 0, state := Leases.Failed,
          outboundActive := false));
    Stop(s2, t)
  }

  /**
   The map entry of a tunnel that is still draining is about to be overwritten: nothing names that tunnel any
   more.
   */
  function Overwrite(s: State, slot: nat): State
    requires slot in s.draining ==> s.draining[slot] in s.tunnels
  {
    if slot !in s.draining then s
    else
      WithTunnel(s, s.draining[slot], s.tunnels[s.draining[slot]].(place := Lost))
      .(draining := s.draining - {slot}, drainingTable := s.drainingTable - {slot}, drainingIP := s.drainingIP - {slot})
  }

  function EnterDraining(s: State, slot: nat, t: TunnelId, tunIP: string, now: int): State
    requires t in s.tunnels
  {
    var s1 := WithTunnel(s, t, s.tunnels[t].(state := Leaving, drainingSince := now, place := InDraining(slot)));
    s1.(draining := s1.draining[slot := t],
        drainingTable := s1.drainingTable[slot := BASE_DRAINING_TABLE + slot],
        drainingIP := s1.drainingIP[slot := tunIP])
  }

  /** transitionToDrainingLocked. */
  function TransitionToDraining(s: State, slot: nat, t: TunnelId, e: DrainInput): State
    requires t in s.tunnels
    requires slot in s.draining ==> s.draining[slot] in s.tunnels
  {
    var (w1, ok) := XrayDrain(s.world, slot, e.xray);
    if !ok then s.(world := w1)
    else if s.tunnels[t].state != Up || s.tunnels[t].exited then
      Retire(s.(world := ClearSlot(w1, slot, e.clear)), slot, t)
    else
      var w2 := Routed(w1, BASE_DRAINING_TABLE + slot, Dev(t), e.route);
      if e.route.Failed? then
        WithTunnel(s, t, s.tunnels[t].(state := Up, drainingSince := 0))
        .(world := XrayActivate(w2, slot, e.reactivate).0)
      else LeaveSlot(Overwrite(s.(world := w2), slot), slot, t, e.tunIP, e.now)
  }

  /** The completed drain: from the active map to the draining map. */
  function LeaveSlot(s: State, slot: nat, t: TunnelId, tunIP: string, now: int): State
    requires t in s.tunnels
  {
    var s1 := EnterDraining(s, slot, t, tunIP, now);
    var s2 := s1.(active := s1.active - {slot});
    WithController(s2, slot, ControllerOf(s2, slot).(
      activeTunnel := None, drainingTunnel := Some(t), drainingTable := BASE_DRAINING_TABLE + slot,
      state := Leases.Draining, outboundActive := false))
  }

  /** DrainReplacedTunnelLocked: the replacement keeps the slot; a slot already draining is refused. */
  function DrainReplaced(s: State, slot: nat, t: TunnelId, route: RouteOutcome, tunIP: string, now: int): (State, bool)
    requires t in s.tunnels
  {
    if slot in s.draining then (s, false)
    else
      var s1 := s.(world := Routed(s.world, BASE_DRAINING_TABLE + slot, Dev(t), route));
      if route.Failed? then (s1, false)
      else
        var s2 := EnterDraining(s1, slot, t, tunIP, now);
        (WithController(s2, slot, ControllerOf(s2, slot).(
           drainingTunnel := Some(t), drainingTable := BASE_DRAINING_TABLE + slot)), true)
  }

  datatype CleanupInput = CleanupInput(now: int, count: Option<nat>, clear: RouteOutcome, flush: RouteOutcome)

  predicate TimedOut(t: Tunnel, now: int) {
    now - t.drainingSince > DRAINING_TIMEOUT
  }

  /** One tunnel's turn in cleanupDrainingSlots; an unknown connection count is None. */
  function CleanupSlot(s: State, slot: nat, e: CleanupInput): State
    requires slot in s.draining && s.draining[slot] in s.tunnels
  {
    var t := s.draining[slot];
    if TimedOut(s.tunnels[t], e.now) then
      var s1 := LeaveDraining(s, slot, e.flush);
      if slot in s.active then s1 else s1.(world := ClearSlot(s1.world, slot, e.clear))
    else if e.count.None? || e.count.value > 0 then s
    else
      var s1 := LeaveDraining(s, slot, e.flush);
      WithController(s1, slot, ControllerOf(s1, slot).(drainingTunnel := None))
  }

  function LeaveDraining(s: State, slot: nat, flush: RouteOutcome): State
    requires slot in s.draining && s.draining[slot] in s.tunnels
  {
    var table := if slot in s.drainingTable then s.drainingTable[slot] else 0;
    var s1 := Stop(s.(world := Routed(s.world, table, Empty, flush)), s.draining[slot]);
    s1.(draining := s1.draining - {slot}, drainingTable := s1.drainingTable - {slot},
        drainingIP := s1.drainingIP - {slot})
  }

  // ---- Promotion and the Xray synchronisation at the end of a reconcile ----

  datatype PromoteInput = PromoteInput(route: RouteOutcome, activate: XrayTransaction.Outcome, clear: RouteOutcome)

  /** Filling one empty slot from the head of the standby queue. */
  function Promote(s: State, slot: nat, e: PromoteInput): State
    requires |s.standby| > 0 && s.standby[0] in s.tunnels
  {
    var t := s.standby[0];
    if s.tunnels[t].state != Up then StopHead(s)
    else
      var w1 := SetupSlot(s.world, slot, t, e.route);
      if e.route.Failed? then StopHead(s.(world := w1))
      else
        var (w2, ok) := XrayActivate(w1, slot, e.activate);
        if !ok then StopHead(s.(world := ClearSlot(w2, slot, e.clear))) else SeatHead(s.(world := w2), slot)
  }

  function StopHead(s: State): State
    requires |s.standby| > 0 && s.standby[0] in s.tunnels
  {
    Stop(s.(standby := s.standby[1..]), s.standby[0])
  }

  /** The completed promotion. */
  function SeatHead(s: State, slot: nat): State
    requires |s.standby| > 0 && s.standby[0] in s.tunnels
  {
    var t := s.standby[0];
    var s1 := WithTunnel(s, t, s.tunnels[t].(place := InSlot(slot)));
    var s2 := s1.(standby := s.standby[1..], active := s1.active[slot := t]);
    WithController(s2, slot, ControllerOf(s2, slot).(
      activeTunnel := Some(t), state := Leases.Active, outboundActive := true))
  }

  predicate Live(s: State, slot: nat) {
    slot in s.active && s.active[slot] in s.tunnels
    && s.tunnels[s.active[slot]].state == Up && !s.tunnels[s.active[slot]].exited
  }

  function LiveSlots(s: State): set<nat> {
    set slot | slot in s.active && slot < s.maxActive && Live(s, slot)
  }

  function SyncXray(s: State, outcome: XrayTransaction.Outcome): State {
    match s.world.xray
    case None => s
    case Some(x) =>
      s.(world := s.world.(xray := Some(XrayTransaction.SyncSlots(x, LiveSlots(s), outcome).after)))
  }

  // ---- Standby qualification (maintainStandbyPool) ----

  /** A new tunnel object under the next number. */
  function Spawn(s: State, node: Node, place: Place): State {
    WithTunnel(s, s.counter + 1, Tunnel(node, Up, false, 0, place)).(counter := s.counter + 1)
  }

  function HireWorker(s: State, node: Node): State {
    Spawn(s, node, WithWorker).(worker := Some(s.counter + 1))
  }

  function FireWorker(s: State): State
    requires s.worker.Some? && s.worker.value in s.tunnels
  {
    Stop(s.(worker := None), s.worker.value)
  }

  function Enqueue(s: State, node: Node): State
    requires s.worker.Some? && s.worker.value in s.tunnels
  {
    var t := s.worker.value;
    WithTunnel(s, t, s.tunnels[t].(node := node, state := Up, place := InStandby))
    .(worker := None, standby := s.standby + [t])
  }

  // ---- Manual switches ----

  /** The locked part of handleSlotAction; a refused request changes nothing. */
  predicate Reservable(s: State, slot: nat, target: Node, eligible: bool) {
    && slot < s.maxActive
    && slot !in s.override
    && eligible                           // the row exists, has an admissible status and a credential in memory
    && (forall q | q in s.active :: s.active[q] in s.tunnels ==> s.tunnels[s.active[q]].node.id != target.id)
    && Diverse(s, target, Unusable, slot)
    && slot in s.controllers
    && s.controllers[slot].owner == ""
  }

  const MANUAL_OWNER := "manual-switch"

  function Reserve(s: State, id: string, slot: nat, target: Node, eligible: bool): State {
    if !Reservable(s, slot, target, eligible) then s
    else
      var (c, lease) := Leases.Acquire(s.controllers[slot], slot, MANUAL_OWNER, id);
      s.(controllers := s.controllers[slot := c],
         override := s.override + {slot},
         switches := s.switches[id := Switch(slot, target, lease.value, Admission, Pending, None, None, false)])
  }

  datatype SwitchInput = SwitchInput(
    ok: bool, observed: Address, route: RouteOutcome, clear: RouteOutcome,
    xray: XrayTransaction.Outcome, drainRoute: RouteOutcome, tunIP: string, now: int)

  function Goto(s: State, id: string, phase: Phase): State
    requires id in s.switches
  {
    s.(switches := s.switches[id := s.switches[id].(phase := phase)])
  }

  /** The switch has failed without a candidate to dispose of. */
  function Reject(s: State, id: string): State
    requires id in s.switches
  {
    s.(switches := s.switches[id := s.switches[id].(phase := ReleasingLease, verdict := Rejected)])
  }

  /** ClearCandidateRouting followed by the candidate's disposal. */
  function Abandon(s: State, id: string, clear: RouteOutcome): State
    requires id in s.switches && s.switches[id].candidate.Some?
  {
    Goto(s.(world := Routed(s.world, BASE_TABLE + s.switches[id].candidate.value, Empty, clear)), id, StopCandidate)
  }

  predicate Steerable(s: State, id: string) {
    && id in s.switches
    && (HoldsCandidate(s.switches[id]) ==>
          s.switches[id].candidate.Some? && s.switches[id].candidate.value in s.tunnels)
  }

  // -- before the candidate exists --

  function CheckTarget(s: State, id: string, found: bool): State
    requires id in s.switches
  {
    var w := s.switches[id];
    if !found then Reject(s, id)
    else
      var current := Get(s.active, w.slot);
      var s1 := s.(switches := s.switches[id := w.(current := current)]);
      if current.Some? && current.value in s.tunnels && s.tunnels[current.value].node.id == w.target.id
      then Reject(s1, id)
      else Goto(s1, id, FirstLeaseCheck)
  }

  predicate Preempted(s: State, w: Switch) {
    w.slot in s.controllers && !Leases.Validates(s.controllers[w.slot], w.lease)
  }

  /** NextTunnelID, then StartTunnel. */
  function StartCandidate(s: State, id: string, started: bool): State
    requires id in s.switches
  {
    if !started then Reject(s.(counter := s.counter + 1), id)
    else
      var w := s.switches[id].(candidate := Some(s.counter + 1), phase := CandidateRouting);
      Spawn(s, s.switches[id].target, WithSwitch(id)).(switches := s.switches[id := w])
  }

  // -- the candidate is tried out in a routing table of its own --

  function RouteCandidate(s: State, id: string, t: TunnelId, route: RouteOutcome): State
    requires id in s.switches
  {
    Goto(s.(world := Routed(s.world, BASE_TABLE + t, Dev(t), route)), id,
         if route.Failed? then StopCandidate else Verifying)
  }

  /** Health, then the reputation of the observed exit. */
  function Verify(s: State, id: string, t: TunnelId, e: SwitchInput): State
    requires Steerable(s, id) && s.switches[id].candidate == Some(t) && t in s.tunnels
  {
    var s1 := WithTunnel(s, t, s.tunnels[t].(node := s.tunnels[t].node.(observed := e.observed)));
    if e.ok then Goto(s1, id, DiversityCheck) else Abandon(s1, id, e.clear)
  }

  predicate CandidateDiverse(s: State, w: Switch)
    requires w.candidate.Some? && w.candidate.value in s.tunnels
  {
    var n := s.tunnels[w.candidate.value].node;
    Diverse(s, n, n.observed, w.slot)
  }

  // -- from the Xray activation to the commit or the end of the rollback --

  function SwitchXrayOn(s: State, id: string, e: SwitchInput): State
    requires id in s.switches && s.switches[id].candidate.Some?
  {
    var (w1, ok) := XrayActivate(s.world, s.switches[id].slot, e.xray);
    if ok then Goto(s.(world := w1), id, Cutover) else Abandon(s.(world := w1), id, e.clear)
  }

  function CutOver(s: State, id: string, t: TunnelId, e: SwitchInput): State
    requires id in s.switches
  {
    var w := s.switches[id];
    var world := Routed(SetupSlot(s.world, w.slot, t, e.route), BASE_TABLE + t, Empty, e.clear);
    Goto(s.(world := world, switches := s.switches[id := w.(cut := true)]), id,
         if e.route.Failed? then UndoRoute else Committing)
  }

  /** The locked commit. */
  function Commit(s: State, id: string, t: TunnelId, e: SwitchInput): State
    requires id in s.switches && s.switches[id].candidate == Some(t) && t in s.tunnels
  {
    var w := s.switches[id];
    if !CandidateDiverse(s, w) then Goto(s, id, UndoRoute)
    else if w.slot in s.active && s.active[w.slot] in s.tunnels && s.active[w.slot] != t then
      var previous := s.active[w.slot];
      var (s1, ok) := DrainReplaced(Install(s, w.slot, t), w.slot, previous, e.drainRoute, e.tunIP, e.now);
      if ok then Succeed(s1, id)
      else Goto(s.(world := SetupSlot(s1.world, w.slot, previous, e.route)), id, StopCandidate)
    else Succeed(Install(s, w.slot, t), id)
  }

  /** The candidate becomes the tunnel of the slot. */
  function Install(s: State, slot: nat, t: TunnelId): State
    requires t in s.tunnels
  {
    WithTunnel(s, t, s.tunnels[t].(place := InSlot(slot))).(active := s.active[slot := t])
  }

  function Succeed(s: State, id: string): State
    requires id in s.switches
  {
    s.(switches := s.switches[id := s.switches[id].(phase := Publishing, verdict := Succeeded)])
  }

  /** The slot table goes back to the tunnel found by the pre-flight check, or is closed when there was none. */
  function RestoreRoute(s: State, id: string, route: RouteOutcome): State
    requires id in s.switches
  {
    var w := s.switches[id];
    if w.current.Some? then Goto(s.(world := SetupSlot(s.world, w.slot, w.current.value, route)), id, StopCandidate)
    else Goto(s.(world := ClearSlot(s.world, w.slot, route)), id, UndoXray)
  }

  // -- the end of the operation --

  function Publish(s: State, id: string): State
    requires id in s.switches
  {
    var w := s.switches[id];
    Goto(WithController(s, w.slot, ControllerOf(s, w.slot).(
           activeTunnel := w.candidate, state := Leases.Active, outboundActive := true)), id, ReleasingLease)
  }

  function ReleaseLease(s: State, id: string): State
    requires id in s.switches
  {
    var w := s.switches[id];
    Goto(WithController(s, w.slot, Leases.Release(ControllerOf(s, w.slot), w.lease)), id, ReleasingOverride)
  }

  function ReleaseOverride(s: State, id: string): State
    requires id in s.switches
  {
    Goto(s.(override := s.override - {s.switches[id].slot}), id, Finished)
  }

  /** The next region or command of executeManualSwitch, by the phase it has reached. */
  function Advance(s: State, id: string, e: SwitchInput): State
    requires Steerable(s, id)
  {
    var w := s.switches[id];
    match w.phase
    case Admission => if e.ok then Goto(s, id, Preflight) else Reject(s, id)
    case Preflight => CheckTarget(s, id, e.ok)
    case FirstLeaseCheck => if Preempted(s, w) then Reject(s, id) else Goto(s, id, Starting)
    case Starting => StartCandidate(s, id, e.ok)
    case CandidateRouting => RouteCandidate(s, id, w.candidate.value, e.route)
    case Verifying => Verify(s, id, w.candidate.value, e)
    case DiversityCheck => if CandidateDiverse(s, w) then Goto(s, id, SecondLeaseCheck) else Abandon(s, id, e.clear)
    case SecondLeaseCheck => if Preempted(s, w) then Abandon(s, id, e.clear) else Goto(s, id, XrayOn)
    case XrayOn => SwitchXrayOn(s, id, e)
    case Cutover => CutOver(s, id, w.candidate.value, e)
    case Committing => Commit(s, id, w.candidate.value, e)
    case UndoRoute => RestoreRoute(s, id, e.route)
    case UndoXray => Goto(s.(world := XrayDrain(s.world, w.slot, e.xray).0), id, StopCandidate)
    case StopCandidate => Reject(Stop(s, w.candidate.value), id)
    case Publishing => Publish(s, id)
    case ReleasingLease => ReleaseLease(s, id)
    case ReleasingOverride => ReleaseOverride(s, id)
    case Finished => s
  }

  /** The phases in which the candidate tunnel is in the hands of the switch. */
  predicate HoldsCandidate(w: Switch) {
    match w.phase
    case CandidateRouting | Verifying | DiversityCheck | SecondLeaseCheck | XrayOn | Cutover | Committing
       | UndoRoute | UndoXray | StopCandidate => true
    case Admission | Preflight | FirstLeaseCheck | Starting | Publishing
       | ReleasingLease | ReleasingOverride | Finished => false
  }

  // ---- Steps and runs ----

  datatype Step =
    | TunnelFails(tunnel: TunnelId)                  // the waiter goroutine marks the tunnel FAILED
    | TunnelExits(tunnel: TunnelId)                  // ... and closes its done channel
    | XrayCrashes
    | HealthCheck(slot: nat, healthy: bool, drain: DrainInput)
    | Fill(slot: nat, promote: PromoteInput)
    | Synchronise(outcome: XrayTransaction.Outcome)
    | Cleanup(slot: nat, cleanup: CleanupInput)
    | StartStandby(node: Node, started: bool, probe: RouteOutcome)
    | DropStandby(clear: RouteOutcome)
    | CommitStandby(observed: Address, clear: RouteOutcome)
    | Request(id: string, slot: nat, target: Node, eligible: bool)
    | Switching(id: string, input: SwitchInput)

  /** When the code would take the step. Step arguments are otherwise unconstrained. */
  predicate Enabled(s: State, step: Step) {
    match step
    case TunnelFails(t) => t in s.tunnels
    case TunnelExits(t) => t in s.tunnels
    case XrayCrashes => true
    case HealthCheck(slot, _, _) =>
      slot in s.active && slot !in s.override && s.active[slot] in s.tunnels
      && (slot in s.draining ==> s.draining[slot] in s.tunnels)
    case Fill(slot, _) =>
      slot < s.maxActive && slot !in s.override && slot !in s.active && |s.standby| > 0 && s.standby[0] in s.tunnels
    case Synchronise(_) => true
    case Cleanup(slot, _) => slot in s.draining && s.draining[slot] in s.tunnels
    case StartStandby(_, _, _) => s.worker.None? && |s.standby| < s.maxStandby
    case DropStandby(_) => s.worker.Some? && s.worker.value in s.tunnels
    case CommitStandby(_, _) => s.worker.Some? && s.worker.value in s.tunnels
    case Request(id, _, _, _) => id !in s.switches          // operation ids are fresh UUIDs
    case Switching(id, _) => Steerable(s, id)
  }

  function Apply(s: State, step: Step): State
    requires Enabled(s, step)
  {
    match step
    case TunnelFails(t) => WithTunnel(s, t, s.tunnels[t].(state := Down))
    case TunnelExits(t) => WithTunnel(s, t, s.tunnels[t].(exited := true))
    case XrayCrashes => if s.world.xray.None? then s
      else s.(world := s.world.(xray := Some(s.world.xray.value.(runtime := {}))))
    case HealthCheck(slot, healthy, e) =>
      if s.tunnels[s.active[slot]].state == Up && healthy then s
      else TransitionToDraining(s, slot, s.active[slot], e)
    case Fill(slot, e) => Promote(s, slot, e)
    case Synchronise(outcome) => SyncXray(s, outcome)
    case Cleanup(slot, e) => CleanupSlot(s, slot, e)
    case StartStandby(node, started, probe) =>
      if !started then s.(counter := s.counter + 1)
      else HireWorker(s.(world := SetupSlot(s.world, s.counter + 1, s.counter + 1, probe)), node)
    case DropStandby(clear) => FireWorker(s.(world := ClearSlot(s.world, s.worker.value, clear)))
    case CommitStandby(observed, clear) =>
      var node := s.tunnels[s.worker.value].node.(observed := observed);
      var s1 := s.(world := ClearSlot(s.world, s.worker.value, clear));
      if Diverse(s, node, observed, -1) then Enqueue(s1, node) else FireWorker(s1)
    case Request(id, slot, target, eligible) => Reserve(s, id, slot, target, eligible)
    case Switching(id, e) => Advance(s, id, e)
  }

  /** A run performs its steps one after the other; a step that is not enabled is passed over. */
  function Next(s: State, step: Step): State {
    if Enabled(s, step) then Apply(s, step) else s
  }

  function Run(s: State, steps: seq<Step>): State {
    if steps == [] then s else Next(Run(s, steps[..|steps| - 1]), steps[|steps| - 1])
  }
}
