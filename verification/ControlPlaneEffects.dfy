/**
 What single operations do, field by field: the four ends of a drain attempt, and
 how far the effect of every other operation reaches.
 */
module Effects {
  import opened Wrappers
  import opened ControlPlane
  import opened Invariant
  import Leases
  import XrayTransaction

  // ---- One drain attempt ----

  function TableOf(w: World, table: int): Route {
    if table in w.tables then w.tables[table] else Empty
  }

  /** What a routing command leaves in its table. */
  function Left(outcome: RouteOutcome, intended: Route): Route {
    match outcome
    case Done => intended
    case Failed(left) => left
  }

  /** The scheduler's maps, the controllers and the tunnel objects are as before; only commands were run. */
  ghost predicate OnlyCommands(s: State, s': State) {
    s' == s.(world := s'.world)
  }

  ghost predicate XrayRefuses(s: State, q: nat, e: DrainInput) {
    s.world.xray.Some? && q in s.world.xray.value.memory && !e.xray.Applied?
  }

  ghost predicate ProcessGone(s: State, t: TunnelId)
    requires t in s.tunnels
  {
    s.tunnels[t].state != Up || s.tunnels[t].exited
  }

  /** A refused drain leaves everything as it was. */
  lemma RefusedDrain(s: State, q: nat, t: TunnelId, e: DrainInput)
    requires t in s.tunnels && (q in s.draining ==> s.draining[q] in s.tunnels) && XrayRefuses(s, q, e)
    ensures var s' := TransitionToDraining(s, q, t, e);
      OnlyCommands(s, s') && s'.world.tables == s.world.tables
      && s'.world.xray.Some? && s'.world.xray.value.memory == s.world.xray.value.memory
  {
    hide Retire, LeaveSlot, Overwrite;
  }

  /** A failed draining route leaves the tunnel up and on its slot; Xray has the slot again if it took it back. */
  lemma RestoredDrain(s: State, q: nat, t: TunnelId, e: DrainInput)
    requires t in s.tunnels && (q in s.draining ==> s.draining[q] in s.tunnels)
    requires !XrayRefuses(s, q, e) && !ProcessGone(s, t) && e.route.Failed?
    ensures var s' := TransitionToDraining(s, q, t, e);
      && s' == s.(tunnels := s.tunnels[t := s.tunnels[t].(drainingSince := 0)], world := s'.world)
      && TableOf(s'.world, BASE_TABLE + q) == TableOf(s.world, BASE_TABLE + q)
      && (s.world.xray.Some? && q in s.world.xray.value.memory ==>
            s'.world.xray.Some? && (s'.world.xray.value.memory == s.world.xray.value.memory <==> e.reactivate.Applied?))
  {
    hide Retire, LeaveSlot, Overwrite;
  }

  /** A process that is gone is retired: the slot is empty, closed and ready for a refill; nothing else moved. */
  lemma RetiredDrain(s: State, q: nat, t: TunnelId, e: DrainInput)
    requires t in s.tunnels && (q in s.draining ==> s.draining[q] in s.tunnels)
    requires !XrayRefuses(s, q, e) && ProcessGone(s, t)
    ensures var s' := TransitionToDraining(s, q, t, e);
      && s'.active == s.active - {q} && s'.draining == s.draining && s'.standby == s.standby
      && s'.tunnels == s.tunnels[t := s.tunnels[t].(state := Down, exited := true, place := Stopped)]
      && (e.clear.Done? ==> TableOf(s'.world, BASE_TABLE + q) == Unreachable)
      && (q in s.controllers ==>
            q in s'.controllers && s'.controllers[q].activeTunnel == None && s'.controllers[q].drainingTunnel == None
            && !s'.controllers[q].outboundActive && s'.controllers[q].state == Leases.Failed)
      && (forall p | p in s.controllers && p != q :: p in s'.controllers && s'.controllers[p] == s.controllers[p])
      && s'.override == s.override && s'.switches == s.switches && s'.worker == s.worker
  {
    hide LeaveSlot, Overwrite;
  }

  lemma OverwriteEffect(s: State, q: nat, tunIP: string)
    requires q in s.draining ==> s.draining[q] in s.tunnels
    ensures var s' := Overwrite(s, q);
      && s' == s.(tunnels := s'.tunnels, draining := s.draining - {q}, drainingTable := s'.drainingTable,
          drainingIP := s'.drainingIP)
      && s'.tunnels.Keys == s.tunnels.Keys
      && (forall u | u in s.tunnels ::
            s'.tunnels[u] == if q in s.draining && s.draining[q] == u then s.tunnels[u].(place := Lost)
                else s.tunnels[u])
      && s'.drainingTable[q := BASE_DRAINING_TABLE + q] == s.drainingTable[q := BASE_DRAINING_TABLE + q]
      && s'.drainingIP[q := tunIP] == s.drainingIP[q := tunIP]
  {
    if q !in s.draining {
      assert s.draining - {q} == s.draining;
    }
  }

  lemma LeaveSlotEffect(s: State, q: nat, t: TunnelId, tunIP: string, now: int)
    requires t in s.tunnels
    ensures var s' := LeaveSlot(s, q, t, tunIP, now);
      && s' == s.(tunnels := s'.tunnels, active := s.active - {q}, draining := s.draining[q := t],
                  drainingTable := s.drainingTable[q := BASE_DRAINING_TABLE + q],
                  drainingIP := s.drainingIP[q := tunIP], controllers := s'.controllers)
      && s'.tunnels == s.tunnels[t := s.tunnels[t].(state := Leaving, drainingSince := now, place := InDraining(q))]
      && (q in s.controllers ==>
            q in s'.controllers && s'.controllers[q].activeTunnel == None && !s'.controllers[q].outboundActive
            && s'.controllers[q].drainingTunnel == Some(t))
      && s'.controllers.Keys == s.controllers.Keys
      && (forall p | p in s.controllers && p != q :: s'.controllers[p] == s.controllers[p])
  {
  }

  /** Otherwise the tunnel drains under table 200 + q; the one it overwrites, if any, is held by nothing any more. */
  lemma CompletedDrain(s: State, q: nat, t: TunnelId, e: DrainInput)
    requires t in s.tunnels && (q in s.draining ==> s.draining[q] in s.tunnels && s.draining[q] != t)
    requires !XrayRefuses(s, q, e) && !ProcessGone(s, t) && e.route.Done?
    ensures var s' := TransitionToDraining(s, q, t, e);
      && s'.active == s.active - {q} && s'.draining == s.draining[q := t] && s'.standby == s.standby
      && s'.drainingTable == s.drainingTable[q := BASE_DRAINING_TABLE + q] &&
          s'.drainingIP == s.drainingIP[q := e.tunIP]
      && s'.tunnels.Keys == s.tunnels.Keys
      && s'.tunnels[t] == s.tunnels[t].(state := Leaving, drainingSince := e.now, place := InDraining(q))
      && (forall u | u in s.tunnels && u != t ::
            s'.tunnels[u] == if q in s.draining && s.draining[q] == u then s.tunnels[u].(place := Lost)
                else s.tunnels[u])
      && TableOf(s'.world, BASE_DRAINING_TABLE + q) == Dev(t)
      && (q in s.controllers ==>
            q in s'.controllers && s'.controllers[q].activeTunnel == None && !s'.controllers[q].outboundActive
            && s'.controllers[q].drainingTunnel == Some(t))
      && (forall p | p in s.controllers && p != q :: p in s'.controllers && s'.controllers[p] == s.controllers[p])
      && s'.override == s.override && s'.switches == s.switches && s'.worker == s.worker
  {
    hide Retire, LeaveSlot, Overwrite;
    var w := Routed(XrayDrain(s.world, q, e.xray).0, BASE_DRAINING_TABLE + q, Dev(t), e.route);
    OverwriteEffect(s.(world := w), q, e.tunIP);
    LeaveSlotEffect(Overwrite(s.(world := w), q), q, t, e.tunIP, e.now);
    assert (s.draining - {q})[q := t] == s.draining[q := t];
  }

  // ---- How far the effect of a step reaches ----

  /** Slots other than q are as before. */
  ghost predicate SlotsConfined(s: State, s': State, q: nat) {
    forall p: nat | p != q ::
      && Get(s'.active, p) == Get(s.active, p) && Get(s'.draining, p) == Get(s.draining, p)
      && Get(s'.controllers, p) == Get(s.controllers, p) && (p in s'.override <==> p in s.override)
  }

  /** Tables other than j and k are as before. */
  ghost predicate TablesConfined(w: World, w': World, j: int, k: int) {
    forall i: int | i != j && i != k :: TableOf(w', i) == TableOf(w, i)
  }

  /** Tunnel objects never vanish, stopped ones stay stopped, and none became unreachable. */
  ghost predicate NothingLost(m: map<TunnelId, Tunnel>, m': map<TunnelId, Tunnel>) {
    && (forall t | t in m :: t in m')
    && (forall t | t in m' && m'[t].place.Lost? :: t in m && m[t].place.Lost?)
    && (forall t | t in m && m[t].place.Stopped? :: m'[t].place.Stopped?)
  }

  lemma NothingLostHere(m: map<TunnelId, Tunnel>)
    ensures NothingLost(m, m)
  {
  }

  /** A drain attempt reaches its own slot, its two tables and the bookkeeping of drains. */
  ghost predicate DrainReached(s: State, s': State, q: nat) {
    && s' == s.(tunnels := s'.tunnels, active := s'.active, draining := s'.draining, drainingTable := s'.drainingTable,
                drainingIP := s'.drainingIP, controllers := s'.controllers, world := s'.world)
    && SlotsConfined(s, s', q)
    && TablesConfined(s.world, s'.world, BASE_DRAINING_TABLE + q, BASE_TABLE + q)
    && (q in s'.active ==> s'.active == s.active
                           && TablesConfined(s.world, s'.world, BASE_DRAINING_TABLE + q, BASE_DRAINING_TABLE + q))
    && (forall t | t in s.tunnels :: t in s'.tunnels)
    && (forall t | t in s'.tunnels && s'.tunnels[t].place.Lost? ::
          t in s.tunnels && (s.tunnels[t].place.Lost? || (q in s.draining && s.draining[q] == t)))
  }

  lemma RetireReach(s: State, q: nat, t: TunnelId)
    requires t in s.tunnels
    ensures var s' := Retire(s, q, t);
      && s' == s.(tunnels := s.tunnels[t := s.tunnels[t].(state := Down, exited := true, place := Stopped)],
                  active := s.active - {q}, controllers := s'.controllers)
      && SlotsConfined(s, s', q)
  {
  }

  lemma LeaveSlotReach(s: State, q: nat, t: TunnelId, tunIP: string, now: int)
    requires t in s.tunnels && (q in s.draining ==> s.draining[q] in s.tunnels && s.draining[q] != t)
    ensures var s' := LeaveSlot(Overwrite(s, q), q, t, tunIP, now); DrainReached(s, s', q) && q !in s'.active
  {
    hide LeaveSlot, Overwrite;
    OverwriteEffect(s, q, tunIP);
    LeaveSlotEffect(Overwrite(s, q), q, t, tunIP, now);
    assert (s.draining - {q})[q := t] == s.draining[q := t];
  }

  lemma DrainReachedVia(s: State, w: World, s': State, q: nat)
    requires DrainReached(s.(world := w), s', q) && q !in s'.active
    requires TablesConfined(s.world, w, BASE_DRAINING_TABLE + q, BASE_TABLE + q)
    ensures DrainReached(s, s', q)
  {
  }

  lemma RetiredReach(s: State, q: nat, t: TunnelId)
    requires t in s.tunnels
    ensures DrainReached(s, Retire(s, q, t), q) && q !in Retire(s, q, t).active
  {
    hide Retire;
    RetireReach(s, q, t);
  }

  lemma UndrainedReach(s: State, q: nat, t: TunnelId, tunnel: Tunnel, w: World)
    requires t in s.tunnels && tunnel.place == s.tunnels[t].place
    requires TablesConfined(s.world, w, BASE_DRAINING_TABLE + q, BASE_DRAINING_TABLE + q)
    ensures DrainReached(s, s.(world := w), q) && DrainReached(s, WithTunnel(s, t, tunnel).(world := w), q)
  {
  }

  lemma DrainReach(s: State, q: nat, t: TunnelId, e: DrainInput)
    requires t in s.tunnels && (q in s.draining ==> s.draining[q] in s.tunnels && s.draining[q] != t)
    ensures DrainReached(s, TransitionToDraining(s, q, t, e), q)
  {
    hide Retire, LeaveSlot, Overwrite, DrainReached, WithTunnel;
    var (w1, ok) := XrayDrain(s.world, q, e.xray);
    var closed := ClearSlot(w1, q, e.clear);
    var w2 := Routed(w1, BASE_DRAINING_TABLE + q, Dev(t), e.route);
    if !ok {
      UndrainedReach(s, q, t, s.tunnels[t], w1);
    } else if s.tunnels[t].state != Up || s.tunnels[t].exited {
      RetiredReach(s.(world := closed), q, t);
      DrainReachedVia(s, closed, Retire(s.(world := closed), q, t), q);
    } else if e.route.Failed? {
      UndrainedReach(s, q, t, s.tunnels[t].(state := Up, drainingSince := 0), XrayActivate(w2, q, e.reactivate).0);
    } else {
      LeaveSlotReach(s.(world := w2), q, t, e.tunIP, e.now);
      DrainReachedVia(s, w2, TransitionToDraining(s, q, t, e), q);
    }
  }

  lemma StopHeadReach(s: State, q: nat)
    requires |s.standby| > 0 && At(s, s.standby[0], InStandby)
    ensures var s' := StopHead(s);
      s' == s.(tunnels := s'.tunnels, standby := s'.standby) && NothingLost(s.tunnels, s'.tunnels)
  {
  }

  lemma SeatHeadReach(s: State, q: nat)
    requires |s.standby| > 0 && At(s, s.standby[0], InStandby)
    ensures var s' := SeatHead(s, q);
      && s' == s.(tunnels := s'.tunnels, standby := s'.standby, controllers := s'.controllers,
          active := s.active[q := s.standby[0]])
      && NothingLost(s.tunnels, s'.tunnels) && SlotsConfined(s, s', q)
  {
  }

  /** The world a promotion leaves behind, and whether it goes through. */
  function PromotionWorld(s: State, q: nat, e: PromoteInput): (World, bool)
    requires |s.standby| > 0 && s.standby[0] in s.tunnels
  {
    var w1 := SetupSlot(s.world, q, s.standby[0], e.route);
    var (w2, ok) := XrayActivate(w1, q, e.activate);
    if s.tunnels[s.standby[0]].state != Up then (s.world, false)
    else if e.route.Failed? then (w1, false)
    else if !ok then (ClearSlot(w2, q, e.clear), false) else (w2, true)
  }

  lemma PromotionWorldReach(s: State, q: nat, e: PromoteInput)
    requires |s.standby| > 0 && s.standby[0] in s.tunnels
    ensures var (w, seated) := PromotionWorld(s, q, e);
      && TablesConfined(s.world, w, BASE_TABLE + q, BASE_TABLE + q)
      && (seated ==> TableOf(w, BASE_TABLE + q) == Dev(s.standby[0]))
      && Promote(s, q, e) == (if seated then SeatHead(s.(world := w), q) else StopHead(s.(world := w)))
  {
    hide StopHead, SeatHead;
  }

  lemma PromoteReach(s: State, q: nat, e: PromoteInput)
    requires |s.standby| > 0 && At(s, s.standby[0], InStandby) && q !in s.active
    ensures var s' := Promote(s, q, e);
      && SlotsConfined(s, s', q) && TablesConfined(s.world, s'.world, BASE_TABLE + q, BASE_TABLE + q)
      && NothingLost(s.tunnels, s'.tunnels)
      && s' == s.(tunnels := s'.tunnels, standby := s'.standby, controllers := s'.controllers, active := s'.active,
          world := s'.world)
      && (q in s'.active ==> s'.active[q] == s.standby[0] && TableOf(s'.world, BASE_TABLE + q) == Dev(s.standby[0]))
  {
    hide Promote, PromotionWorld, StopHead, SeatHead, NothingLost, TablesConfined;
    PromotionWorldReach(s, q, e);
    var (w, seated) := PromotionWorld(s, q, e);
    if seated {
      SeatHeadReach(s.(world := w), q);
    } else {
      StopHeadReach(s.(world := w), q);
    }
  }

  lemma LeaveDrainingReach(s: State, q: nat, flush: RouteOutcome)
    requires q in s.draining && At(s, s.draining[q], InDraining(q))
    requires q in s.drainingTable && s.drainingTable[q] == BASE_DRAINING_TABLE + q
    ensures var s' := LeaveDraining(s, q, flush);
      && s' == s.(tunnels := s'.tunnels, draining := s.draining - {q}, drainingTable := s.drainingTable - {q},
                  drainingIP := s.drainingIP - {q}, world := s'.world)
      && TablesConfined(s.world, s'.world, BASE_DRAINING_TABLE + q, BASE_DRAINING_TABLE + q) &&
          NothingLost(s.tunnels, s'.tunnels)
  {
  }

  lemma CleanupReach(s: State, q: nat, e: CleanupInput)
    requires q in s.draining && At(s, s.draining[q], InDraining(q))
    requires q in s.drainingTable && s.drainingTable[q] == BASE_DRAINING_TABLE + q
    ensures var s' := CleanupSlot(s, q, e);
      && SlotsConfined(s, s', q) && TablesConfined(s.world, s'.world, BASE_DRAINING_TABLE + q, BASE_TABLE + q)
      && NothingLost(s.tunnels, s'.tunnels)
      && s' == s.(tunnels := s'.tunnels, draining := s'.draining, drainingTable := s'.drainingTable,
                  drainingIP := s'.drainingIP, controllers := s'.controllers, world := s'.world)
      && (s'.draining == s.draining || s'.draining == s.draining - {q})
      && s'.controllers.Keys == s.controllers.Keys
      && (q in s.controllers ==> SameAuthority(s.controllers[q], s'.controllers[q]))
      && (q in s.active || !TimedOut(s.tunnels[s.draining[q]], e.now) ==>
            TablesConfined(s.world, s'.world, BASE_DRAINING_TABLE + q, BASE_DRAINING_TABLE + q))
  {
    hide LeaveDraining, NothingLost;
    NothingLostHere(s.tunnels);
    LeaveDrainingReach(s, q, e.flush);
  }

  lemma HireReach(s: State, node: Node)
    requires s.counter + 1 !in s.tunnels
    ensures var s' := HireWorker(s, node);
      s' == s.(tunnels := s'.tunnels, counter := s.counter + 1, worker := s'.worker) &&
          NothingLost(s.tunnels, s'.tunnels)
  {
  }

  lemma WorkerLeavesReach(s: State, node: Node)
    requires s.worker.Some? && At(s, s.worker.value, WithWorker)
    ensures var s' := FireWorker(s);
      s' == s.(tunnels := s'.tunnels, worker := None) && NothingLost(s.tunnels, s'.tunnels)
    ensures var s' := Enqueue(s, node);
      s' == s.(tunnels := s'.tunnels, worker := None, standby := s'.standby) && NothingLost(s.tunnels, s'.tunnels)
  {
  }

  /** Standby qualification works in a table of its own number. */
  lemma StandbyReach(s: State, step: Step)
    requires PlacesTold(s) && NumbersFresh(s) && Enabled(s, step)
    requires step.StartStandby? || step.DropStandby? || step.CommitStandby?
    ensures var s' := Apply(s, step);
      var k := BASE_TABLE + if s.worker.Some? then s.worker.value else s.counter + 1;
      && k > BASE_TABLE + s.maxActive && TablesConfined(s.world, s'.world, k, k) && NothingLost(s.tunnels, s'.tunnels)
      && s'.world.xray == s.world.xray
      && s' == s.(tunnels := s'.tunnels, counter := s'.counter, worker := s'.worker, standby := s'.standby,
          world := s'.world)
  {
    hide Diverse, HireWorker, FireWorker, Enqueue, NothingLost;
    if s.worker.Some? {
      WorkerKnown(s);
    }
    NothingLostHere(s.tunnels);
    match step
    case StartStandby(node, _, probe) =>
      HireReach(s.(world := SetupSlot(s.world, s.counter + 1, s.counter + 1, probe)), node);
    case DropStandby(clear) =>
      WorkerLeavesReach(s.(world := ClearSlot(s.world, s.worker.value, clear)), s.tunnels[s.worker.value].node);
    case CommitStandby(observed, clear) =>
      WorkerLeavesReach(s.(world := ClearSlot(s.world, s.worker.value, clear)),
                        s.tunnels[s.worker.value].node.(observed := observed));
  }

  lemma ReserveReach(s: State, id: string, q: nat, target: Node, eligible: bool)
    ensures var s' := Reserve(s, id, q, target, eligible);
      SlotsConfined(s, s', q) &&
          s' == s.(controllers := s'.controllers, override := s'.override, switches := s'.switches)
  {
    hide Diverse;
  }

  /** The table number of the candidate, present or to come. */
  function CandidateTable(s: State, id: string): int
    requires id in s.switches
  {
    var w := s.switches[id];
    BASE_TABLE + if HoldsCandidate(w) && w.candidate.Some? then w.candidate.value else s.counter + 1
  }

  /** Maps of tunnels are untouched; one slot's controller and override, and two tables, may be. */
  ghost predicate SwitchReach(s: State, s': State, id: string, j: int, k: int) {
    && id in s.switches && id in s'.switches
    && s' == s.(counter := s'.counter, tunnels := s'.tunnels, controllers := s'.controllers, override := s'.override,
                switches := s.switches[id := s'.switches[id]], world := s'.world)
    && s'.switches[id].slot == s.switches[id].slot
    && (s'.switches[id].verdict == s.switches[id].verdict || s'.switches[id].verdict.Rejected?)
    && SlotsConfined(s, s', s.switches[id].slot)
    && NothingLost(s.tunnels, s'.tunnels)
    && TablesConfined(s.world, s'.world, j, k)
    && (s'.world.xray == s.world.xray || TalksToXray(s.switches[id]))
  }

  ghost predicate TalksToXray(w: Switch) {
    w.phase.XrayOn? || w.phase.UndoXray?
  }

  lemma GotoReach(s: State, id: string, w: Switch, world: World, j: int, k: int)
    requires id in s.switches && w.slot == s.switches[id].slot && TablesConfined(s.world, world, j, k)
    requires w.verdict == s.switches[id].verdict || w.verdict.Rejected?
    requires world.xray == s.world.xray || TalksToXray(s.switches[id])
    ensures SwitchReach(s, s.(world := world, switches := s.switches[id := w]), id, j, k)
  {
  }

  lemma CheckTargetReach(s: State, id: string, found: bool, j: int)
    requires id in s.switches
    ensures SwitchReach(s, CheckTarget(s, id, found), id, j, j)
  {
    hide SwitchReach;
    var s' := CheckTarget(s, id, found);
    assert s'.switches == s.switches[id := s'.switches[id]];
    GotoReach(s, id, s'.switches[id], s.world, j, j);
  }

  lemma StartCandidateReach(s: State, id: string, started: bool)
    requires id in s.switches && !HoldsCandidate(s.switches[id]) && s.counter + 1 !in s.tunnels
    ensures SwitchReach(s, StartCandidate(s, id, started), id, CandidateTable(s, id), CandidateTable(s, id))
  {
  }

  lemma RouteCandidateReach(s: State, id: string, t: TunnelId, route: RouteOutcome)
    requires id in s.switches && HoldsCandidate(s.switches[id]) && s.switches[id].candidate == Some(t)
    ensures SwitchReach(s, RouteCandidate(s, id, t, route), id, CandidateTable(s, id), CandidateTable(s, id))
  {
    hide SwitchReach;
    var s' := RouteCandidate(s, id, t, route);
    GotoReach(s, id, s'.switches[id], s'.world, BASE_TABLE + t, BASE_TABLE + t);
  }

  lemma AbandonReach(s: State, id: string, world: World, clear: RouteOutcome)
    requires id in s.switches && HoldsCandidate(s.switches[id]) && s.switches[id].candidate.Some? &&
        world.tables == s.world.tables
    requires world.xray == s.world.xray || TalksToXray(s.switches[id])
    ensures SwitchReach(s, Abandon(s.(world := world), id, clear), id, CandidateTable(s, id), CandidateTable(s, id))
  {
    hide SwitchReach;
    var s' := Abandon(s.(world := world), id, clear);
    GotoReach(s, id, s'.switches[id], s'.world, CandidateTable(s, id), CandidateTable(s, id));
  }

  lemma VerifyReach(s: State, id: string, t: TunnelId, e: SwitchInput)
    requires Steerable(s, id) && HoldsCandidate(s.switches[id]) && s.switches[id].candidate == Some(t) && t in s.tunnels
    ensures SwitchReach(s, Verify(s, id, t, e), id, CandidateTable(s, id), CandidateTable(s, id))
  {
  }

  lemma SwitchXrayOnReach(s: State, id: string, e: SwitchInput)
    requires id in s.switches && s.switches[id].phase.XrayOn? && s.switches[id].candidate.Some?
    ensures SwitchReach(s, SwitchXrayOn(s, id, e), id, CandidateTable(s, id), CandidateTable(s, id))
  {
    hide SwitchReach;
    hide Abandon;
    var w1 := XrayActivate(s.world, s.switches[id].slot, e.xray).0;
    AbandonReach(s, id, w1, e.clear);
    GotoReach(s, id, s.switches[id].(phase := Cutover), w1, CandidateTable(s, id), CandidateTable(s, id));
  }

  lemma CutOverReach(s: State, id: string, t: TunnelId, e: SwitchInput)
    requires id in s.switches && HoldsCandidate(s.switches[id]) && s.switches[id].candidate == Some(t) &&
        t != s.switches[id].slot
    ensures var s' := CutOver(s, id, t, e);
      && SwitchReach(s, s', id, CandidateTable(s, id), BASE_TABLE + s.switches[id].slot)
      && (s'.switches[id].phase.Committing? ==> TableOf(s'.world, BASE_TABLE + s.switches[id].slot) == Dev(t))
      && (s'.switches[id].phase.Committing? || s'.switches[id].phase.UndoRoute?)
  {
    hide SwitchReach;
    var s' := CutOver(s, id, t, e);
    assert s'.switches == s.switches[id := s'.switches[id]];
    GotoReach(s, id, s'.switches[id], s'.world, BASE_TABLE + t, BASE_TABLE + s.switches[id].slot);
  }

  lemma RestoreRouteReach(s: State, id: string, route: RouteOutcome, j: int)
    requires id in s.switches
    ensures SwitchReach(s, RestoreRoute(s, id, route), id, j, BASE_TABLE + s.switches[id].slot)
  {
    hide SwitchReach;
    var s' := RestoreRoute(s, id, route);
    GotoReach(s, id, s'.switches[id], s'.world, j, BASE_TABLE + s.switches[id].slot);
  }

  /** A rollback whose commands succeed points the slot at the tunnel found before the switch, or closes it. */
  lemma RestoredRoute(s: State, id: string)
    requires id in s.switches
    ensures var s' := RestoreRoute(s, id, Done); var w := s.switches[id];
      && TableOf(s'.world, BASE_TABLE + w.slot) == (if w.current.Some? then Dev(w.current.value) else Unreachable)
      && s'.switches[id] == w.(phase := if w.current.Some? then StopCandidate else UndoXray)
  {
  }

  lemma DisposeReach(s: State, id: string, j: int)
    requires id in s.switches && s.switches[id].candidate.Some? && s.switches[id].candidate.value in s.tunnels
    ensures SwitchReach(s, Reject(Stop(s, s.switches[id].candidate.value), id), id, j, j)
  {
  }

  /** The controller of the slot, its override and the record of the switch. */
  lemma EndReach(s: State, s': State, id: string, j: int)
    requires id in s.switches && id in s'.switches && s'.switches[id].slot == s.switches[id].slot
    requires s'.switches[id].verdict == s.switches[id].verdict
    requires s' == s.(controllers := s'.controllers, override := s'.override,
        switches := s.switches[id := s'.switches[id]])
    requires SlotsConfined(s, s', s.switches[id].slot)
    ensures SwitchReach(s, s', id, j, j)
  {
  }

  lemma PublishReach(s: State, id: string, j: int)
    requires id in s.switches
    ensures SwitchReach(s, Publish(s, id), id, j, j)
  {
    hide SwitchReach;
    EndReach(s, Publish(s, id), id, j);
  }

  lemma ReleaseLeaseReach(s: State, id: string, j: int)
    requires id in s.switches
    ensures SwitchReach(s, ReleaseLease(s, id), id, j, j)
  {
    hide SwitchReach, Leases.Release;
    EndReach(s, ReleaseLease(s, id), id, j);
  }

  lemma ReleaseOverrideReach(s: State, id: string, j: int)
    requires id in s.switches
    ensures SwitchReach(s, ReleaseOverride(s, id), id, j, j)
  {
    hide SwitchReach;
    EndReach(s, ReleaseOverride(s, id), id, j);
  }

  /** Up to its commit a switch touches no map of tunnels, and its slot's table only at the cutover and its undoing. */
  lemma AdvanceReach(s: State, id: string, e: SwitchInput)
    requires Inv(s) && Steerable(s, id) && !s.switches[id].phase.Committing?
    ensures var s' := Advance(s, id, e); var w := s.switches[id]; var j := CandidateTable(s, id);
      SwitchReach(s, s', id, j, if w.phase.Cutover? || w.phase.UndoRoute? then BASE_TABLE + w.slot else j)
  {
    hide Goto, Reject, CheckTarget, StartCandidate, RouteCandidate, Verify, SwitchXrayOn, CutOver, Commit,
         RestoreRoute, Publish, ReleaseLease, ReleaseOverride, Stop, Preempted, CandidateDiverse, Abandon, XrayDrain,
         SwitchReach, PlacesTold, PrefixesDistinct, SwitchesFit, OverridesOwned;
    var w := s.switches[id];
    var j := CandidateTable(s, id);
    FitsKnown(s, id);
    assert s.(world := s.world) == s;
    match w.phase
    case Preflight => CheckTargetReach(s, id, e.ok, j);
    case Starting => StartCandidateReach(s, id, e.ok);
    case CandidateRouting => RouteCandidateReach(s, id, w.candidate.value, e.route);
    case Verifying => VerifyReach(s, id, w.candidate.value, e);
    case XrayOn => SwitchXrayOnReach(s, id, e);
    case Cutover => CutOverReach(s, id, w.candidate.value, e);
    case UndoRoute => RestoreRouteReach(s, id, e.route, j);
    case StopCandidate => DisposeReach(s, id, j);
    case Publishing => PublishReach(s, id, j);
    case ReleasingLease => ReleaseLeaseReach(s, id, j);
    case ReleasingOverride => ReleaseOverrideReach(s, id, j);
    case Admission => MoveReach(s, id, Preflight, s.world, j);
    case FirstLeaseCheck => MoveReach(s, id, Starting, s.world, j);
    case DiversityCheck => MoveReach(s, id, SecondLeaseCheck, s.world, j); AbandonReach(s, id, s.world, e.clear);
    case SecondLeaseCheck => MoveReach(s, id, XrayOn, s.world, j); AbandonReach(s, id, s.world, e.clear);
    case UndoXray => UndoXrayReach(s, id, e.xray, j);
    case Finished => MoveReach(s, id, Finished, s.world, j);
  }

  lemma MoveReach(s: State, id: string, p: Phase, world: World, j: int)
    requires id in s.switches && world.tables == s.world.tables
    requires world.xray == s.world.xray || TalksToXray(s.switches[id])
    ensures SwitchReach(s, s, id, j, j)
    ensures SwitchReach(s, Goto(s.(world := world), id, p), id, j, j)
    ensures SwitchReach(s, Reject(s, id), id, j, j)
  {
    hide SwitchReach;
    var w := s.switches[id];
    GotoReach(s, id, w, s.world, j, j);
    GotoReach(s, id, w.(phase := p), world, j, j);
    GotoReach(s, id, w.(phase := ReleasingLease, verdict := Rejected), s.world, j, j);
    assert s.(world := s.world, switches := s.switches[id := w]) == s;
  }

  lemma UndoXrayReach(s: State, id: string, outcome: XrayTransaction.Outcome, j: int)
    requires id in s.switches && s.switches[id].phase.UndoXray?
    ensures SwitchReach(s, Goto(s.(world := XrayDrain(s.world, s.switches[id].slot, outcome).0), id, StopCandidate),
        id, j, j)
  {
    hide SwitchReach, Goto;
    MoveReach(s, id, StopCandidate, XrayDrain(s.world, s.switches[id].slot, outcome).0, j);
  }

  // ---- The commit ----

  /** Preserving the replaced tunnel works in the draining table of the slot, and takes nothing off the active map. */
  lemma DrainReplacedReach(s: State, q: nat, t: TunnelId, route: RouteOutcome, tunIP: string, now: int)
    requires t in s.tunnels
    ensures var s' := DrainReplaced(s, q, t, route, tunIP, now).0;
      && TablesConfined(s.world, s'.world, BASE_DRAINING_TABLE + q, BASE_DRAINING_TABLE + q)
      && s'.switches == s.switches && s'.world.xray == s.world.xray
  {
  }

  /** The commit works in the draining table of the slot, and in the slot's own table when it has to put it back. */
  ghost predicate CommitWrites(s: State, s': State, id: string, q: nat, route: RouteOutcome) {
    && id in s.switches && id in s'.switches && s'.world.xray == s.world.xray
    && s'.switches[id] == s.switches[id].(phase := s'.switches[id].phase, verdict := s'.switches[id].verdict)
    && TablesConfined(s.world, s'.world, BASE_DRAINING_TABLE + q, BASE_TABLE + q)
    && (s'.switches[id].phase.Publishing? ==>
          TablesConfined(s.world, s'.world, BASE_DRAINING_TABLE + q, BASE_DRAINING_TABLE + q))
    && (s'.switches[id].phase.StopCandidate? && route.Done? ==>
          q in s.active && TableOf(s'.world, BASE_TABLE + q) == Dev(s.active[q]))
    && (s'.switches[id].phase.UndoRoute? ==> s'.world == s.world)
    && (s'.switches[id].phase.Publishing? || s'.switches[id].phase.StopCandidate? || s'.switches[id].phase.UndoRoute?)
  }

  lemma CommitWithoutDrain(s: State, id: string, t: TunnelId, e: SwitchInput)
    requires id in s.switches && s.switches[id].candidate == Some(t) && t in s.tunnels
    ensures CommitWrites(s, Goto(s, id, UndoRoute), id, s.switches[id].slot, e.route)
    ensures CommitWrites(s, Succeed(Install(s, s.switches[id].slot, t), id), id, s.switches[id].slot, e.route)
  {
  }

  lemma CommitWithDrain(s: State, s1: State, ok: bool, id: string, e: SwitchInput)
    requires id in s.switches && s1.switches == s.switches && s1.world.xray == s.world.xray &&
        s.switches[id].slot in s.active
    requires TablesConfined(s.world, s1.world, BASE_DRAINING_TABLE + s.switches[id].slot,
        BASE_DRAINING_TABLE + s.switches[id].slot)
    ensures var q := s.switches[id].slot;
      CommitWrites(s, if ok then Succeed(s1, id)
                      else Goto(s.(world := SetupSlot(s1.world, q, s.active[q], e.route)), id, StopCandidate),
                          id, q, e.route)
  {
  }

  lemma CommitTables(s: State, id: string, t: TunnelId, e: SwitchInput)
    requires id in s.switches && s.switches[id].candidate == Some(t) && t in s.tunnels
    ensures CommitWrites(s, Commit(s, id, t, e), id, s.switches[id].slot, e.route)
  {
    hide CandidateDiverse, DrainReplaced, CommitWrites, Goto, Succeed, SetupSlot, TablesConfined;
    var q := s.switches[id].slot;
    CommitWithoutDrain(s, id, t, e);
    if q in s.active && s.active[q] in s.tunnels && s.active[q] != t {
      DrainReplacedReach(Install(s, q, t), q, s.active[q], e.drainRoute, e.tunIP, e.now);
      var (s1, ok) := DrainReplaced(Install(s, q, t), q, s.active[q], e.drainRoute, e.tunIP, e.now);
      CommitWithDrain(s, s1, ok, id, e);
    }
  }
}
