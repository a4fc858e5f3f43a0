/**
 What every step of the control plane keeps, whoever takes it and in whatever order.
 */
module Invariant {
  import opened Wrappers
  import opened ControlPlane
  import Leases
  import XrayTransaction

  // ---- Where tunnels are ----

  ghost predicate SlotsInRange(s: State) {
    && (forall q | q in s.active :: q < s.maxActive)
    && (forall q | q in s.draining :: q < s.maxActive)
    && (forall q | q in s.override :: q < s.maxActive)
    && (forall q: nat :: q in s.controllers <==> q < s.maxActive)
  }

  ghost predicate NumbersFresh(s: State) {
    && s.maxActive + s.maxStandby + 10 <= s.counter
    && (forall t | t in s.tunnels :: s.maxActive + s.maxStandby + 10 < t <= s.counter)
  }

  ghost predicate At(s: State, t: TunnelId, place: Place) {
    t in s.tunnels && s.tunnels[t].place == place
  }

  ghost predicate Found(s: State, t: TunnelId, place: Place) {
    match place
    case InSlot(q) => q in s.active && s.active[q] == t
    case InDraining(q) => q in s.draining && s.draining[q] == t
    case InStandby => t in s.standby
    case WithWorker => s.worker == Some(t)
    case WithSwitch(id) => id in s.switches && HoldsCandidate(s.switches[id]) && s.switches[id].candidate == Some(t)
    case Stopped => false
    case Lost => false
  }

  ghost predicate Holder(place: Place) { !place.Stopped? && !place.Lost? }

  /** What the maps, the queue, the worker and the switches hold is exactly what the history variables say. */
  ghost predicate PlacesTold(s: State) {
    forall t: TunnelId, p: Place | Holder(p) :: Found(s, t, p) <==> At(s, t, p)
  }

  ghost predicate StandbyDistinct(s: State) {
    && |s.standby| + (if s.worker.Some? then 1 else 0) <= s.maxStandby
    && (forall i, j | 0 <= i < j < |s.standby| :: s.standby[i] != s.standby[j])
  }

  ghost predicate DrainingRecorded(s: State) {
    && s.drainingTable.Keys == s.draining.Keys
    && s.drainingIP.Keys == s.draining.Keys
    && (forall q | q in s.drainingTable :: s.drainingTable[q] == BASE_DRAINING_TABLE + q)
  }

  ghost predicate Placed(s: State) {
    && SlotsInRange(s) && NumbersFresh(s) && PlacesTold(s) && StandbyDistinct(s) && DrainingRecorded(s)
  }

  // ---- Address diversity ----

  /** Active and standby tunnels take new connections, now or after promotion. */
  ghost predicate Exposed(t: Tunnel) {
    t.place.InSlot? || t.place.InStandby?
  }

  ghost predicate Clash(a: Node, b: Node) {
    a.id != b.id && !(Prefixes(a, Unusable) !! Prefixes(b, Unusable))
  }

  ghost predicate PrefixesDistinct(s: State) {
    forall t, u | t in s.tunnels && u in s.tunnels && Exposed(s.tunnels[t]) && Exposed(s.tunnels[u]) ::
      !Clash(s.tunnels[t].node, s.tunnels[u].node)
  }

  // ---- Controllers and switches ----

  ghost predicate Agrees(s: State, q: nat) {
    q in s.controllers
    && s.controllers[q].activeTunnel == Get(s.active, q)
    && (s.controllers[q].outboundActive <==> q in s.active)
  }

  ghost predicate Unfinished(w: Switch) { !w.phase.Finished? }

  ghost predicate HoldsLease(w: Switch) { !w.phase.Finished? && !w.phase.ReleasingOverride? }

  ghost predicate BeforeCommit(w: Switch) { HoldsCandidate(w) || w.phase.FirstLeaseCheck? || w.phase.Starting? }

  /** What is true of one switch at the phase it has reached. */
  ghost predicate SwitchFits(s: State, id: string, w: Switch) {
    && (Unfinished(w) ==> w.slot in s.override && w.slot in s.controllers)
    && (HoldsCandidate(w) ==> w.candidate.Some?)
    && w.lease.operation == id && w.lease.owner == MANUAL_OWNER
    && (HoldsLease(w) ==> Leases.Validates(s.controllers[w.slot], w.lease))
    && (w.phase.ReleasingOverride? ==> s.controllers[w.slot].owner == "")
    && (BeforeCommit(w) ==> w.current == Get(s.active, w.slot))
    && (BeforeCommit(w) || w.phase.Admission? || w.phase.Preflight? <==> w.verdict.Pending?)
    && (w.phase.Publishing? ==> w.verdict.Succeeded?)
    && (w.verdict.Succeeded? ==> w.candidate.Some?)
    && (w.verdict.Succeeded? && Unfinished(w) ==> w.slot in s.active && Some(s.active[w.slot]) == w.candidate)
    && (Unfinished(w) && !w.phase.Publishing? ==> Agrees(s, w.slot))
  }

  ghost predicate SwitchesFit(s: State) {
    && (forall id | id in s.switches :: SwitchFits(s, id, s.switches[id]))
    && (forall i, j | i in s.switches && j in s.switches && Unfinished(s.switches[i]) && Unfinished(s.switches[j])
          && s.switches[i].slot == s.switches[j].slot :: i == j)
  }

  ghost predicate OwnedBy(s: State, id: string, q: nat) {
    id in s.switches && Unfinished(s.switches[id]) && s.switches[id].slot == q
  }

  ghost predicate OverridesOwned(s: State) {
    && (forall q | q in s.override :: exists id :: OwnedBy(s, id, q))
    && (forall q | q in s.controllers && q !in s.override :: Agrees(s, q) && s.controllers[q].owner == "")
  }

  ghost predicate Inv(s: State) {
    Placed(s) && PrefixesDistinct(s) && SwitchesFit(s) && OverridesOwned(s)
  }

  lemma InitialInv(maxActive: nat, maxStandby: nat, xray: Option<XrayTransaction.Xray>)
    ensures Inv(Initial(maxActive, maxStandby, xray))
  {
    assert FreshController(0) == Leases.NewController;
    forall q: nat ensures q in Initial(maxActive, maxStandby, xray).controllers <==> q < maxActive {
      assert FreshController(q) == Leases.NewController;
    }
  }

  // ---- What the predicates depend on ----

  ghost predicate SameHolders(s: State, s': State) {
    && s'.maxActive == s.maxActive && s'.maxStandby == s.maxStandby && s'.counter == s.counter
    && s'.active == s.active && s'.draining == s.draining && s'.standby == s.standby && s'.worker == s.worker
    && s'.drainingTable == s.drainingTable && s'.drainingIP == s.drainingIP
    && s'.override == s.override && s'.switches == s.switches && s'.controllers == s.controllers
  }

  ghost predicate SameTunnels(s: State, s': State) {
    && s'.tunnels.Keys == s.tunnels.Keys
    && (forall t | t in s.tunnels ::
          s'.tunnels[t].node == s.tunnels[t].node && s'.tunnels[t].place == s.tunnels[t].place)
  }

  lemma PlacesFrame(s: State, s': State)
    requires SameHolders(s, s') && SameTunnels(s, s')
    requires PlacesTold(s)
    ensures PlacesTold(s')
  {
    forall t: TunnelId, p: Place | Holder(p) ensures Found(s', t, p) <==> At(s', t, p) {
      assert Found(s, t, p) <==> At(s, t, p);
    }
  }

  /** The fields of a controller that leases and the active map speak about. */
  ghost predicate SameAuthority(c: Leases.Controller, c': Leases.Controller) {
    && c'.generation == c.generation && c'.owner == c.owner && c'.operation == c.operation
    && c'.activeTunnel == c.activeTunnel && c'.outboundActive == c.outboundActive
  }

  /** Only the entries of slot q differ. */
  ghost predicate SameElsewhere(s: State, s': State, q: nat) {
    && s'.controllers.Keys == s.controllers.Keys
    && (forall p: nat | p != q :: p in s'.override <==> p in s.override)
    && (forall p | p in s.controllers && p != q :: SameAuthority(s.controllers[p], s'.controllers[p]))
    && (forall p: nat | p != q ::
          (p in s'.active <==> p in s.active) && (p in s.active ==> s'.active[p] == s.active[p]))
  }

  /** Slot q may change too, but in nothing that matters here. */
  ghost predicate SameAt(s: State, s': State, q: nat) {
    && (q in s'.override <==> q in s.override)
    && (q in s.controllers && q in s'.controllers ==> SameAuthority(s.controllers[q], s'.controllers[q]))
    && (q in s'.active <==> q in s.active) && (q in s.active ==> s'.active[q] == s.active[q])
  }

  lemma SwitchApart(s: State, s': State, q: nat, id: string, w: Switch)
    requires SameElsewhere(s, s', q) && SwitchFits(s, id, w)
    requires Unfinished(w) ==> w.slot != q || SameAt(s, s', q)
    ensures SwitchFits(s', id, w)
  {
  }

  lemma OwnersApart(s: State, s': State, q: nat)
    requires OverridesOwned(s)
    requires SameElsewhere(s, s', q)
    requires forall id, p | OwnedBy(s, id, p) && p != q :: OwnedBy(s', id, p)
    requires q in s'.override ==> exists id :: OwnedBy(s', id, q)
    requires q in s'.controllers && q !in s'.override ==> Agrees(s', q) && s'.controllers[q].owner == ""
    ensures OverridesOwned(s')
  {
    forall p | p in s'.override ensures exists id :: OwnedBy(s', id, p) {
      if p != q {
        var id :| OwnedBy(s, id, p);
        assert OwnedBy(s', id, p);
      }
    }
    forall p | p in s'.controllers && p !in s'.override ensures Agrees(s', p) && s'.controllers[p].owner == "" {
      assert p != q ==> Agrees(s, p);
    }
  }

  /** A step on a slot that no switch owns may change that slot's entries, as long as they go on agreeing. */
  lemma SwitchesApart(s: State, s': State, q: nat)
    requires SwitchesFit(s) && OverridesOwned(s) && q !in s.override && q !in s'.override
    requires SameElsewhere(s, s', q) && s'.switches == s.switches
    requires Agrees(s', q) && s'.controllers[q].owner == ""
    ensures SwitchesFit(s') && OverridesOwned(s')
  {
    forall id | id in s'.switches ensures SwitchFits(s', id, s'.switches[id]) {
      SwitchApart(s, s', q, id, s.switches[id]);
    }
    OwnersApart(s, s', q);
  }

  /** A step that changes no entry that matters, on any slot. */
  lemma SwitchesFrame(s: State, s': State, q: nat)
    requires SwitchesFit(s) && OverridesOwned(s)
    requires SameElsewhere(s, s', q) && SameAt(s, s', q) && s'.switches == s.switches
    ensures SwitchesFit(s') && OverridesOwned(s')
  {
    forall id | id in s'.switches ensures SwitchFits(s', id, s'.switches[id]) {
      SwitchApart(s, s', q, id, s.switches[id]);
    }
    if q in s.override {
      var id :| OwnedBy(s, id, q);
      assert OwnedBy(s', id, q);
    }
    assert q in s.controllers && q !in s.override ==> Agrees(s, q);
    OwnersApart(s, s', q);
  }

  /** A switch that owns slot q, or is being granted it, moves on; everything else is apart. */
  lemma SwitchMoved(s: State, s': State, id: string, q: nat)
    requires SwitchesFit(s) && OverridesOwned(s) && SameElsewhere(s, s', q)
    requires id in s.switches ==> Unfinished(s.switches[id]) && s.switches[id].slot == q
    requires id !in s.switches ==> q !in s.override
    requires id in s'.switches && s'.switches == s.switches[id := s'.switches[id]] && s'.switches[id].slot == q
    requires SwitchFits(s', id, s'.switches[id])
    requires !Unfinished(s'.switches[id]) && q in s'.controllers ==>
               q !in s'.override && Agrees(s', q) && s'.controllers[q].owner == ""
    requires !Unfinished(s'.switches[id]) ==> q !in s'.override
    ensures SwitchesFit(s') && OverridesOwned(s')
  {
    forall j | j in s'.switches ensures SwitchFits(s', j, s'.switches[j]) {
      if j != id {
        assert SwitchFits(s, j, s.switches[j]);
        SwitchApart(s, s', q, j, s.switches[j]);
      }
    }
    forall j, p | OwnedBy(s, j, p) && p != q ensures OwnedBy(s', j, p) {}
    if Unfinished(s'.switches[id]) {
      assert OwnedBy(s', id, q);
    }
    OwnersApart(s, s', q);
  }

  ghost predicate Quiet(s: State, s': State) {
    SameHolders(s, s') && SameTunnels(s, s')
  }

  /** Health, clocks, Xray and routing tables may change at will. */
  lemma QuietFrame(s: State, s': State)
    requires Quiet(s, s') && Inv(s)
    ensures Inv(s')
  {
    PlacesFrame(s, s');
    SwitchesFrame(s, s', 0);
  }

  lemma WorldFrame(s: State, w: World)
    requires Inv(s)
    ensures Inv(s.(world := w))
  {
    QuietFrame(s, s.(world := w));
  }

  lemma ActiveKnown(s: State, q: nat)
    requires PlacesTold(s) && q in s.active
    ensures At(s, s.active[q], InSlot(q))
  {
    assert Found(s, s.active[q], InSlot(q));
  }

  lemma DrainingKnown(s: State, q: nat)
    requires PlacesTold(s) && q in s.draining
    ensures At(s, s.draining[q], InDraining(q))
  {
    assert Found(s, s.draining[q], InDraining(q));
  }

  lemma StandbyKnown(s: State, i: nat)
    requires PlacesTold(s) && i < |s.standby|
    ensures At(s, s.standby[i], InStandby)
  {
    assert Found(s, s.standby[i], InStandby);
  }

  lemma WorkerKnown(s: State)
    requires PlacesTold(s) && s.worker.Some?
    ensures At(s, s.worker.value, WithWorker)
  {
    assert Found(s, s.worker.value, WithWorker);
  }

  lemma CandidateKnown(s: State, id: string)
    requires PlacesTold(s) && id in s.switches && HoldsCandidate(s.switches[id]) && s.switches[id].candidate.Some?
    ensures At(s, s.switches[id].candidate.value, WithSwitch(id))
  {
    assert Found(s, s.switches[id].candidate.value, WithSwitch(id));
  }

  // ---- Draining ----

  lemma RetirePlaces(s: State, q: nat)
    requires q in s.active && s.active[q] in s.tunnels && PlacesTold(s)
    ensures PlacesTold(Retire(s, q, s.active[q]))
  {
    var s' := Retire(s, q, s.active[q]);
    assert Found(s, s.active[q], InSlot(q));
    forall t: TunnelId, p: Place | Holder(p) ensures Found(s', t, p) <==> At(s', t, p) {
      assert Found(s, t, p) <==> At(s, t, p);
    }
  }

  lemma RetireRest(s: State, q: nat)
    requires q in s.active && s.active[q] in s.tunnels && Placed(s) && PrefixesDistinct(s)
    ensures var s' := Retire(s, q, s.active[q]);
      SlotsInRange(s') && NumbersFresh(s') && StandbyDistinct(s') && DrainingRecorded(s') && PrefixesDistinct(s')
  {
  }

  lemma RetireSwitches(s: State, q: nat)
    requires q in s.active && s.active[q] in s.tunnels && SlotsInRange(s)
    requires SwitchesFit(s) && OverridesOwned(s) && q !in s.override
    ensures SwitchesFit(Retire(s, q, s.active[q])) && OverridesOwned(Retire(s, q, s.active[q]))
  {
    SwitchesApart(s, Retire(s, q, s.active[q]), q);
  }

  lemma RetireInv(s: State, q: nat)
    requires Inv(s) && q in s.active && q !in s.override && s.active[q] in s.tunnels
    ensures Inv(Retire(s, q, s.active[q]))
  {
    RetirePlaces(s, q);
    RetireRest(s, q);
    RetireSwitches(s, q);
  }

  lemma OverwritePlaces(s: State, q: nat)
    requires PlacesTold(s) && q in s.draining && s.draining[q] in s.tunnels
    ensures PlacesTold(Overwrite(s, q))
  {
    var s' := Overwrite(s, q);
    assert Found(s, s.draining[q], InDraining(q));
    forall t: TunnelId, p: Place | Holder(p) ensures Found(s', t, p) <==> At(s', t, p) {
      assert Found(s, t, p) <==> At(s, t, p);
    }
  }

  lemma OverwriteRest(s: State, q: nat)
    requires Placed(s) && PrefixesDistinct(s) && q in s.draining && s.draining[q] in s.tunnels
    ensures var s' := Overwrite(s, q);
      SlotsInRange(s') && NumbersFresh(s') && StandbyDistinct(s') && DrainingRecorded(s') && PrefixesDistinct(s')
  {
  }

  lemma OverwriteInv(s: State, q: nat)
    requires Inv(s) && (q in s.draining ==> s.draining[q] in s.tunnels)
    ensures Inv(Overwrite(s, q))
  {
    if q in s.draining {
      OverwritePlaces(s, q);
      OverwriteRest(s, q);
      SwitchesFrame(s, Overwrite(s, q), q);
    }
  }

  lemma LeaveSlotPlaces(s: State, q: nat, tunIP: string, now: int)
    requires q in s.active && s.active[q] in s.tunnels && q !in s.draining && PlacesTold(s)
    ensures PlacesTold(LeaveSlot(s, q, s.active[q], tunIP, now))
  {
    var s' := LeaveSlot(s, q, s.active[q], tunIP, now);
    assert Found(s, s.active[q], InSlot(q));
    forall t: TunnelId, p: Place | Holder(p) ensures Found(s', t, p) <==> At(s', t, p) {
      assert Found(s, t, p) <==> At(s, t, p);
    }
  }

  lemma LeaveSlotRest(s: State, q: nat, tunIP: string, now: int)
    requires q in s.active && s.active[q] in s.tunnels && q !in s.draining && Placed(s) && PrefixesDistinct(s)
    ensures var s' := LeaveSlot(s, q, s.active[q], tunIP, now);
      SlotsInRange(s') && NumbersFresh(s') && StandbyDistinct(s') && DrainingRecorded(s') && PrefixesDistinct(s')
  {
  }

  lemma LeaveSlotSwitches(s: State, q: nat, tunIP: string, now: int)
    requires q in s.active && s.active[q] in s.tunnels && SlotsInRange(s)
    requires SwitchesFit(s) && OverridesOwned(s) && q !in s.override
    ensures SwitchesFit(LeaveSlot(s, q, s.active[q], tunIP, now))
    ensures OverridesOwned(LeaveSlot(s, q, s.active[q], tunIP, now))
  {
    SwitchesApart(s, LeaveSlot(s, q, s.active[q], tunIP, now), q);
  }

  lemma LeaveSlotInv(s: State, q: nat, tunIP: string, now: int)
    requires Inv(s) && q in s.active && s.active[q] in s.tunnels && q !in s.draining && q !in s.override
    ensures Inv(LeaveSlot(s, q, s.active[q], tunIP, now))
  {
    LeaveSlotPlaces(s, q, tunIP, now);
    LeaveSlotRest(s, q, tunIP, now);
    LeaveSlotSwitches(s, q, tunIP, now);
  }

  lemma RestoredDrainInv(s: State, t: TunnelId, world: World)
    requires Inv(s) && t in s.tunnels
    ensures Inv(WithTunnel(s, t, s.tunnels[t].(state := Up, drainingSince := 0)).(world := world))
  {
    QuietFrame(s, WithTunnel(s, t, s.tunnels[t].(state := Up, drainingSince := 0)).(world := world));
  }

  lemma DrainInv(s: State, q: nat, e: DrainInput)
    requires Inv(s) && q in s.active && q !in s.override && s.active[q] in s.tunnels
    requires q in s.draining ==> s.draining[q] in s.tunnels
    ensures Inv(TransitionToDraining(s, q, s.active[q], e))
  {
    hide Inv, Retire, LeaveSlot;
    var t := s.active[q];
    var (w1, ok) := XrayDrain(s.world, q, e.xray);
    var w2 := Routed(w1, BASE_DRAINING_TABLE + q, Dev(t), e.route);
    WorldFrame(s, w1);
    WorldFrame(s, w2);
    WorldFrame(s, ClearSlot(w1, q, e.clear));
    RetireInv(s.(world := ClearSlot(w1, q, e.clear)), q);
    RestoredDrainInv(s, t, XrayActivate(w2, q, e.reactivate).0);
    OverwriteInv(s.(world := w2), q);
    LeaveSlotInv(Overwrite(s.(world := w2), q), q, e.tunIP, e.now);
  }

  // ---- Cleanup ----

  lemma LeaveDrainingPlaces(s: State, q: nat, flush: RouteOutcome)
    requires q in s.draining && s.draining[q] in s.tunnels && PlacesTold(s)
    ensures PlacesTold(LeaveDraining(s, q, flush))
  {
    var s' := LeaveDraining(s, q, flush);
    assert Found(s, s.draining[q], InDraining(q));
    forall t: TunnelId, p: Place | Holder(p) ensures Found(s', t, p) <==> At(s', t, p) {
      assert Found(s, t, p) <==> At(s, t, p);
    }
  }

  lemma LeaveDrainingRest(s: State, q: nat, flush: RouteOutcome)
    requires q in s.draining && s.draining[q] in s.tunnels && Placed(s) && PrefixesDistinct(s)
    ensures var s' := LeaveDraining(s, q, flush);
      SlotsInRange(s') && NumbersFresh(s') && StandbyDistinct(s') && DrainingRecorded(s') && PrefixesDistinct(s')
  {
  }

  lemma LeaveDrainingInv(s: State, q: nat, flush: RouteOutcome)
    requires Inv(s) && q in s.draining && s.draining[q] in s.tunnels
    ensures Inv(LeaveDraining(s, q, flush))
  {
    LeaveDrainingPlaces(s, q, flush);
    LeaveDrainingRest(s, q, flush);
    SwitchesFrame(s, LeaveDraining(s, q, flush), q);
  }

  /** The bookkeeping fields about draining may be rewritten on any controller. */
  lemma ControllerFrame(s: State, q: nat, c: Leases.Controller)
    requires Inv(s) && q in s.controllers && SameAuthority(s.controllers[q], c)
    ensures Inv(WithController(s, q, c))
  {
    var s' := WithController(s, q, c);
    forall t: TunnelId, p: Place | Holder(p) ensures Found(s', t, p) <==> At(s', t, p) {
      assert Found(s, t, p) <==> At(s, t, p);
    }
    SwitchesFrame(s, s', q);
  }

  lemma CleanupInv(s: State, q: nat, e: CleanupInput)
    requires Inv(s) && q in s.draining && s.draining[q] in s.tunnels
    ensures Inv(CleanupSlot(s, q, e))
  {
    if TimedOut(s.tunnels[s.draining[q]], e.now) {
      LeaveDrainingInv(s, q, e.flush);
      var s1 := LeaveDraining(s, q, e.flush);
      WorldFrame(s1, ClearSlot(s1.world, q, e.clear));
    } else if e.count.Some? && e.count.value == 0 {
      LeaveDrainingInv(s, q, e.flush);
      var s1 := LeaveDraining(s, q, e.flush);
      ControllerFrame(s1, q, s1.controllers[q].(drainingTunnel := None));
    }
  }

  // ---- Promotion ----

  lemma StopHeadInv(s: State)
    requires Inv(s) && |s.standby| > 0 && s.standby[0] in s.tunnels
    ensures Inv(StopHead(s))
  {
    StopHeadPlaces(s);
    StopHeadRest(s);
    SwitchesFrame(s, StopHead(s), 0);
  }

  lemma StopHeadPlaces(s: State)
    requires PlacesTold(s) && StandbyDistinct(s) && |s.standby| > 0 && s.standby[0] in s.tunnels
    ensures PlacesTold(StopHead(s))
  {
    var s' := StopHead(s);
    assert s.standby == [s.standby[0]] + s'.standby;
    assert s.standby[0] !in s'.standby;
    assert Found(s, s.standby[0], InStandby);
    forall t: TunnelId, p: Place | Holder(p) ensures Found(s', t, p) <==> At(s', t, p) {
      assert Found(s, t, p) <==> At(s, t, p);
    }
  }

  lemma StopHeadRest(s: State)
    requires Placed(s) && PrefixesDistinct(s) && |s.standby| > 0 && s.standby[0] in s.tunnels
    ensures var s' := StopHead(s);
      SlotsInRange(s') && NumbersFresh(s') && StandbyDistinct(s') && DrainingRecorded(s') && PrefixesDistinct(s')
  {
  }

  lemma SeatHeadPlaces(s: State, q: nat)
    requires PlacesTold(s) && StandbyDistinct(s) && |s.standby| > 0 && s.standby[0] in s.tunnels && q !in s.active
    ensures PlacesTold(SeatHead(s, q))
  {
    var s' := SeatHead(s, q);
    assert s.standby == [s.standby[0]] + s'.standby;
    assert s.standby[0] !in s'.standby;
    assert Found(s, s.standby[0], InStandby);
    forall t: TunnelId, p: Place | Holder(p) ensures Found(s', t, p) <==> At(s', t, p) {
      assert Found(s, t, p) <==> At(s, t, p);
    }
  }

  lemma SeatHeadRest(s: State, q: nat)
    requires Placed(s) && PrefixesDistinct(s) && |s.standby| > 0 && s.standby[0] in s.tunnels && q < s.maxActive
    ensures var s' := SeatHead(s, q);
      SlotsInRange(s') && NumbersFresh(s') && StandbyDistinct(s') && DrainingRecorded(s') && PrefixesDistinct(s')
  {
    StandbyKnown(s, 0);
  }

  lemma SeatHeadInv(s: State, q: nat)
    requires Inv(s) && |s.standby| > 0 && s.standby[0] in s.tunnels
    requires q < s.maxActive && q !in s.active && q !in s.override
    ensures Inv(SeatHead(s, q))
  {
    SeatHeadPlaces(s, q);
    SeatHeadRest(s, q);
    SwitchesApart(s, SeatHead(s, q), q);
  }

  lemma PromoteInv(s: State, q: nat, e: PromoteInput)
    requires Inv(s) && |s.standby| > 0 && s.standby[0] in s.tunnels
    requires q < s.maxActive && q !in s.active && q !in s.override
    ensures Inv(Promote(s, q, e))
  {
    hide Inv, SetupSlot, ClearSlot, XrayActivate, StopHead, SeatHead;
    var w1 := SetupSlot(s.world, q, s.standby[0], e.route);
    var (w2, ok) := XrayActivate(w1, q, e.activate);
    var w := if s.tunnels[s.standby[0]].state != Up then s.world
             else if e.route.Failed? then w1
             else if !ok then ClearSlot(w2, q, e.clear) else w2;
    WorldFrame(s, w);
    StopHeadInv(s.(world := w));
    SeatHeadInv(s.(world := w), q);
  }

  // ---- Standby qualification ----

  lemma CountOnly(s: State)
    requires Inv(s)
    ensures Inv(s.(counter := s.counter + 1))
  {
    var s' := s.(counter := s.counter + 1);
    forall t: TunnelId, p: Place | Holder(p) ensures Found(s', t, p) <==> At(s', t, p) {
      assert Found(s, t, p) <==> At(s, t, p);
    }
    SwitchesFrame(s, s', 0);
  }

  lemma StartWorkerPlaces(s: State, node: Node)
    requires PlacesTold(s) && NumbersFresh(s) && s.worker.None?
    ensures PlacesTold(HireWorker(s, node))
  {
    var s' := HireWorker(s, node);
    forall t: TunnelId, p: Place | Holder(p) ensures Found(s', t, p) <==> At(s', t, p) {
      assert Found(s, t, p) <==> At(s, t, p);
    }
  }

  lemma StartWorkerRest(s: State, node: Node)
    requires Placed(s) && PrefixesDistinct(s) && s.worker.None? && |s.standby| < s.maxStandby
    ensures var s' := HireWorker(s, node);
      SlotsInRange(s') && NumbersFresh(s') && StandbyDistinct(s') && DrainingRecorded(s') && PrefixesDistinct(s')
  {
  }

  lemma HireWorkerInv(s: State, node: Node)
    requires Inv(s) && s.worker.None? && |s.standby| < s.maxStandby
    ensures Inv(HireWorker(s, node))
  {
    StartWorkerPlaces(s, node);
    StartWorkerRest(s, node);
    SwitchesFrame(s, HireWorker(s, node), 0);
  }

  lemma FireWorkerInv(s: State)
    requires Inv(s) && s.worker.Some? && s.worker.value in s.tunnels
    ensures Inv(FireWorker(s))
  {
    StopWorkerPlaced(s);
    SwitchesFrame(s, FireWorker(s), 0);
  }

  lemma StopWorkerPlaced(s: State)
    requires Placed(s) && PrefixesDistinct(s) && s.worker.Some? && s.worker.value in s.tunnels
    ensures var s' := FireWorker(s); Placed(s') && PrefixesDistinct(s')
  {
    var s' := FireWorker(s);
    WorkerKnown(s);
    forall t: TunnelId, p: Place | Holder(p) ensures Found(s', t, p) <==> At(s', t, p) {
      assert Found(s, t, p) <==> At(s, t, p);
    }
  }

  lemma EnqueuePlaces(s: State, node: Node)
    requires Placed(s) && s.worker.Some? && s.worker.value in s.tunnels
    ensures PlacesTold(Enqueue(s, node)) && StandbyDistinct(Enqueue(s, node))
  {
    var s' := Enqueue(s, node);
    WorkerKnown(s);
    forall i | 0 <= i < |s.standby| ensures s.standby[i] != s.worker.value {
      StandbyKnown(s, i);
    }
    forall t: TunnelId, p: Place | Holder(p) ensures Found(s', t, p) <==> At(s', t, p) {
      assert Found(s, t, p) <==> At(s, t, p);
    }
  }

  /**
   What the check at a commit buys: the newcomer clashes with nothing exposed except, possibly, the slot it
   replaces.
   */
  lemma DiverseMeansNoClash(s: State, node: Node, exclude: int, t: TunnelId)
    requires PlacesTold(s) && Diverse(s, node, node.observed, exclude)
    requires t in s.tunnels && Exposed(s.tunnels[t]) &&
        (s.tunnels[t].place.InSlot? ==> s.tunnels[t].place.slot != exclude)
    ensures !Clash(node, s.tunnels[t].node) && !Clash(s.tunnels[t].node, node)
  {
    assert Prefixes(node, node.observed) == Prefixes(node, Unusable);
    var p := s.tunnels[t].place;
    assert At(s, t, p);
    assert Found(s, t, p);
  }

  lemma EnqueueDistinct(s: State, node: Node)
    requires Placed(s) && PrefixesDistinct(s) && s.worker.Some? && s.worker.value in s.tunnels
    requires Diverse(s, node, node.observed, -1)
    ensures PrefixesDistinct(Enqueue(s, node))
  {
    var s' := Enqueue(s, node);
    WorkerKnown(s);
    forall t, u | t in s'.tunnels && u in s'.tunnels && Exposed(s'.tunnels[t]) && Exposed(s'.tunnels[u])
      ensures !Clash(s'.tunnels[t].node, s'.tunnels[u].node)
    {
      if t == s.worker.value && u != t {
        DiverseMeansNoClash(s, node, -1, u);
      } else if u == s.worker.value && u != t {
        DiverseMeansNoClash(s, node, -1, t);
      }
    }
  }

  lemma EnqueueInv(s: State, node: Node)
    requires Inv(s) && s.worker.Some? && s.worker.value in s.tunnels
    requires Diverse(s, node, node.observed, -1)
    ensures Inv(Enqueue(s, node))
  {
    EnqueuePlaces(s, node);
    EnqueueDistinct(s, node);
    SwitchesFrame(s, Enqueue(s, node), 0);
  }

  lemma StandbyInv(s: State, step: Step)
    requires Inv(s) && Enabled(s, step) && (step.StartStandby? || step.DropStandby? || step.CommitStandby?)
    ensures Inv(Apply(s, step))
  {
    hide Inv;
    match step
    case StartStandby(node, started, probe) =>
      var w := SetupSlot(s.world, s.counter + 1, s.counter + 1, probe);
      WorldFrame(s, w);
      CountOnly(s);
      HireWorkerInv(s.(world := w), node);
    case DropStandby(clear) =>
      WorldFrame(s, ClearSlot(s.world, s.worker.value, clear));
      FireWorkerInv(s.(world := ClearSlot(s.world, s.worker.value, clear)));
    case CommitStandby(observed, clear) => CommitStandbyInv(s, observed, clear);
  }

  lemma CommitStandbyInv(s: State, observed: Address, clear: RouteOutcome)
    requires Inv(s) && s.worker.Some? && s.worker.value in s.tunnels
    ensures Inv(Apply(s, CommitStandby(observed, clear)))
  {
    hide Inv;
    var node := s.tunnels[s.worker.value].node.(observed := observed);
    var s1 := s.(world := ClearSlot(s.world, s.worker.value, clear));
    WorldFrame(s, s1.world);
    if Diverse(s, node, observed, -1) {
      assert Diverse(s1, node, node.observed, -1);
      EnqueueInv(s1, node);
    } else {
      FireWorkerInv(s1);
    }
  }

  // ---- Manual switches ----

  /** The switch changes phase; tunnels stay where they are. */
  ghost predicate OnlySwitch(s: State, s': State, id: string) {
    && s'.maxActive == s.maxActive && s'.maxStandby == s.maxStandby && s'.counter == s.counter
    && s'.active == s.active && s'.draining == s.draining && s'.standby == s.standby && s'.worker == s.worker
    && s'.drainingTable == s.drainingTable && s'.drainingIP == s.drainingIP
    && s'.controllers.Keys == s.controllers.Keys
    && s'.tunnels.Keys == s.tunnels.Keys
    && (forall t | t in s.tunnels :: s'.tunnels[t].place == s.tunnels[t].place
                                     && (Exposed(s.tunnels[t]) ==> s'.tunnels[t].node == s.tunnels[t].node))
    && id in s'.switches && s'.switches == s.switches[id := s'.switches[id]]
    && (id in s.switches && HoldsCandidate(s.switches[id]) <==> HoldsCandidate(s'.switches[id]))
    && (HoldsCandidate(s'.switches[id]) ==> s'.switches[id].candidate == s.switches[id].candidate)
  }

  lemma OnlySwitchPlaced(s: State, s': State, id: string)
    requires Placed(s) && PrefixesDistinct(s) && OnlySwitch(s, s', id)
    requires forall q | q in s'.override :: q < s.maxActive
    ensures Placed(s') && PrefixesDistinct(s')
  {
    forall t: TunnelId, p: Place | Holder(p) ensures Found(s', t, p) <==> At(s', t, p) {
      assert Found(s, t, p) <==> At(s, t, p);
    }
  }

  lemma ReserveFits(s: State, id: string, q: nat, target: Node, eligible: bool)
    requires OverridesOwned(s) && Reservable(s, q, target, eligible)
    ensures var s' := Reserve(s, id, q, target, eligible); SwitchFits(s', id, s'.switches[id])
  {
    assert Agrees(s, q);
  }

  lemma RequestInv(s: State, id: string, q: nat, target: Node, eligible: bool)
    requires Inv(s) && id !in s.switches
    ensures Inv(Reserve(s, id, q, target, eligible))
  {
    if Reservable(s, q, target, eligible) {
      var s' := Reserve(s, id, q, target, eligible);
      ReserveFits(s, id, q, target, eligible);
      SwitchMoved(s, s', id, q);
      OnlySwitchPlaced(s, s', id);
    }
  }

  /** A phase change of a switch that keeps its candidate, or has none. */
  lemma PhaseInv(s: State, s': State, id: string)
    requires Inv(s) && id in s.switches && Unfinished(s.switches[id]) && OnlySwitch(s, s', id)
    requires s'.switches[id].slot == s.switches[id].slot
    requires SameElsewhere(s, s', s.switches[id].slot)
    requires s.switches[id].slot in s'.override ==> s.switches[id].slot in s.override
    requires SwitchFits(s', id, s'.switches[id])
    requires Unfinished(s'.switches[id])
             || (s.switches[id].slot !in s'.override && Agrees(s', s.switches[id].slot)
                 && s'.controllers[s.switches[id].slot].owner == "")
    ensures Inv(s')
  {
    SwitchMoved(s, s', id, s.switches[id].slot);
    OnlySwitchPlaced(s, s', id);
  }

  /** The record of one switch is replaced. */
  function Rewrite(s: State, id: string, w: Switch): State {
    s.(switches := s.switches[id := w])
  }

  lemma RewriteInv(s: State, id: string, w: Switch)
    requires Inv(s) && id in s.switches && Unfinished(s.switches[id])
    requires w.slot == s.switches[id].slot && Unfinished(w)
    requires HoldsCandidate(w) <==> HoldsCandidate(s.switches[id])
    requires HoldsCandidate(w) ==> w.candidate == s.switches[id].candidate
    requires SwitchFits(s, id, w)
    ensures Inv(Rewrite(s, id, w))
  {
    var s' := Rewrite(s, id, w);
    SwitchApart(s, s', w.slot, id, w);
    PhaseInv(s, s', id);
  }

  lemma FitsKnown(s: State, id: string)
    requires Inv(s) && id in s.switches
    ensures SwitchFits(s, id, s.switches[id])
    ensures HoldsCandidate(s.switches[id]) ==> At(s, s.switches[id].candidate.value, WithSwitch(id))
  {
    if HoldsCandidate(s.switches[id]) {
      assert SwitchFits(s, id, s.switches[id]);
      CandidateKnown(s, id);
    }
  }

  /** Changing phase and routing: the candidate, if held, stays in hand. */
  lemma GotoInv(s: State, id: string, phase: Phase, world: World)
    requires Inv(s) && id in s.switches && Unfinished(s.switches[id])
    requires SwitchFits(s, id, s.switches[id].(phase := phase)) && !phase.Finished?
    requires HoldsCandidate(s.switches[id].(phase := phase)) <==> HoldsCandidate(s.switches[id])
    ensures Inv(Goto(s.(world := world), id, phase))
  {
    hide Inv;
    WorldFrame(s, world);
    var w := s.switches[id].(phase := phase);
    SwitchApart(s, s.(world := world), 0, id, w);
    RewriteInv(s.(world := world), id, w);
  }

  lemma RejectInv(s: State, id: string)
    requires Inv(s) && id in s.switches && s.switches[id].verdict.Pending? && !HoldsCandidate(s.switches[id])
    ensures Inv(Reject(s, id))
  {
    hide Inv;
    FitsKnown(s, id);
    RewriteInv(s, id, s.switches[id].(phase := ReleasingLease, verdict := Rejected));
  }

  lemma CheckTargetInv(s: State, id: string, found: bool)
    requires Inv(s) && id in s.switches && s.switches[id].phase.Preflight?
    ensures Inv(CheckTarget(s, id, found))
  {
    hide Inv, SwitchFits;
    FitsKnown(s, id);
    CurrentFits(s, id);
    if found {
      var w := s.switches[id].(current := Get(s.active, s.switches[id].slot));
      var s1 := Rewrite(s, id, w);
      RewriteInv(s, id, w);
      CurrentFits(s1, id);
      if CheckTarget(s, id, found).switches[id].phase.FirstLeaseCheck? {
        GotoInv(s1, id, FirstLeaseCheck, s1.world);
      } else {
        RejectInv(s1, id);
      }
    } else {
      RejectInv(s, id);
    }
  }

  lemma CurrentFits(s: State, id: string)
    requires id in s.switches && s.switches[id].phase.Preflight? && SwitchFits(s, id, s.switches[id])
    ensures s.switches[id].verdict.Pending?
    ensures var w := s.switches[id].(current := Get(s.active, s.switches[id].slot));
      SwitchFits(s, id, w) && SwitchFits(Rewrite(s, id, w), id, w) &&
          SwitchFits(Rewrite(s, id, w), id, w.(phase := FirstLeaseCheck))
  {
  }

  /** Any move among the phases in which the candidate is in hand. */
  lemma TrialInv(s: State, id: string, phase: Phase, world: World)
    requires Inv(s) && id in s.switches && HoldsCandidate(s.switches[id])
    requires HoldsCandidate(s.switches[id].(phase := phase))
    ensures Inv(Goto(s.(world := world), id, phase))
  {
    hide Inv;
    FitsKnown(s, id);
    GotoInv(s, id, phase, world);
  }

  lemma AdmissionInv(s: State, id: string, e: SwitchInput)
    requires Inv(s) && Steerable(s, id) && s.switches[id].phase.Admission?
    ensures Inv(if e.ok then Goto(s, id, Preflight) else Reject(s, id))
  {
    hide Inv;
    FitsKnown(s, id);
    if e.ok { GotoInv(s, id, Preflight, s.world); } else { RejectInv(s, id); }
  }

  lemma LeaseCheckInv(s: State, id: string)
    requires Inv(s) && Steerable(s, id) && s.switches[id].phase.FirstLeaseCheck?
    ensures Inv(Goto(s, id, Starting))
    ensures Inv(Reject(s, id))
  {
    hide Inv;
    FitsKnown(s, id);
    GotoInv(s, id, Starting, s.world);
    RejectInv(s, id);
  }

  lemma StartCandidatePlaced(s: State, id: string)
    requires Placed(s) && PrefixesDistinct(s) && id in s.switches && s.switches[id].phase.Starting?
    ensures Placed(StartCandidate(s, id, true)) && PrefixesDistinct(StartCandidate(s, id, true))
  {
    var s' := StartCandidate(s, id, true);
    forall t: TunnelId, p: Place | Holder(p) ensures Found(s', t, p) <==> At(s', t, p) {
      assert Found(s, t, p) <==> At(s, t, p);
    }
  }

  lemma StartCandidateSwitches(s: State, id: string)
    requires SwitchesFit(s) && OverridesOwned(s) && id in s.switches && s.switches[id].phase.Starting?
    ensures SwitchesFit(StartCandidate(s, id, true)) && OverridesOwned(StartCandidate(s, id, true))
  {
    assert SwitchFits(s, id, s.switches[id]);
    SwitchMoved(s, StartCandidate(s, id, true), id, s.switches[id].slot);
  }

  lemma StartCandidateInv(s: State, id: string)
    requires Inv(s) && id in s.switches && s.switches[id].phase.Starting?
    ensures Inv(StartCandidate(s, id, true))
  {
    hide StartCandidate, SlotsInRange, NumbersFresh, PlacesTold, StandbyDistinct, DrainingRecorded, PrefixesDistinct,
         SwitchesFit, OverridesOwned;
    StartCandidatePlaced(s, id);
    StartCandidateSwitches(s, id);
  }

  lemma StartRejectedInv(s: State, id: string)
    requires Inv(s) && id in s.switches && s.switches[id].phase.Starting?
    ensures Inv(StartCandidate(s, id, false))
  {
    hide Inv;
    CountOnly(s);
    FitsKnown(s, id);
    RejectInv(s.(counter := s.counter + 1), id);
  }

  /** What the candidate's exit looks like matters to nobody until it is exposed. */
  lemma ObservedInv(s: State, id: string, observed: Address)
    requires Inv(s) && id in s.switches && HoldsCandidate(s.switches[id])
    requires s.switches[id].candidate.Some? && s.switches[id].candidate.value in s.tunnels
    ensures var t := s.switches[id].candidate.value;
      Inv(WithTunnel(s, t, s.tunnels[t].(node := s.tunnels[t].node.(observed := observed))))
  {
    var t := s.switches[id].candidate.value;
    var s' := WithTunnel(s, t, s.tunnels[t].(node := s.tunnels[t].node.(observed := observed)));
    CandidateKnown(s, id);
    OnlySwitchPlaced(s, s', id);
    SwitchesFrame(s, s', 0);
  }

  lemma VerifyInv(s: State, id: string, e: SwitchInput)
    requires Inv(s) && Steerable(s, id) && s.switches[id].phase.Verifying?
    ensures Inv(Verify(s, id, s.switches[id].candidate.value, e))
  {
    hide Inv;
    var t := s.switches[id].candidate.value;
    ObservedInv(s, id, e.observed);
    var s1 := WithTunnel(s, t, s.tunnels[t].(node := s.tunnels[t].node.(observed := e.observed)));
    TrialInv(s1, id, DiversityCheck, s1.world);
    TrialInv(s1, id, StopCandidate, Routed(s1.world, BASE_TABLE + t, Empty, e.clear));
  }

  lemma CutOverInv(s: State, id: string, e: SwitchInput)
    requires Inv(s) && Steerable(s, id) && s.switches[id].phase.Cutover?
    ensures Inv(CutOver(s, id, s.switches[id].candidate.value, e))
  {
    hide Inv;
    var w := s.switches[id];
    FitsKnown(s, id);
    RewriteInv(s, id, w.(cut := true));
    var world := Routed(SetupSlot(s.world, w.slot, w.candidate.value, e.route), BASE_TABLE + w.candidate.value,
        Empty, e.clear);
    TrialInv(Rewrite(s, id, w.(cut := true)), id, if e.route.Failed? then UndoRoute else Committing, world);
  }

  lemma DisposePlaced(s: State, id: string)
    requires Placed(s) && PrefixesDistinct(s) && Steerable(s, id) && s.switches[id].phase.StopCandidate?
    ensures var s' := Reject(Stop(s, s.switches[id].candidate.value), id); Placed(s') && PrefixesDistinct(s')
  {
    var s' := Reject(Stop(s, s.switches[id].candidate.value), id);
    CandidateKnown(s, id);
    forall t: TunnelId, p: Place | Holder(p) ensures Found(s', t, p) <==> At(s', t, p) {
      assert Found(s, t, p) <==> At(s, t, p);
    }
  }

  lemma DisposeSwitches(s: State, id: string)
    requires SwitchesFit(s) && OverridesOwned(s) && Steerable(s, id) && s.switches[id].phase.StopCandidate?
    ensures var s' := Reject(Stop(s, s.switches[id].candidate.value), id); SwitchesFit(s') && OverridesOwned(s')
  {
    assert SwitchFits(s, id, s.switches[id]);
    SwitchMoved(s, Reject(Stop(s, s.switches[id].candidate.value), id), id, s.switches[id].slot);
  }

  lemma DisposeInv(s: State, id: string)
    requires Inv(s) && Steerable(s, id) && s.switches[id].phase.StopCandidate?
    ensures Inv(Reject(Stop(s, s.switches[id].candidate.value), id))
  {
    DisposePlaced(s, id);
    DisposeSwitches(s, id);
  }

  lemma PublishFits(s: State, id: string)
    requires SlotsInRange(s) && id in s.switches && s.switches[id].phase.Publishing?
    requires SwitchFits(s, id, s.switches[id])
    ensures var s' := Publish(s, id);
      && OnlySwitch(s, s', id) && s'.switches[id].slot == s.switches[id].slot
      && SwitchFits(s', id, s'.switches[id]) && SameElsewhere(s, s', s.switches[id].slot)
      && Unfinished(s'.switches[id]) && s'.override == s.override
  {
  }

  lemma PublishInv(s: State, id: string)
    requires Inv(s) && id in s.switches && s.switches[id].phase.Publishing?
    ensures Inv(Publish(s, id))
  {
    hide Publish, SwitchesFit, OverridesOwned;
    FitsKnown(s, id);
    PublishFits(s, id);
    SwitchMoved(s, Publish(s, id), id, s.switches[id].slot);
    OnlySwitchPlaced(s, Publish(s, id), id);
  }

  lemma ReleaseLeaseFits(s: State, id: string)
    requires SlotsInRange(s) && id in s.switches && s.switches[id].phase.ReleasingLease?
    requires SwitchFits(s, id, s.switches[id])
    ensures var s' := ReleaseLease(s, id);
      && OnlySwitch(s, s', id) && s'.switches[id].slot == s.switches[id].slot
      && SwitchFits(s', id, s'.switches[id]) && SameElsewhere(s, s', s.switches[id].slot)
      && Unfinished(s'.switches[id]) && s'.override == s.override
  {
  }

  lemma ReleaseLeaseInv(s: State, id: string)
    requires Inv(s) && id in s.switches && s.switches[id].phase.ReleasingLease?
    ensures Inv(ReleaseLease(s, id))
  {
    hide ReleaseLease, SwitchesFit, OverridesOwned;
    FitsKnown(s, id);
    ReleaseLeaseFits(s, id);
    SwitchMoved(s, ReleaseLease(s, id), id, s.switches[id].slot);
    OnlySwitchPlaced(s, ReleaseLease(s, id), id);
  }

  lemma ReleaseOverrideFits(s: State, id: string)
    requires SlotsInRange(s) && id in s.switches && s.switches[id].phase.ReleasingOverride?
    requires SwitchFits(s, id, s.switches[id])
    ensures var s' := ReleaseOverride(s, id);
      && OnlySwitch(s, s', id) && s'.switches[id].slot == s.switches[id].slot
      && SwitchFits(s', id, s'.switches[id]) && SameElsewhere(s, s', s.switches[id].slot)
      && !Unfinished(s'.switches[id]) && s.switches[id].slot !in s'.override
      && Agrees(s', s.switches[id].slot) && s'.controllers[s.switches[id].slot].owner == ""
  {
  }

  lemma ReleaseOverrideInv(s: State, id: string)
    requires Inv(s) && id in s.switches && s.switches[id].phase.ReleasingOverride?
    ensures Inv(ReleaseOverride(s, id))
  {
    hide ReleaseOverride, SwitchesFit, OverridesOwned;
    FitsKnown(s, id);
    ReleaseOverrideFits(s, id);
    SwitchMoved(s, ReleaseOverride(s, id), id, s.switches[id].slot);
    OnlySwitchPlaced(s, ReleaseOverride(s, id), id);
  }

  // -- the commit --

  /** The candidate takes slot q, whose tunnel, if there was one, is now draining. */
  ghost predicate Replaces(s: State, s': State, id: string, q: nat, t: TunnelId) {
    && id in s.switches && HoldsCandidate(s.switches[id]) && s.switches[id].candidate == Some(t) && t in s.tunnels
    && s'.maxActive == s.maxActive && s'.maxStandby == s.maxStandby && s'.counter == s.counter
    && s'.active == s.active[q := t] && s'.standby == s.standby && s'.worker == s.worker && s'.override == s.override
    && s'.controllers.Keys == s.controllers.Keys
    && id in s'.switches && s'.switches == s.switches[id := s'.switches[id]] && !HoldsCandidate(s'.switches[id])
    && s'.tunnels.Keys == s.tunnels.Keys
    && (forall u | u in s.tunnels :: s'.tunnels[u].node == s.tunnels[u].node)
    && s'.tunnels[t].place == InSlot(q)
    && (if q in s.active then
          && q !in s.draining && s.active[q] in s.tunnels && s.active[q] != t
          && s'.draining == s.draining[q := s.active[q]]
          && s'.drainingTable == s.drainingTable[q := BASE_DRAINING_TABLE + q]
          && s'.drainingIP.Keys == s.drainingIP.Keys + {q}
          && s'.tunnels[s.active[q]].place == InDraining(q)
          && (forall u | u in s.tunnels && u != t && u != s.active[q] :: s'.tunnels[u].place == s.tunnels[u].place)
        else
          && s'.draining == s.draining && s'.drainingTable == s.drainingTable && s'.drainingIP == s.drainingIP
          && (forall u | u in s.tunnels && u != t :: s'.tunnels[u].place == s.tunnels[u].place))
  }

  lemma ReplacesPlaces(s: State, s': State, id: string, q: nat, t: TunnelId)
    requires PlacesTold(s) && Replaces(s, s', id, q, t)
    ensures PlacesTold(s')
  {
    assert Found(s, t, WithSwitch(id));
    assert q in s.active ==> Found(s, s.active[q], InSlot(q));
    forall u: TunnelId, p: Place | Holder(p) ensures Found(s', u, p) <==> At(s', u, p) {
      assert Found(s, u, p) <==> At(s, u, p);
    }
  }

  lemma ReplacesRest(s: State, s': State, id: string, q: nat, t: TunnelId)
    requires Placed(s) && Replaces(s, s', id, q, t) && q < s.maxActive
    ensures SlotsInRange(s') && NumbersFresh(s') && StandbyDistinct(s') && DrainingRecorded(s')
  {
  }

  lemma ReplacesDistinct(s: State, s': State, id: string, q: nat, t: TunnelId)
    requires Placed(s) && PrefixesDistinct(s) && Replaces(s, s', id, q, t)
    requires Diverse(s, s.tunnels[t].node, s.tunnels[t].node.observed, q)
    ensures PrefixesDistinct(s')
  {
    var node := s.tunnels[t].node;
    CandidateKnown(s, id);
    forall u | u in s'.tunnels && Exposed(s'.tunnels[u]) && u != t
      ensures Exposed(s.tunnels[u]) && !Clash(node, s.tunnels[u].node) && !Clash(s.tunnels[u].node, node)
    {
      assert At(s, u, InSlot(q)) <==> Found(s, u, InSlot(q));
      DiverseMeansNoClash(s, node, q, u);
    }
  }

  ghost predicate Committed(s: State, s': State, id: string, q: nat, t: TunnelId) {
    && Replaces(s, s', id, q, t)
    && s'.switches[id] == s.switches[id].(phase := Publishing, verdict := Succeeded)
    && SameElsewhere(s, s', q)
    && (q in s.controllers ==> SameAuthority(s.controllers[q], s'.controllers[q]))
  }

  lemma CommitEmptySlot(s: State, id: string, q: nat, t: TunnelId)
    requires Steerable(s, id) && s.switches[id].phase.Committing? && s.switches[id].candidate == Some(t)
    requires q !in s.active
    ensures Committed(s, Succeed(Install(s, q, t), id), id, q, t)
  {
  }

  lemma DrainReplacedEffect(s: State, q: nat, t: TunnelId, tunIP: string, now: int, world: World)
    requires t in s.tunnels
    ensures var s1 := EnterDraining(s.(world := world), q, t, tunIP, now);
      var s' := WithController(s1, q, ControllerOf(s1, q).(
                  drainingTunnel := Some(t), drainingTable := BASE_DRAINING_TABLE + q));
      && s' == s.(tunnels := s'.tunnels, draining := s'.draining, drainingTable := s'.drainingTable,
                  drainingIP := s'.drainingIP, controllers := s'.controllers, world := world)
      && s'.tunnels == s.tunnels[t := s.tunnels[t].(state := Leaving, drainingSince := now, place := InDraining(q))]
      && s'.draining == s.draining[q := t] && s'.drainingTable == s.drainingTable[q := BASE_DRAINING_TABLE + q]
      && s'.drainingIP == s.drainingIP[q := tunIP]
      && s'.controllers.Keys == s.controllers.Keys
      && (forall p | p in s.controllers :: SameAuthority(s.controllers[p], s'.controllers[p]))
  {
  }

  lemma CommitOccupiedSlot(s: State, id: string, q: nat, t: TunnelId, route: RouteOutcome, tunIP: string, now: int)
    requires Steerable(s, id) && s.switches[id].phase.Committing? && s.switches[id].candidate == Some(t)
    requires q in s.active && s.active[q] in s.tunnels && s.active[q] != t
    requires q !in s.draining && route.Done?
    ensures Committed(s, Succeed(DrainReplaced(Install(s, q, t), q, s.active[q], route, tunIP, now).0, id), id, q, t)
  {
    hide EnterDraining, WithController;
    var world := Routed(s.world, BASE_DRAINING_TABLE + q, Dev(s.active[q]), route);
    DrainReplacedEffect(Install(s, q, t), q, s.active[q], tunIP, now, world);
  }

  lemma CommitReplaces(s: State, id: string, e: SwitchInput)
    requires Steerable(s, id) && s.switches[id].phase.Committing? && !s.switches[id].verdict.Succeeded?
    requires s.switches[id].slot in s.active ==>
               s.active[s.switches[id].slot] in s.tunnels &&
                   Some(s.active[s.switches[id].slot]) != s.switches[id].candidate
    ensures var s' := Commit(s, id, s.switches[id].candidate.value, e);
      s'.switches[id].verdict.Succeeded? ==>
        && CandidateDiverse(s, s.switches[id])
        && Committed(s, s', id, s.switches[id].slot, s.switches[id].candidate.value)
  {
    hide Committed;
    var q, t := s.switches[id].slot, s.switches[id].candidate.value;
    if q !in s.active {
      CommitEmptySlot(s, id, q, t);
    } else if q !in s.draining && e.drainRoute.Done? {
      CommitOccupiedSlot(s, id, q, t, e.drainRoute, e.tunIP, e.now);
    }
    CommitKeepsTrial(s, id, e);
  }

  /** A drain that is refused has changed nothing but, possibly, the draining table. */
  lemma RefusalChangesWorldOnly(s: State, q: nat, t: TunnelId, route: RouteOutcome, tunIP: string, now: int)
    requires t in s.tunnels
    ensures var (s', ok) := DrainReplaced(s, q, t, route, tunIP, now);
      s'.switches == s.switches && (!ok ==> s' == s.(world := s'.world))
  {
  }

  lemma CommitKeepsTrial(s: State, id: string, e: SwitchInput)
    requires Steerable(s, id) && s.switches[id].phase.Committing? && !s.switches[id].verdict.Succeeded?
    ensures var s' := Commit(s, id, s.switches[id].candidate.value, e);
      id in s'.switches && (!s'.switches[id].verdict.Succeeded? ==>
        || s' == Goto(s, id, UndoRoute)
        || s' == Goto(s.(world := s'.world), id, StopCandidate))
  {
    hide DrainReplaced, CandidateDiverse, SetupSlot;
    var q, t := s.switches[id].slot, s.switches[id].candidate.value;
    if q in s.active && s.active[q] in s.tunnels && s.active[q] != t {
      RefusalChangesWorldOnly(Install(s, q, t), q, s.active[q], e.drainRoute, e.tunIP, e.now);
    }
  }

  lemma CommittedSwitches(s: State, s': State, id: string, q: nat, t: TunnelId)
    requires SwitchesFit(s) && OverridesOwned(s)
    requires Committed(s, s', id, q, t) && s.switches[id].slot == q
    ensures SwitchesFit(s') && OverridesOwned(s')
  {
    assert SwitchFits(s, id, s.switches[id]);
    SwitchMoved(s, s', id, q);
  }

  lemma CommitInv(s: State, id: string, e: SwitchInput)
    requires Inv(s) && Steerable(s, id) && s.switches[id].phase.Committing?
    ensures Inv(Commit(s, id, s.switches[id].candidate.value, e))
  {
    hide Commit, SwitchesFit, OverridesOwned, PlacesTold, PrefixesDistinct, Replaces;
    var q, t := s.switches[id].slot, s.switches[id].candidate.value;
    var s' := Commit(s, id, t, e);
    FitsKnown(s, id);
    if q in s.active {
      ActiveKnown(s, q);
    }
    CommitReplaces(s, id, e);
    CommitKeepsTrial(s, id, e);
    if s'.switches[id].verdict.Succeeded? {
      ReplacesPlaces(s, s', id, q, t);
      ReplacesRest(s, s', id, q, t);
      ReplacesDistinct(s, s', id, q, t);
      CommittedSwitches(s, s', id, q, t);
    } else {
      TrialInv(s, id, UndoRoute, s.world);
      TrialInv(s, id, StopCandidate, s'.world);
      assert s.(world := s.world) == s;
    }
  }

  // ---- Every step, every run ----

  lemma AdvanceInv(s: State, id: string, e: SwitchInput)
    requires Inv(s) && Steerable(s, id)
    ensures Inv(Advance(s, id, e))
  {
    hide Inv, Goto, Reject, CheckTarget, StartCandidate, RouteCandidate, Verify, SwitchXrayOn, CutOver, Commit,
         RestoreRoute, Publish, ReleaseLease, ReleaseOverride, Stop, Preempted, CandidateDiverse, Abandon, XrayDrain;
    var w := s.switches[id];
    FitsKnown(s, id);
    match w.phase
    case Admission => AdmissionInv(s, id, e);
    case Preflight => CheckTargetInv(s, id, e.ok);
    case FirstLeaseCheck => LeaseCheckInv(s, id);
    case Starting => if e.ok { StartCandidateInv(s, id); } else { StartRejectedInv(s, id); }
    case CandidateRouting => RouteCandidateInv(s, id, e.route);
    case DiversityCheck => AcceptInv(s, id, SecondLeaseCheck, e.clear);
    case SecondLeaseCheck => AcceptInv(s, id, XrayOn, e.clear);
    case XrayOn => SwitchXrayOnInv(s, id, e);
    case UndoRoute => RestoreRouteInv(s, id, e.route);
    case UndoXray => UndoXrayInv(s, id, e.xray);
    case Verifying => VerifyInv(s, id, e);
    case Cutover => CutOverInv(s, id, e);
    case Committing => CommitInv(s, id, e);
    case StopCandidate => DisposeInv(s, id);
    case Publishing => PublishInv(s, id);
    case ReleasingLease => ReleaseLeaseInv(s, id);
    case ReleasingOverride => ReleaseOverrideInv(s, id);
    case Finished =>
  }

  lemma AbandonInv(s: State, id: string, clear: RouteOutcome, world: World)
    requires Inv(s) && Steerable(s, id) && HoldsCandidate(s.switches[id])
    ensures Inv(Abandon(s.(world := world), id, clear))
  {
    hide Inv;
    TrialInv(s, id, StopCandidate, Routed(world, BASE_TABLE + s.switches[id].candidate.value, Empty, clear));
  }

  lemma AcceptInv(s: State, id: string, phase: Phase, clear: RouteOutcome)
    requires Inv(s) && Steerable(s, id) && HoldsCandidate(s.switches[id])
    requires HoldsCandidate(s.switches[id].(phase := phase))
    ensures Inv(Goto(s, id, phase)) && Inv(Abandon(s, id, clear))
  {
    hide Inv;
    assert s.(world := s.world) == s;
    TrialInv(s, id, phase, s.world);
    AbandonInv(s, id, clear, s.world);
  }

  lemma RouteCandidateInv(s: State, id: string, route: RouteOutcome)
    requires Inv(s) && Steerable(s, id) && s.switches[id].phase.CandidateRouting?
    ensures Inv(RouteCandidate(s, id, s.switches[id].candidate.value, route))
  {
    hide Inv;
    var t := s.switches[id].candidate.value;
    TrialInv(s, id, if route.Failed? then StopCandidate else Verifying, Routed(s.world, BASE_TABLE + t, Dev(t), route));
  }

  lemma SwitchXrayOnInv(s: State, id: string, e: SwitchInput)
    requires Inv(s) && Steerable(s, id) && s.switches[id].phase.XrayOn?
    ensures Inv(SwitchXrayOn(s, id, e))
  {
    hide Inv, Abandon;
    var (w1, ok) := XrayActivate(s.world, s.switches[id].slot, e.xray);
    TrialInv(s, id, Cutover, w1);
    AbandonInv(s, id, e.clear, w1);
  }

  lemma RestoreRouteInv(s: State, id: string, route: RouteOutcome)
    requires Inv(s) && Steerable(s, id) && s.switches[id].phase.UndoRoute?
    ensures Inv(RestoreRoute(s, id, route))
  {
    hide Inv;
    var w := s.switches[id];
    if w.current.Some? {
      TrialInv(s, id, StopCandidate, SetupSlot(s.world, w.slot, w.current.value, route));
    } else {
      TrialInv(s, id, UndoXray, ClearSlot(s.world, w.slot, route));
    }
  }

  lemma UndoXrayInv(s: State, id: string, outcome: XrayTransaction.Outcome)
    requires Inv(s) && Steerable(s, id) && s.switches[id].phase.UndoXray?
    ensures Inv(Goto(s.(world := XrayDrain(s.world, s.switches[id].slot, outcome).0), id, StopCandidate))
  {
    hide Inv, XrayDrain;
    TrialInv(s, id, StopCandidate, XrayDrain(s.world, s.switches[id].slot, outcome).0);
  }

  lemma StepInv(s: State, step: Step)
    requires Inv(s) && Enabled(s, step)
    ensures Inv(Apply(s, step))
  {
    hide Inv, Advance, TransitionToDraining, Promote, SyncXray, CleanupSlot, Reserve, FireWorker, Enqueue, HireWorker;
    match step
    case TunnelFails(t) => HealthInv(s, t, s.tunnels[t].(state := Down));
    case TunnelExits(t) => HealthInv(s, t, s.tunnels[t].(exited := true));
    case XrayCrashes => WorldFrame(s, Apply(s, step).world);
    case HealthCheck(q, healthy, e) => DrainInv(s, q, e);
    case Fill(q, e) => PromoteInv(s, q, e);
    case Synchronise(outcome) => SyncInv(s, outcome);
    case Cleanup(q, e) => CleanupInv(s, q, e);
    case StartStandby(_, _, _) => StandbyInv(s, step);
    case DropStandby(_) => StandbyInv(s, step);
    case CommitStandby(_, _) => StandbyInv(s, step);
    case Request(id, q, target, eligible) => RequestInv(s, id, q, target, eligible);
    case Switching(id, e) => AdvanceInv(s, id, e);
  }

  lemma HealthInv(s: State, t: TunnelId, tunnel: Tunnel)
    requires Inv(s) && t in s.tunnels && tunnel.node == s.tunnels[t].node && tunnel.place == s.tunnels[t].place
    ensures Inv(WithTunnel(s, t, tunnel))
  {
    QuietFrame(s, WithTunnel(s, t, tunnel));
  }

  lemma SyncInv(s: State, outcome: XrayTransaction.Outcome)
    requires Inv(s)
    ensures Inv(SyncXray(s, outcome))
  {
    hide Inv;
    WorldFrame(s, SyncXray(s, outcome).world);
  }

  /** In every reachable state, after any interleaving of any steps, the invariant holds. */
  lemma {:induction false} RunInv(s: State, steps: seq<Step>)
    requires Inv(s)
    ensures Inv(Run(s, steps))
  {
    hide Inv, Apply, Enabled;
    if steps != [] {
      RunInv(s, steps[..|steps| - 1]);
      var before := Run(s, steps[..|steps| - 1]);
      if Enabled(before, steps[|steps| - 1]) {
        StepInv(before, steps[|steps| - 1]);
      }
    }
  }
}
