/**
 The scheduler as an object whose fields are changed in place, method by method as
 in internal/scheduler/scheduler.go, internal/scheduler/diversity.go,
 internal/agentapi/handlers_write.go and internal/agentapi/operations.go.

 View() reads the fields as a State; each method's ensures equates the new View with
 what module ControlPlane says of the operation, so everything proved about steps
 and runs holds of the object. Commands, checks and the clock answer by parameters.
 */
module Scheduling {
  import opened Wrappers
  import opened ControlPlane
  import opened Invariant
  import opened Effects
  import opened Theorems
  import opened Runs
  import opened NodeSharing
  import opened Gates
  import opened Commands
  import CleanupPass
  import Leases
  import XrayTransaction

  class Scheduler {
    const maxActive: nat
    const maxStandby: nat
    var counter: nat
    var tunnels: map<TunnelId, Tunnel>
    var activeSlots: map<nat, TunnelId>
    var drainingSlots: map<nat, TunnelId>
    var drainingTableIDs: map<nat, int>
    var drainingTunIPs: map<nat, string>
    var standbyNodes: seq<TunnelId>
    var qualifying: Option<TunnelId>
    var manualOverride: set<nat>
    var controllers: map<nat, Leases.Controller>
    var operations: map<string, Switch>
    var xray: Option<XrayTransaction.Xray>
    var tables: map<int, Route>

    constructor (maxActive: nat, maxStandby: nat, xray: Option<XrayTransaction.Xray>)
      ensures View() == Initial(maxActive, maxStandby, xray) && Inv(View())
      ensures this.maxActive == maxActive && this.maxStandby == maxStandby && counter == maxActive + maxStandby + 10
      ensures tunnels == map[] && activeSlots == map[] && drainingSlots == map[] && standbyNodes == []
      ensures qualifying.None? && manualOverride == {} && operations == map[] && tables == map[] && this.xray == xray
      ensures forall slot: nat :: slot in controllers <==> slot < maxActive
      ensures forall slot | slot in controllers ::
        controllers[slot] == Leases.Controller(0, "", "", Leases.Offline, None, None, 0, false)
    {
      this.maxActive, this.maxStandby := maxActive, maxStandby;
      counter := maxActive + maxStandby + 10;
      tunnels, activeSlots, drainingSlots, drainingTableIDs, drainingTunIPs := map[], map[], map[], map[], map[];
      standbyNodes, qualifying, manualOverride := [], None, {};
      controllers := map slot: nat | slot < maxActive :: FreshController(slot);
      operations, tables := map[], map[];
      this.xray := xray;
      new;
      InitialInv(maxActive, maxStandby, xray);
    }

    function View(): State
      reads this
    {
      State(maxActive, maxStandby, counter, tunnels, activeSlots, drainingSlots, drainingTableIDs, drainingTunIPs,
            standbyNodes, qualifying, manualOverride, controllers, operations, World(xray, tables))
    }

    // ---- Commands and small updates ----

    method Route(table: int, intended: Route, outcome: RouteOutcome) returns (ok: bool)
      modifies this
      ensures View() == old(View()).(world := Routed(old(View()).world, table, intended, outcome))
      ensures ok <==> outcome.Done?
    {
      match outcome
      case Done => tables := tables[table := intended]; ok := true;
      case Failed(left) => tables := tables[table := left]; ok := false;
    }

    method SetupSlotRouting(slot: nat, t: TunnelId, outcome: RouteOutcome) returns (ok: bool)
      modifies this
      ensures View() == old(View()).(world := SetupSlot(old(View()).world, slot, t, outcome))
      ensures ok <==> outcome.Done?
    {
      ok := Route(BASE_TABLE + slot, Dev(t), outcome);
    }

    method ClearSlotRouting(slot: nat, outcome: RouteOutcome)
      modifies this
      ensures View() == old(View()).(world := ClearSlot(old(View()).world, slot, outcome))
    {
      var _ := Route(BASE_TABLE + slot, Unreachable, outcome);
    }

    method DrainXray(slot: nat, outcome: XrayTransaction.Outcome) returns (ok: bool)
      modifies this
      ensures View() == old(View()).(world := XrayDrain(old(View()).world, slot, outcome).0)
      ensures ok == XrayDrain(old(View()).world, slot, outcome).1
    {
      ok := true;
      if xray.Some? {
        var r := XrayTransaction.DrainSlot(xray.value, slot, outcome);
        xray, ok := Some(r.after), r.ok;
      }
    }

    method ActivateXray(slot: nat, outcome: XrayTransaction.Outcome) returns (ok: bool)
      modifies this
      ensures View() == old(View()).(world := XrayActivate(old(View()).world, slot, outcome).0)
      ensures ok == XrayActivate(old(View()).world, slot, outcome).1
    {
      ok := true;
      if xray.Some? {
        var r := XrayTransaction.ActivateSlot(xray.value, slot, outcome);
        xray, ok := Some(r.after), r.ok;
      }
    }

    /** Fields of a tunnel object change. */
    method Mark(t: TunnelId, tunnel: Tunnel)
      modifies this
      ensures View() == WithTunnel(old(View()), t, tunnel)
    {
      tunnels := tunnels[t := tunnel];
    }

    method StopTunnel(t: TunnelId)
      requires t in tunnels
      modifies this
      ensures View() == Stop(old(View()), t)
    {
      tunnels := tunnels[t := tunnels[t].(state := Down, exited := true, place := Stopped)];
    }

    /** Fields of a slot's controller change under its own lock; a slot out of range has none. */
    method Tell(slot: nat, c: Leases.Controller)
      modifies this
      ensures View() == WithController(old(View()), slot, c)
      ensures tunnels == old(tunnels) && operations == old(operations)
    {
      if slot in controllers {
        controllers := controllers[slot := c];
      }
    }

    // ---- Draining ----

    method TransitionToDraining(slot: nat, t: TunnelId, e: DrainInput)
      requires t in tunnels && (slot in drainingSlots ==> drainingSlots[slot] in tunnels && drainingSlots[slot] != t)
      modifies this
      ensures View() == ControlPlane.TransitionToDraining(old(View()), slot, t, e)
    {
      hide Retire, LeaveSlot, Overwrite, Stop, WithController, XrayDrain, XrayActivate, Routed, ClearSlot;
      var ok := DrainXray(slot, e.xray);
      if !ok {
        return;
      }
      if tunnels[t].state != Up || tunnels[t].exited {
        ClearSlotRouting(slot, e.clear);
        RetireTunnel(slot, t);
        return;
      }
      ghost var drained := View();
      MarkDraining(t, e.now);
      ok := Route(BASE_DRAINING_TABLE + slot, Dev(t), e.route);
      if !ok {
        var _ := ActivateXray(slot, e.reactivate);
        MarkActive(t);
        MarkedTwice(drained, t, e.now);
        return;
      }
      MarkingAbsorbed(drained.(world := View().world), slot, t, e.tunIP, e.now);
      RecordDraining(slot, t, e.tunIP, e.now);
    }

    method MarkDraining(t: TunnelId, now: int)
      requires t in tunnels
      modifies this
      ensures View() == WithTunnel(old(View()), t, old(View()).tunnels[t].(state := Leaving, drainingSince := now))
    {
      tunnels := tunnels[t := tunnels[t].(state := Leaving, drainingSince := now)];
    }

    method MarkActive(t: TunnelId)
      requires t in tunnels
      modifies this
      ensures View() == WithTunnel(old(View()), t, old(View()).tunnels[t].(state := Up, drainingSince := 0))
    {
      tunnels := tunnels[t := tunnels[t].(state := Up, drainingSince := 0)];
    }

    /** A process that has exited has nothing to drain. */
    method RetireTunnel(slot: nat, t: TunnelId)
      requires t in tunnels
      modifies this
      ensures View() == Retire(old(View()), slot, t)
    {
      hide Stop, WithController;
      activeSlots := activeSlots - {slot};
      Tell(slot, ControllerOf(View(), slot).(
        activeTunnel := None, drainingTunnel := None, drainingTable := 0, state := Leases.Failed,
            outboundActive := false));
      StopTunnel(t);
    }

    /** The three map entries of a drain, whether or not the slot had some already; then the slot is left. */
    method RecordDraining(slot: nat, t: TunnelId, tunIP: string, now: int)
      requires t in tunnels && (slot in drainingSlots ==> drainingSlots[slot] in tunnels)
      modifies this
      ensures View() == LeaveSlot(Overwrite(old(View()), slot), slot, t, tunIP, now)
    {
      hide EnterDraining, WithController, Overwrite;
      ForgetDraining(slot);
      EnterDrainingSlot(slot, t, tunIP, now);
      activeSlots := activeSlots - {slot};
      Tell(slot, ControllerOf(View(), slot).(
        activeTunnel := None, drainingTunnel := Some(t), drainingTable := BASE_DRAINING_TABLE + slot,
        state := Leases.Draining, outboundActive := false));
    }

    method EnterDrainingSlot(slot: nat, t: TunnelId, tunIP: string, now: int)
      requires t in tunnels
      modifies this
      ensures View() == EnterDraining(old(View()), slot, t, tunIP, now)
    {
      tunnels := tunnels[t := tunnels[t].(state := Leaving, drainingSince := now, place := InDraining(slot))];
      drainingTableIDs := drainingTableIDs[slot := BASE_DRAINING_TABLE + slot];
      drainingTunIPs := drainingTunIPs[slot := tunIP];
      drainingSlots := drainingSlots[slot := t];
    }

    /** What overwriting the entries of a slot does to the tunnel they named. */
    method ForgetDraining(slot: nat)
      requires slot in drainingSlots ==> drainingSlots[slot] in tunnels
      modifies this
      ensures View() == Overwrite(old(View()), slot) && tunnels.Keys == old(tunnels).Keys
    {
      if slot in drainingSlots {
        tunnels := tunnels[drainingSlots[slot] := tunnels[drainingSlots[slot]].(place := Lost)];
        drainingTableIDs := drainingTableIDs - {slot};
        drainingTunIPs := drainingTunIPs - {slot};
        drainingSlots := drainingSlots - {slot};
      }
    }

    /** A replaced tunnel is refused, not overwritten, when the slot is still draining. */
    method DrainReplacedTunnel(slot: nat, t: TunnelId, route: RouteOutcome, tunIP: string, now: int) returns (ok: bool)
      requires t in tunnels
      modifies this
      ensures View() == DrainReplaced(old(View()), slot, t, route, tunIP, now).0
      ensures ok == DrainReplaced(old(View()), slot, t, route, tunIP, now).1
    {
      hide EnterDraining, WithController;
      if slot in drainingSlots {
        return false;
      }
      ok := Route(BASE_DRAINING_TABLE + slot, Dev(t), route);
      if !ok {
        return;
      }
      EnterDrainingSlot(slot, t, tunIP, now);
      Tell(slot, ControllerOf(View(), slot).(drainingTunnel := Some(t), drainingTable := BASE_DRAINING_TABLE + slot));
    }

    // ---- Cleanup ----

    method CleanupOne(slot: nat, e: CleanupInput)
      requires slot in drainingSlots && drainingSlots[slot] in tunnels
      modifies this
      ensures View() == CleanupSlot(old(View()), slot, e)
    {
      hide LeaveDraining, WithController, ClearSlot;
      var t := drainingSlots[slot];
      if TimedOut(tunnels[t], e.now) {
        StopDraining(slot, e.flush);
        if slot !in activeSlots {
          ClearSlotRouting(slot, e.clear);
        }
        return;
      }
      if e.count.None? || e.count.value > 0 {
        return;
      }
      StopDraining(slot, e.flush);
      Tell(slot, ControllerOf(View(), slot).(drainingTunnel := None));
    }

    method StopDraining(slot: nat, flush: RouteOutcome)
      requires slot in drainingSlots && drainingSlots[slot] in tunnels
      modifies this
      ensures View() == LeaveDraining(old(View()), slot, flush) && activeSlots == old(activeSlots)
    {
      var _ := Route(if slot in drainingTableIDs then drainingTableIDs[slot] else 0, Empty, flush);
      StopTunnel(drainingSlots[slot]);
      drainingSlots := drainingSlots - {slot};
      drainingTableIDs := drainingTableIDs - {slot};
      drainingTunIPs := drainingTunIPs - {slot};
    }

    /** The map is walked in any order; `inputs` says what each slot's turn finds. */
    method CleanupDrainingSlots(inputs: map<nat, CleanupInput>)
      requires Inv(View()) && drainingSlots.Keys <= inputs.Keys
      modifies this
      ensures CleanupPass.After(old(View()), View(), old(drainingSlots.Keys), inputs)
    {
      hide Inv, CleanupSlot, CleanupPass.MapsAfter, CleanupPass.TunnelsAfter, CleanupPass.ControllersAfter,
          CleanupPass.RoutesAfter;
      CleanupPass.NobodyYet(View(), inputs);
      var todo := drainingSlots.Keys;
      assert old(drainingSlots.Keys) - todo == {};
      while todo != {}
        invariant todo <= old(drainingSlots.Keys)
        invariant CleanupPass.After(old(View()), View(), old(drainingSlots.Keys) - todo, inputs)
      {
        var slot :| slot in todo;
        CleanupPass.TurnAddsUp(old(View()), View(), old(drainingSlots.Keys) - todo, slot, inputs);
        CleanupOne(slot, inputs[slot]);
        assert old(drainingSlots.Keys) - todo + {slot} == old(drainingSlots.Keys) - (todo - {slot});
        todo := todo - {slot};
      }
      assert old(drainingSlots.Keys) - todo == old(drainingSlots.Keys);
    }

    // ---- Diversity ----

    method NodePrefixes(node: Node, extra: Address) returns (prefixes: map<nat, Address>)
      ensures prefixes.Keys == Prefixes(node, extra)
      ensures forall p | p in prefixes ::
        Prefix(prefixes[p]) == Some(p) && prefixes[p] in {node.ip, node.observed, extra}
    {
      prefixes := map[];
      var addresses := [node.ip, node.observed, extra];
      for i := 0 to |addresses|
        invariant prefixes.Keys == set k | 0 <= k < i && Prefix(addresses[k]).Some? :: Prefix(addresses[k]).value
        invariant forall p | p in prefixes :: Prefix(prefixes[p]) == Some(p) && prefixes[p] in addresses
      {
        var prefix := Prefix(addresses[i]);
        if prefix.Some? {
          prefixes := prefixes[prefix.value := addresses[i]];
        }
      }
      assert addresses[0] == node.ip && addresses[1] == node.observed && addresses[2] == extra;
      assert forall p :: p in prefixes.Keys <==> p in Prefixes(node, extra);
    }

    method PrefixConflict(candidate: Node, prefixes: map<nat, Address>, extra: Address, t: TunnelId)
        returns (conflict: bool)
      requires t in tunnels && prefixes.Keys == Prefixes(candidate, extra)
      ensures conflict <==> Conflict(candidate, extra, tunnels[t].node)
    {
      if tunnels[t].node.id == candidate.id {
        return false;
      }
      var existing := NodePrefixes(tunnels[t].node, Unusable);
      var todo := prefixes.Keys;
      while todo != {}
        invariant todo <= prefixes.Keys
        invariant (prefixes.Keys - todo) !! existing.Keys
      {
        var p :| p in todo;
        if p in existing {
          return true;
        }
        todo := todo - {p};
      }
      return false;
    }

    /** The nil error means: diverse. */
    method CheckPrefixDiversity(candidate: Node, observed: Address, exclude: int) returns (ok: bool)
      requires PlacesTold(View())
      ensures ok <==> Diverse(View(), candidate, observed, exclude)
    {
      var prefixes := NodePrefixes(candidate, observed);
      if prefixes.Keys == {} {
        return false;
      }
      var todo := activeSlots.Keys;
      while todo != {}
        invariant todo <= activeSlots.Keys
        invariant forall slot | slot in activeSlots && slot !in todo && slot != exclude ::
                    activeSlots[slot] in tunnels ==> !Conflict(candidate, observed, tunnels[activeSlots[slot]].node)
      {
        var slot :| slot in todo;
        if slot != exclude {
          ActiveKnown(View(), slot);
          var conflict := PrefixConflict(candidate, prefixes, observed, activeSlots[slot]);
          if conflict {
            return false;
          }
        }
        todo := todo - {slot};
      }
      for i := 0 to |standbyNodes|
        invariant forall k | 0 <= k < i ::
                    standbyNodes[k] in tunnels ==> !Conflict(candidate, observed, tunnels[standbyNodes[k]].node)
      {
        StandbyKnown(View(), i);
        var conflict := PrefixConflict(candidate, prefixes, observed, standbyNodes[i]);
        if conflict {
          return false;
        }
      }
      return true;
    }

    // ---- Reconcile ----

    method HealthCheckSlot(slot: nat, healthy: bool, e: DrainInput)
      requires Inv(View()) && slot in activeSlots && slot !in manualOverride
      modifies this
      ensures Enabled(old(View()), HealthCheck(slot, healthy, e))
      ensures View() == Apply(old(View()), HealthCheck(slot, healthy, e)) && SlotsConfined(old(View()), View(), slot)
      ensures activeSlots.Keys <= old(activeSlots.Keys) && old(activeSlots.Keys) <= activeSlots.Keys + {slot}
      ensures manualOverride == old(manualOverride) && operations == old(operations)
    {
      hide Inv, ControlPlane.TransitionToDraining;
      ActiveTunnelKnown(View(), slot);
      DrainReach(View(), slot, activeSlots[slot], e);
      if tunnels[activeSlots[slot]].state != Up || !healthy {
        TransitionToDraining(slot, activeSlots[slot], e);
        KeysConfined(old(View()), View(), slot);
      }
    }

    method PromoteStandby(slot: nat, e: PromoteInput)
      requires |standbyNodes| > 0 && standbyNodes[0] in tunnels
      modifies this
      ensures View() == Promote(old(View()), slot, e)
    {
      hide SetupSlot, ClearSlot, XrayActivate, WithController, WithTunnel;
      var t := standbyNodes[0];
      if tunnels[t].state != Up {
        standbyNodes := standbyNodes[1..];
        StopTunnel(t);
        return;
      }
      var ok := SetupSlotRouting(slot, t, e.route);
      if !ok {
        standbyNodes := standbyNodes[1..];
        StopTunnel(t);
        return;
      }
      ok := ActivateXray(slot, e.activate);
      if !ok {
        ClearSlotRouting(slot, e.clear);
        standbyNodes := standbyNodes[1..];
        StopTunnel(t);
        return;
      }
      Seat(slot);
    }

    method Seat(slot: nat)
      requires |standbyNodes| > 0 && standbyNodes[0] in tunnels
      modifies this
      ensures View() == SeatHead(old(View()), slot)
    {
      hide WithController;
      var t := standbyNodes[0];
      tunnels := tunnels[t := tunnels[t].(place := InSlot(slot))];
      standbyNodes := standbyNodes[1..];
      activeSlots := activeSlots[slot := t];
      Tell(slot, ControllerOf(View(), slot).(activeTunnel := Some(t), state := Leases.Active, outboundActive := true));
    }

    /** The slots to be synchronised to Xray, in order. */
    method LiveActiveSlots() returns (slots: seq<nat>)
      ensures (set slot | slot in slots) == LiveSlots(View())
      ensures forall slot: nat :: slot in slots <==>
        && slot < maxActive && slot in activeSlots && activeSlots[slot] in tunnels
        && tunnels[activeSlots[slot]].state == Up && !tunnels[activeSlots[slot]].exited
      ensures forall i, j | 0 <= i < j < |slots| :: slots[i] < slots[j]
    {
      slots := [];
      for i := 0 to maxActive
        invariant forall slot :: slot in slots <==> slot in activeSlots && slot < i && Live(View(), slot)
        invariant forall j | 0 <= j < |slots| :: slots[j] < i
        invariant forall j, k | 0 <= j < k < |slots| :: slots[j] < slots[k]
      {
        if i in activeSlots && activeSlots[i] in tunnels && tunnels[activeSlots[i]].state == Up &&
            !tunnels[activeSlots[i]].exited {
          slots := slots + [i];
        }
      }
    }

    method SynchroniseXray(outcome: XrayTransaction.Outcome)
      modifies this
      ensures View() == SyncXray(old(View()), outcome)
    {
      hide LiveSlots;
      if xray.Some? {
        var slots := LiveActiveSlots();
        var live := set slot | slot in slots;
        assert live == LiveSlots(View());
        xray := Some(XrayTransaction.SyncSlots(xray.value, live, outcome).after);
      }
    }

    /** A slot to fill from the head of the queue, in one reconcile pass. */
    method FillSlot(slot: nat, e: PromoteInput)
      requires Inv(View()) && |standbyNodes| > 0 && slot < maxActive && slot !in manualOverride && slot !in activeSlots
      modifies this
      ensures Enabled(old(View()), Fill(slot, e))
      ensures View() == Apply(old(View()), Fill(slot, e)) && SlotsConfined(old(View()), View(), slot)
      ensures manualOverride == old(manualOverride) && operations == old(operations)
    {
      hide Inv, Promote;
      HeadKnown(View());
      PromoteReach(View(), slot, e);
      PromoteStandby(slot, e);
    }

    /**
     One reconcile pass under the lock. It takes a health check of every active slot, in the order in which the map is
     walked, then fills the empty slots in turn while there is a queue, then synchronises Xray; the slots under manual
     override are left out. Afterwards a slot is still empty only if the queue is, or if the tunnel tried on it failed.
     */
    method ReconcileActiveSlots(healthy: map<nat, bool>, drains: map<nat, DrainInput>,
        promotions: map<nat, PromoteInput>, outcome: XrayTransaction.Outcome)
        returns (ghost order: seq<nat>, ghost steps: seq<Step>)
      requires Inv(View()) && activeSlots.Keys <= healthy.Keys && activeSlots.Keys <= drains.Keys
      requires forall slot: nat | slot < maxActive :: slot in promotions
      modifies this
      ensures Distinct(order) && (set slot | slot in order) == old(activeSlots.Keys - manualOverride)
      ensures (set slot | slot in order) <= healthy.Keys && (set slot | slot in order) <= drains.Keys
      ensures var checks := Checks(order, healthy, drains);
        steps == checks + Fills(Run(old(View()), checks), promotions, maxActive) + [Synchronise(outcome)]
      ensures View() == Run(old(View()), steps) && Inv(View())
      ensures forall slot | slot in old(manualOverride) :: SlotSame(old(View()), View(), slot)
      ensures manualOverride == old(manualOverride) && operations == old(operations)
      ensures forall slot: nat | slot < maxActive && slot !in manualOverride && slot !in activeSlots ::
        standbyNodes == [] || TurnFails(Run(old(View()), Checks(order, healthy, drains)), promotions, slot)
    {
      hide Inv, Apply, Run, Enabled, SlotSame, TurnFails, Checks, Fills;
      order := HealthCheckAll(healthy, drains);
      ghost var checked := View();
      ghost var checks := Checks(order, healthy, drains);
      FillAll(promotions);
      ghost var filled := View();
      ghost var fills := Fills(checked, promotions, maxActive);
      steps := checks + fills;
      RunConcat(old(View()), checks, fills);
      FilledSlots(checked, promotions, maxActive);
      SameThroughout(old(View()), checked, filled, manualOverride);
      SynchroniseXray(outcome);
      SyncStep(filled, outcome);
      StepTaken(old(View()), steps, filled, Synchronise(outcome), View(), maxActive, old(manualOverride));
      steps := steps + [Synchronise(outcome)];
    }

    method HealthCheckAll(healthy: map<nat, bool>, drains: map<nat, DrainInput>) returns (ghost order: seq<nat>)
      requires Inv(View()) && activeSlots.Keys <= healthy.Keys && activeSlots.Keys <= drains.Keys
      modifies this
      ensures Distinct(order) && (set slot | slot in order) == old(activeSlots.Keys - manualOverride)
      ensures (set slot | slot in order) <= healthy.Keys && (set slot | slot in order) <= drains.Keys
      ensures View() == Run(old(View()), Checks(order, healthy, drains)) && Inv(View())
      ensures forall slot | slot in old(manualOverride) :: SlotSame(old(View()), View(), slot)
      ensures manualOverride == old(manualOverride) && operations == old(operations)
    {
      hide Inv, Apply, Run, Enabled, SlotSame;
      order := [];
      RunNone(View());
      assert Checks(order, healthy, drains) == [];
      var todo := activeSlots.Keys;
      forall slot | slot in manualOverride ensures SlotSame(View(), View(), slot) { SameAsItself(View(), slot); }
      while todo != {}
        invariant Inv(View()) && todo <= activeSlots.Keys && activeSlots.Keys <= old(activeSlots.Keys)
        invariant todo <= old(activeSlots.Keys) && Distinct(order)
        invariant forall slot :: slot in order <==> slot in old(activeSlots.Keys) - todo && slot !in old(manualOverride)
        invariant View() == Run(old(View()), Checks(order, healthy, drains))
        invariant manualOverride == old(manualOverride) && operations == old(operations)
        invariant forall slot | slot in old(manualOverride) :: SlotSame(old(View()), View(), slot)
      {
        var slot :| slot in todo;
        todo := todo - {slot};
        if slot !in manualOverride {
          ghost var before := View();
          HealthCheckSlot(slot, healthy[slot], drains[slot]);
          StepTaken(old(View()), Checks(order, healthy, drains), before, HealthCheck(slot, healthy[slot], drains[slot]),
                    View(), slot, old(manualOverride));
          OneMoreCheck(order, slot, healthy, drains);
          order := order + [slot];
        }
      }
    }

    method FillAll(promotions: map<nat, PromoteInput>)
      requires Inv(View()) && forall slot: nat | slot < maxActive :: slot in promotions
      modifies this
      ensures View() == Run(old(View()), Fills(old(View()), promotions, maxActive)) && Inv(View())
      ensures forall slot | slot in old(manualOverride) :: SlotSame(old(View()), View(), slot)
      ensures manualOverride == old(manualOverride) && operations == old(operations)
    {
      hide Inv, Apply, Run, Enabled, SlotSame;
      RunNone(View());
      forall slot | slot in manualOverride ensures SlotSame(View(), View(), slot) { SameAsItself(View(), slot); }
      for i := 0 to maxActive
        invariant Inv(View()) && View() == Run(old(View()), Fills(old(View()), promotions, i))
        invariant manualOverride == old(manualOverride) && operations == old(operations)
        invariant forall slot | slot in old(manualOverride) :: SlotSame(old(View()), View(), slot)
      {
        ghost var fills := Fills(old(View()), promotions, i);
        assert fills + [] == fills;
        if i !in manualOverride && i !in activeSlots && |standbyNodes| > 0 {
          ghost var before := View();
          FillSlot(i, promotions[i]);
          StepTaken(old(View()), fills, before, Fill(i, promotions[i]), View(), i, old(manualOverride));
        }
      }
    }

    // ---- Standby qualification: start, drop and the final commit of maintainStandbyPool ----

    method StartStandby(node: Node, started: bool, probe: RouteOutcome)
      requires qualifying.None? && |standbyNodes| < maxStandby
      modifies this
      ensures View() == Apply(old(View()), Step.StartStandby(node, started, probe))
    {
      hide SetupSlot;
      if !started {
        counter := counter + 1;
        return;
      }
      var _ := SetupSlotRouting(counter + 1, counter + 1, probe);
      counter := counter + 1;
      tunnels := tunnels[counter := Tunnel(node, Up, false, 0, WithWorker)];
      qualifying := Some(counter);
    }

    method DropStandby(clear: RouteOutcome)
      requires qualifying.Some? && qualifying.value in tunnels
      modifies this
      ensures View() == Apply(old(View()), Step.DropStandby(clear))
    {
      hide ClearSlot;
      ClearSlotRouting(qualifying.value, clear);
      StopTunnel(qualifying.value);
      qualifying := None;
    }

    method CommitStandby(observed: Address, clear: RouteOutcome)
      requires Inv(View()) && qualifying.Some? && qualifying.value in tunnels
      modifies this
      ensures View() == Apply(old(View()), Step.CommitStandby(observed, clear))
    {
      hide ClearSlot, Diverse, Inv;
      var t := qualifying.value;
      var node := tunnels[t].node.(observed := observed);
      ClearSlotRouting(t, clear);
      WorldFrame(old(View()), View().world);
      InvPlaces(View());
      var diverse := CheckPrefixDiversity(node, observed, -1);
      DiversityOfMaps(old(View()), View(), node, observed, -1);
      if !diverse {
        StopTunnel(t);
        qualifying := None;
        return;
      }
      tunnels := tunnels[t := tunnels[t].(node := node, state := Up, place := InStandby)];
      standbyNodes := standbyNodes + [t];
      qualifying := None;
    }

    // ---- The locked part of handleSlotAction ----

    method NodeInUse(id: string) returns (inUse: bool)
      ensures inUse <==> exists slot ::
        slot in activeSlots && activeSlots[slot] in tunnels && tunnels[activeSlots[slot]].node.id == id
    {
      var todo := activeSlots.Keys;
      while todo != {}
        invariant todo <= activeSlots.Keys
        invariant forall slot | slot in activeSlots && slot !in todo ::
                    activeSlots[slot] in tunnels ==> tunnels[activeSlots[slot]].node.id != id
      {
        var slot :| slot in todo;
        if activeSlots[slot] in tunnels && tunnels[activeSlots[slot]].node.id == id {
          return true;
        }
        todo := todo - {slot};
      }
      return false;
    }

    /** `eligible`: the row exists, its status allows a manual switch and its credential is in memory. */
    method ReserveSlot(id: string, slot: nat, target: Node, eligible: bool) returns (granted: bool)
      requires Inv(View()) && id !in operations
      modifies this
      ensures granted <==> Grantable(old(View()), slot, target, eligible)
      ensures View() == Reserve(old(View()), id, slot, target, eligible)
    {
      hide Diverse, Inv, Grantable;
      ReservableMeans(View(), slot, target, eligible);
      if slot >= maxActive || slot in manualOverride || !eligible {
        return false;
      }
      var inUse := NodeInUse(target.id);
      if inUse {
        return false;
      }
      InvPlaces(View());
      var diverse := CheckPrefixDiversity(target, Unusable, slot);
      if !diverse || slot !in controllers {
        return false;
      }
      var (c, lease) := Leases.Acquire(controllers[slot], slot, MANUAL_OWNER, id);
      if lease.None? {
        return false;
      }
      controllers := controllers[slot := c];
      manualOverride := manualOverride + {slot};
      operations := operations[id := Switch(slot, target, lease.value, Admission, Pending, None, None, false)];
      return true;
    }
  }

  // ---- The steps of a pass ----

  predicate Distinct(slots: seq<nat>) {
    forall i, j | 0 <= i < j < |slots| :: slots[i] != slots[j]
  }

  function Checks(order: seq<nat>, healthy: map<nat, bool>, drains: map<nat, DrainInput>): seq<Step>
    requires (set slot | slot in order) <= healthy.Keys && (set slot | slot in order) <= drains.Keys
  {
    seq(|order|, i requires 0 <= i < |order| =>
      assert order[i] in (set slot | slot in order);
      HealthCheck(order[i], healthy[order[i]], drains[order[i]]))
  }

  lemma OneMoreCheck(order: seq<nat>, slot: nat, healthy: map<nat, bool>, drains: map<nat, DrainInput>)
    requires (set q | q in order) <= healthy.Keys && (set q | q in order) <= drains.Keys
    requires slot in healthy && slot in drains
    ensures (set q | q in order + [slot]) <= healthy.Keys && (set q | q in order + [slot]) <= drains.Keys
    ensures Checks(order + [slot], healthy, drains) ==
      Checks(order, healthy, drains) + [HealthCheck(slot, healthy[slot], drains[slot])]
  {
  }

  /** The slot gets the head of the queue, if there is one. */
  predicate ToFill(s: State, slot: nat) {
    slot !in s.override && slot !in s.active && |s.standby| > 0
  }

  /** The fills of the slots below n, each decided in the state that the ones before it leave. */
  ghost function Fills(s: State, promotions: map<nat, PromoteInput>, n: nat): seq<Step>
    requires forall slot: nat | slot < n :: slot in promotions
  {
    if n == 0 then []
    else
      var before := Fills(s, promotions, n - 1);
      before + if ToFill(Run(s, before), n - 1) then [Fill(n - 1, promotions[n - 1])] else []
  }

  /** The slot was filled at its turn, and the tunnel it got did not work out: down, unrouted, or refused by Xray. */
  ghost predicate TurnFails(s: State, promotions: map<nat, PromoteInput>, slot: nat)
    requires forall q: nat | q <= slot :: q in promotions
  {
    var b := Run(s, Fills(s, promotions, slot));
    && ToFill(b, slot) && b.standby[0] in b.tunnels
    && (b.tunnels[b.standby[0]].state != Up || promotions[slot].route.Failed?
        || (b.world.xray.Some? && slot !in b.world.xray.value.memory && !promotions[slot].activate.Applied?))
  }

  lemma OneFill(s: State, q: nat, e: PromoteInput)
    requires Inv(s) && ToFill(s, q) && q < s.maxActive
    ensures Enabled(s, Fill(q, e)) && s.standby[0] in s.tunnels
    ensures var s' := Apply(s, Fill(q, e));
      && s'.standby == s.standby[1..] && s'.override == s.override && s'.maxActive == s.maxActive
      && (forall p | p in s.active :: p in s'.active)
      && (q in s'.active <==>
            && s.tunnels[s.standby[0]].state == Up && e.route.Done?
            && (s.world.xray.None? || q in s.world.xray.value.memory || e.activate.Applied?))
  {
    hide Inv, Promote;
    HeadKnown(s);
    PromoteReach(s, q, e);
    PromotionWorldReach(s, q, e);
    PromotionGoesThrough(s, q, e);
    hide PromotionWorld, SeatHead, StopHead;
    HeadLeaves(s.(world := PromotionWorld(s, q, e).0), q);
  }

  lemma HeadLeaves(s: State, q: nat)
    requires |s.standby| > 0 && s.standby[0] in s.tunnels
    ensures SeatHead(s, q).standby == StopHead(s).standby == s.standby[1..]
    ensures SeatHead(s, q).active == s.active[q := s.standby[0]] && StopHead(s).active == s.active
  {
  }

  /** After the fills of the slots below n, each of them is taken, overridden, or has had its chance. */
  lemma {:induction false} FilledSlots(s: State, promotions: map<nat, PromoteInput>, n: nat)
    requires Inv(s) && n <= s.maxActive && forall slot: nat | slot < s.maxActive :: slot in promotions
    ensures var b := Run(s, Fills(s, promotions, n));
      && Inv(b) && b.override == s.override && b.maxActive == s.maxActive
      && forall slot: nat | slot < n && slot !in b.override && slot !in b.active ::
           b.standby == [] || TurnFails(s, promotions, slot)
  {
    hide Inv, Run, Apply, Enabled, TurnFails;
    if n == 0 {
      RunNone(s);
    } else {
      FilledSlots(s, promotions, n - 1);
      var fills := Fills(s, promotions, n - 1);
      var b := Run(s, fills);
      assert fills + [] == fills;
      if ToFill(b, n - 1) {
        OneFill(b, n - 1, promotions[n - 1]);
        RunOneMore(s, fills, Fill(n - 1, promotions[n - 1]));
        StepInv(b, Fill(n - 1, promotions[n - 1]));
        FailedFill(s, promotions, n - 1);
      }
    }
  }

  lemma FailedFill(s: State, promotions: map<nat, PromoteInput>, slot: nat)
    requires forall q: nat | q <= slot :: q in promotions
    ensures var b := Run(s, Fills(s, promotions, slot)); var e := promotions[slot];
      ToFill(b, slot) && b.standby[0] in b.tunnels
      && !(b.tunnels[b.standby[0]].state == Up && e.route.Done?
           && (b.world.xray.None? || slot in b.world.xray.value.memory || e.activate.Applied?)) ==>
        TurnFails(s, promotions, slot)
  {
    hide Run, Fills;
  }

  ghost predicate SlotSame(s: State, s': State, q: nat) {
    Get(s'.active, q) == Get(s.active, q) && Get(s'.draining, q) == Get(s.draining, q) &&
        Get(s'.controllers, q) == Get(s.controllers, q)
  }

  lemma SameAsItself(s: State, q: nat)
    ensures SlotSame(s, s, q)
  {
  }

  lemma SameThroughout(a: State, b: State, c: State, overridden: set<nat>)
    requires forall q | q in overridden :: SlotSame(a, b, q)
    requires forall q | q in overridden :: SlotSame(b, c, q)
    ensures forall q | q in overridden :: SlotSame(a, c, q)
  {
  }

  /** A step confined to a slot outside `overridden` extends a pass. */
  lemma StepTaken(s: State, steps: seq<Step>, before: State, step: Step, after: State, q: nat, overridden: set<nat>)
    requires Inv(before) && before == Run(s, steps) && Enabled(before, step) && after == Apply(before, step)
    requires SlotsConfined(before, after, q) && q !in overridden
    requires forall p | p in overridden :: SlotSame(s, before, p)
    ensures Run(s, steps + [step]) == after && Inv(after)
    ensures forall p | p in overridden :: SlotSame(s, after, p)
  {
    hide Inv, Apply, Enabled, Run;
    RunOneMore(s, steps, step);
    StepInv(before, step);
  }

  lemma KeysConfined(s: State, s': State, q: nat)
    requires DrainReached(s, s', q) && q in s.active
    ensures s'.active.Keys <= s.active.Keys && s.active.Keys <= s'.active.Keys + {q}
    ensures s'.override == s.override && s'.switches == s.switches
  {
    forall p | p in s'.active ensures p in s.active { assert p != q ==> Get(s'.active, p) == Get(s.active, p); }
    forall p | p in s.active && p != q ensures p in s'.active { assert Get(s'.active, p) == Get(s.active, p); }
  }

  lemma SyncStep(s: State, outcome: XrayTransaction.Outcome)
    requires Inv(s)
    ensures Enabled(s, Synchronise(outcome)) && Apply(s, Synchronise(outcome)) == SyncXray(s, outcome)
    ensures SlotsConfined(s, SyncXray(s, outcome), s.maxActive)
    ensures s.maxActive !in s.override && SyncXray(s, outcome).override == s.override &&
        SyncXray(s, outcome).switches == s.switches
  {
    var s' := SyncXray(s, outcome);
    assert s' == s.(world := s'.world) by { hide LiveSlots, XrayTransaction.SyncSlots; }
    hide SyncXray;
  }

  /** The check reads the active and standby tunnels only. */
  lemma DiversityOfMaps(s: State, s': State, node: Node, extra: Address, exclude: int)
    requires s'.active == s.active && s'.standby == s.standby && s'.tunnels == s.tunnels
    ensures Diverse(s', node, extra, exclude) <==> Diverse(s, node, extra, exclude)
  {
  }

  lemma ActiveTunnelKnown(s: State, q: nat)
    requires Inv(s) && q in s.active
    ensures s.active[q] in s.tunnels && (q in s.draining ==> s.draining[q] in s.tunnels && s.draining[q] != s.active[q])
  {
    ActiveKnown(s, q);
    if q in s.draining {
      DrainingKnown(s, q);
    }
  }

  lemma MarkingThenOverwrite(s: State, slot: nat, t: TunnelId, tunnel: Tunnel)
    requires t in s.tunnels && (slot in s.draining ==> s.draining[slot] in s.tunnels && s.draining[slot] != t)
    ensures t in Overwrite(s, slot).tunnels && Overwrite(s, slot).tunnels[t] == s.tunnels[t]
    ensures Overwrite(WithTunnel(s, t, tunnel), slot) == WithTunnel(Overwrite(s, slot), t, tunnel)
  {
    var a, b := Overwrite(WithTunnel(s, t, tunnel), slot), WithTunnel(Overwrite(s, slot), t, tunnel);
    assert a.tunnels == b.tunnels;
  }

  lemma MarkingThenEntering(s: State, slot: nat, t: TunnelId, tunIP: string, now: int)
    requires t in s.tunnels
    ensures EnterDraining(WithTunnel(s, t, s.tunnels[t].(state := Leaving, drainingSince := now)), slot, t, tunIP, now)
         == EnterDraining(s, slot, t, tunIP, now)
  {
    var a := EnterDraining(WithTunnel(s, t, s.tunnels[t].(state := Leaving, drainingSince := now)), slot,
        t, tunIP, now);
    assert a.tunnels == EnterDraining(s, slot, t, tunIP, now).tunnels;
  }

  /** Marking a tunnel DRAINING before its route is set up makes no difference once the drain is recorded. */
  lemma MarkingAbsorbed(s: State, slot: nat, t: TunnelId, tunIP: string, now: int)
    requires t in s.tunnels && (slot in s.draining ==> s.draining[slot] in s.tunnels && s.draining[slot] != t)
    ensures var marked := WithTunnel(s, t, s.tunnels[t].(state := Leaving, drainingSince := now));
      && (slot in s.draining ==> s.draining[slot] in marked.tunnels)
      && LeaveSlot(Overwrite(marked, slot), slot, t, tunIP, now) == LeaveSlot(Overwrite(s, slot), slot, t, tunIP, now)
  {
    hide WithController, EnterDraining, Overwrite;
    var tunnel := s.tunnels[t].(state := Leaving, drainingSince := now);
    MarkingThenOverwrite(s, slot, t, tunnel);
    MarkingThenEntering(Overwrite(s, slot), slot, t, tunIP, now);
  }

  lemma MarkedTwice(s: State, t: TunnelId, now: int)
    requires t in s.tunnels
    ensures var marked := WithTunnel(s, t, s.tunnels[t].(state := Leaving, drainingSince := now));
      forall w :: WithTunnel(marked.(world := w), t, marked.tunnels[t].(state := Up, drainingSince := 0))
        == WithTunnel(s, t, s.tunnels[t].(state := Up, drainingSince := 0)).(world := w)
  {
  }
}
