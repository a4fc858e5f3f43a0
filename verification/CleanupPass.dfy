/**
 One pass of cleanupDrainingSlots over the draining map: what it keeps and what it
 stops, said once for all orders in which the map may be walked.
 */
module CleanupPass {
  import opened Wrappers
  import opened ControlPlane
  import opened Invariant
  import opened Effects
  import opened Theorems
  import Leases

  /** A tunnel goes on draining iff it has drained for at most 30 s and may still have connections. */
  predicate GoesOn(t: Tunnel, e: CleanupInput) {
    e.now - t.drainingSince <= 30000 && (e.count.None? || e.count.value > 0)
  }

  /** Slot q had its turn and its tunnel was stopped. */
  predicate Ended(s: State, had: set<nat>, inputs: map<nat, CleanupInput>, q: nat) {
    q in had && q in inputs && q in s.draining && s.draining[q] in s.tunnels &&
        !GoesOn(s.tunnels[s.draining[q]], inputs[q])
  }

  predicate EndedByTimeout(s: State, had: set<nat>, inputs: map<nat, CleanupInput>, q: nat) {
    Ended(s, had, inputs, q) && TimedOut(s.tunnels[s.draining[q]], inputs[q].now)
  }

  ghost predicate MapsAfter(s: State, s': State, had: set<nat>, inputs: map<nat, CleanupInput>) {
    forall q: nat ::
      && Get(s'.draining, q) == (if Ended(s, had, inputs, q) then None else Get(s.draining, q))
      && Get(s'.drainingTable, q) == (if Ended(s, had, inputs, q) then None else Get(s.drainingTable, q))
      && Get(s'.drainingIP, q) == (if Ended(s, had, inputs, q) then None else Get(s.drainingIP, q))
  }

  ghost predicate TunnelsAfter(s: State, s': State, had: set<nat>, inputs: map<nat, CleanupInput>) {
    && s'.tunnels.Keys == s.tunnels.Keys
    && (forall q: nat | Ended(s, had, inputs, q) ::
          s'.tunnels[s.draining[q]] == s.tunnels[s.draining[q]].(state := Down, exited := true, place := Stopped))
    && (forall t | t in s.tunnels && (forall q: nat | Ended(s, had, inputs, q) :: s.draining[q] != t) ::
        s'.tunnels[t] == s.tunnels[t])
  }

  /** A controller forgets its draining tunnel when the drain completed, not when it timed out. */
  ghost predicate ControllersAfter(s: State, s': State, had: set<nat>, inputs: map<nat, CleanupInput>) {
    forall q: nat :: Get(s'.controllers, q) ==
      if Ended(s, had, inputs, q) && !EndedByTimeout(s, had, inputs, q) && q in s.controllers
      then Some(s.controllers[q].(drainingTunnel := None))
      else Get(s.controllers, q)
  }

  ghost predicate RoutesAfter(s: State, s': State, had: set<nat>, inputs: map<nat, CleanupInput>) {
    && s'.world.xray == s.world.xray
    && forall q: nat | q < s.maxActive ::
         && TableOf(s'.world, BASE_DRAINING_TABLE + q) ==
              (if Ended(s, had, inputs, q) then Left(inputs[q].flush, Empty)
                  else TableOf(s.world, BASE_DRAINING_TABLE + q))
         && TableOf(s'.world, BASE_TABLE + q) ==
              (if EndedByTimeout(s, had, inputs, q) && q !in s.active then Left(inputs[q].clear, Unreachable)
               else TableOf(s.world, BASE_TABLE + q))
  }

  /** The state after the slots in `had` have had their turn, in whatever order. */
  ghost predicate After(s: State, s': State, had: set<nat>, inputs: map<nat, CleanupInput>) {
    && s' == s.(tunnels := s'.tunnels, draining := s'.draining, drainingTable := s'.drainingTable,
        drainingIP := s'.drainingIP,
                controllers := s'.controllers, world := s'.world)
    && MapsAfter(s, s', had, inputs) && TunnelsAfter(s, s', had, inputs) && ControllersAfter(s, s', had, inputs)
    && (s.maxActive <= 100 ==> RoutesAfter(s, s', had, inputs))
  }

  lemma NobodyYet(s: State, inputs: map<nat, CleanupInput>)
    ensures After(s, s, {}, inputs)
  {
  }

  // ---- One turn ----

  /** What a turn on slot q does to a state, when it ends the drain and when it does not. */
  ghost predicate Turn(s: State, s': State, q: nat, e: CleanupInput)
    requires q in s.draining && s.draining[q] in s.tunnels
  {
    var t := s.draining[q];
    if GoesOn(s.tunnels[t], e) then s' == s
    else
      && s' == s.(tunnels := s.tunnels[t := s.tunnels[t].(state := Down, exited := true, place := Stopped)],
                  draining := s.draining - {q}, drainingTable := s.drainingTable - {q},
                      drainingIP := s.drainingIP - {q},
                  controllers := s'.controllers, world := s'.world)
      && s'.controllers == (if !TimedOut(s.tunnels[t], e.now) && q in s.controllers
                            then s.controllers[q := s.controllers[q].(drainingTunnel := None)] else s.controllers)
      && s'.world.xray == s.world.xray
      && TableOf(s'.world, BASE_DRAINING_TABLE + q) == Left(e.flush, Empty)
      && (forall i: int | i != BASE_TABLE + q && i != BASE_DRAINING_TABLE + q ::
          TableOf(s'.world, i) == TableOf(s.world, i))
      && TableOf(s'.world, BASE_TABLE + q) ==
           (if TimedOut(s.tunnels[t], e.now) && q !in s.active then Left(e.clear, Unreachable)
               else TableOf(s.world, BASE_TABLE + q))
  }

  lemma LeavesDraining(s: State, q: nat, flush: RouteOutcome)
    requires q in s.draining && s.draining[q] in s.tunnels
    requires q in s.drainingTable && s.drainingTable[q] == BASE_DRAINING_TABLE + q
    ensures var s' := LeaveDraining(s, q, flush); var t := s.draining[q];
      && s' == s.(tunnels := s.tunnels[t := s.tunnels[t].(state := Down, exited := true, place := Stopped)],
                  draining := s.draining - {q}, drainingTable := s.drainingTable - {q},
                      drainingIP := s.drainingIP - {q},
                  world := Routed(s.world, BASE_DRAINING_TABLE + q, Empty, flush))
  {
  }

  lemma TimeoutTurn(s: State, q: nat, e: CleanupInput)
    requires q in s.draining && s.draining[q] in s.tunnels && TimedOut(s.tunnels[s.draining[q]], e.now)
    requires q in s.drainingTable && s.drainingTable[q] == BASE_DRAINING_TABLE + q
    ensures var s1 := LeaveDraining(s, q, e.flush);
      Turn(s, if q in s.active then s1 else s1.(world := ClearSlot(s1.world, q, e.clear)), q, e)
  {
    hide LeaveDraining;
    LeavesDraining(s, q, e.flush);
  }

  lemma CompletedTurn(s: State, q: nat, e: CleanupInput)
    requires q in s.draining && s.draining[q] in s.tunnels && !TimedOut(s.tunnels[s.draining[q]], e.now)
    requires q in s.drainingTable && s.drainingTable[q] == BASE_DRAINING_TABLE + q && e.count == Some(0)
    ensures var s1 := LeaveDraining(s, q, e.flush);
      Turn(s, WithController(s1, q, ControllerOf(s1, q).(drainingTunnel := None)), q, e)
  {
    hide LeaveDraining;
    LeavesDraining(s, q, e.flush);
  }

  lemma TakesTurn(s: State, q: nat, e: CleanupInput)
    requires q in s.draining && s.draining[q] in s.tunnels
    requires q in s.drainingTable && s.drainingTable[q] == BASE_DRAINING_TABLE + q
    ensures Turn(s, CleanupSlot(s, q, e), q, e)
  {
    if TimedOut(s.tunnels[s.draining[q]], e.now) {
      TimeoutTurn(s, q, e);
      hide Turn, LeaveDraining, WithController, ClearSlot;
      StillActive(s, q, e);
    } else if e.count == Some(0) {
      CompletedTurn(s, q, e);
      hide Turn, LeaveDraining, WithController;
    } else {
      hide LeaveDraining, WithController;
    }
  }

  lemma StillActive(s: State, q: nat, e: CleanupInput)
    requires q in s.draining && s.draining[q] in s.tunnels
    ensures LeaveDraining(s, q, e.flush).active == s.active
  {
  }

  // ---- Turns add up ----

  lemma MapsAddUp(s: State, s1: State, s2: State, had: set<nat>, q: nat, inputs: map<nat, CleanupInput>)
    requires MapsAfter(s, s1, had, inputs) && q !in had && q in inputs && q in s.draining && s.draining[q] in s.tunnels
    requires q in s1.draining && s1.draining[q] in s1.tunnels && s1.tunnels[s1.draining[q]] == s.tunnels[s.draining[q]]
    requires Turn(s1, s2, q, inputs[q])
    ensures MapsAfter(s, s2, had + {q}, inputs)
  {
    forall p: nat
      ensures Get(s2.draining, p) == if Ended(s, had + {q}, inputs, p) then None else Get(s.draining, p)
      ensures Get(s2.drainingTable, p) == if Ended(s, had + {q}, inputs, p) then None else Get(s.drainingTable, p)
      ensures Get(s2.drainingIP, p) == if Ended(s, had + {q}, inputs, p) then None else Get(s.drainingIP, p)
    {
      assert Get(s1.draining, p) == if Ended(s, had, inputs, p) then None else Get(s.draining, p);
    }
  }

  lemma TunnelsAddUp(s: State, s1: State, s2: State, had: set<nat>, q: nat, inputs: map<nat, CleanupInput>)
    requires TunnelsAfter(s, s1, had, inputs) && q !in had && q in inputs && q in s.draining &&
        s.draining[q] in s.tunnels
    requires q in s1.draining && s1.draining[q] == s.draining[q] &&
        s1.tunnels[s1.draining[q]] == s.tunnels[s.draining[q]]
    requires forall p: nat | p in s.draining && p != q :: s.draining[p] != s.draining[q]
    requires Turn(s1, s2, q, inputs[q])
    ensures TunnelsAfter(s, s2, had + {q}, inputs)
  {
    forall t | t in s.tunnels && (forall p: nat | Ended(s, had + {q}, inputs, p) :: s.draining[p] != t)
      ensures s2.tunnels[t] == s.tunnels[t]
    {
      forall p: nat | Ended(s, had, inputs, p) ensures s.draining[p] != t {
        assert Ended(s, had + {q}, inputs, p);
      }
      if t == s.draining[q] {
        assert !Ended(s, had + {q}, inputs, q);
      }
    }
  }

  lemma ControllersAddUp(s: State, s1: State, s2: State, had: set<nat>, q: nat, inputs: map<nat, CleanupInput>)
    requires ControllersAfter(s, s1, had, inputs) && q !in had && q in inputs && q in s.draining &&
        s.draining[q] in s.tunnels
    requires q in s1.draining && s1.draining[q] in s1.tunnels && s1.tunnels[s1.draining[q]] == s.tunnels[s.draining[q]]
    requires Turn(s1, s2, q, inputs[q])
    ensures ControllersAfter(s, s2, had + {q}, inputs)
  {
  }

  lemma DrainingRouteAddsUp(s: State, s1: State, s2: State, had: set<nat>, q: nat,
      inputs: map<nat, CleanupInput>, p: nat)
    requires RoutesAfter(s, s1, had, inputs) && q !in had && q in inputs && q in s.draining &&
        s.draining[q] in s.tunnels
    requires q in s1.draining && s1.draining[q] in s1.tunnels && s1.tunnels[s1.draining[q]] == s.tunnels[s.draining[q]]
    requires q < s.maxActive <= 100 && p < s.maxActive && Turn(s1, s2, q, inputs[q])
    ensures TableOf(s2.world, BASE_DRAINING_TABLE + p) ==
      if Ended(s, had + {q}, inputs, p) then Left(inputs[p].flush, Empty) else TableOf(s.world, BASE_DRAINING_TABLE + p)
  {
    hide TableOf;
    assert TableOf(s1.world, BASE_DRAINING_TABLE + p) ==
      if Ended(s, had, inputs, p) then Left(inputs[p].flush, Empty) else TableOf(s.world, BASE_DRAINING_TABLE + p);
  }

  lemma SlotRouteAddsUp(s: State, s1: State, s2: State, had: set<nat>, q: nat, inputs: map<nat, CleanupInput>, p: nat)
    requires RoutesAfter(s, s1, had, inputs) && q !in had && q in inputs && q in s.draining &&
        s.draining[q] in s.tunnels
    requires q in s1.draining && s1.draining[q] in s1.tunnels && s1.tunnels[s1.draining[q]] == s.tunnels[s.draining[q]]
    requires s1.active == s.active && q < s.maxActive <= 100 && p < s.maxActive && Turn(s1, s2, q, inputs[q])
    ensures TableOf(s2.world, BASE_TABLE + p) ==
      if EndedByTimeout(s, had + {q}, inputs, p) && p !in s.active then Left(inputs[p].clear, Unreachable)
      else TableOf(s.world, BASE_TABLE + p)
  {
    hide TableOf;
    assert TableOf(s1.world, BASE_TABLE + p) ==
      if EndedByTimeout(s, had, inputs, p) && p !in s.active then Left(inputs[p].clear, Unreachable)
          else TableOf(s.world, BASE_TABLE + p);
  }

  lemma RoutesAddUp(s: State, s1: State, s2: State, had: set<nat>, q: nat, inputs: map<nat, CleanupInput>)
    requires RoutesAfter(s, s1, had, inputs) && q !in had && q in inputs && q in s.draining &&
        s.draining[q] in s.tunnels
    requires q in s1.draining && s1.draining[q] in s1.tunnels && s1.tunnels[s1.draining[q]] == s.tunnels[s.draining[q]]
    requires s1.active == s.active && q < s.maxActive <= 100
    requires Turn(s1, s2, q, inputs[q])
    ensures RoutesAfter(s, s2, had + {q}, inputs)
  {
    hide TableOf;
    forall p: nat | p < s.maxActive
      ensures TableOf(s2.world, BASE_DRAINING_TABLE + p) ==
        (if Ended(s, had + {q}, inputs, p) then Left(inputs[p].flush, Empty)
            else TableOf(s.world, BASE_DRAINING_TABLE + p))
      ensures TableOf(s2.world, BASE_TABLE + p) ==
        (if EndedByTimeout(s, had + {q}, inputs, p) && p !in s.active then Left(inputs[p].clear, Unreachable)
         else TableOf(s.world, BASE_TABLE + p))
    {
      DrainingRouteAddsUp(s, s1, s2, had, q, inputs, p);
      SlotRouteAddsUp(s, s1, s2, had, q, inputs, p);
    }
  }

  lemma TurnAddsUp(s: State, s1: State, had: set<nat>, q: nat, inputs: map<nat, CleanupInput>)
    requires Inv(s) && After(s, s1, had, inputs) && q in s.draining && q !in had && q in inputs
    ensures q in s1.draining && s1.draining[q] in s1.tunnels
    ensures After(s, CleanupSlot(s1, q, inputs[q]), had + {q}, inputs)
  {
    hide Inv, MapsAfter, TunnelsAfter, ControllersAfter, RoutesAfter, CleanupSlot, Turn;
    CleanupKnown(s, q);
    DrainingsApart(s, q);
    StillThere(s, s1, had, q, inputs);
    TakesTurn(s1, q, inputs[q]);
    var s2 := CleanupSlot(s1, q, inputs[q]);
    MapsAddUp(s, s1, s2, had, q, inputs);
    TunnelsAddUp(s, s1, s2, had, q, inputs);
    ControllersAddUp(s, s1, s2, had, q, inputs);
    if s.maxActive <= 100 { RoutesAddUp(s, s1, s2, had, q, inputs); }
    TurnConfined(s1, s2, q, inputs[q]);
  }

  lemma TurnConfined(s: State, s': State, q: nat, e: CleanupInput)
    requires q in s.draining && s.draining[q] in s.tunnels && Turn(s, s', q, e)
    ensures s' == s.(tunnels := s'.tunnels, draining := s'.draining, drainingTable := s'.drainingTable,
        drainingIP := s'.drainingIP,
                     controllers := s'.controllers, world := s'.world)
  {
  }

  lemma DrainingsApart(s: State, q: nat)
    requires Inv(s) && q in s.draining
    ensures s.draining[q] in s.tunnels && forall p: nat | p in s.draining && p != q :: s.draining[p] != s.draining[q]
  {
    forall p: nat | p in s.draining ensures At(s, s.draining[p], InDraining(p)) { DrainingKnown(s, p); }
  }

  lemma StillThere(s: State, s1: State, had: set<nat>, q: nat, inputs: map<nat, CleanupInput>)
    requires MapsAfter(s, s1, had, inputs) && TunnelsAfter(s, s1, had, inputs) && q in s.draining && q !in had
    requires s.draining[q] in s.tunnels && forall p: nat | p in s.draining && p != q :: s.draining[p] != s.draining[q]
    requires q in s.drainingTable && s.drainingTable[q] == BASE_DRAINING_TABLE + q
    ensures q in s1.draining && s1.draining[q] == s.draining[q] && s1.draining[q] in s1.tunnels
    ensures s1.tunnels[s1.draining[q]] == s.tunnels[s.draining[q]]
    ensures q in s1.drainingTable && s1.drainingTable[q] == BASE_DRAINING_TABLE + q
  {
    assert Get(s1.draining, q) == Get(s.draining, q);
    assert Get(s1.drainingTable, q) == Get(s.drainingTable, q);
    forall p: nat | Ended(s, had, inputs, p) ensures s.draining[p] != s.draining[q] {}
  }
}
