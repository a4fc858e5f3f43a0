/**
 What the invariant means for runs: where tunnels can be, what a manual switch
 does to its slot, and what other actors may do to a slot that a switch owns.
 */
module Theorems {
  import opened Wrappers
  import opened ControlPlane
  import opened Invariant
  import opened Effects
  import Leases
  import XrayTransaction

  // ---- Every reachable state ----

  lemma ReachableInv(maxActive: nat, maxStandby: nat, xray: Option<XrayTransaction.Xray>, steps: seq<Step>)
    ensures Inv(Run(Initial(maxActive, maxStandby, xray), steps))
  {
    hide Inv, Initial;
    InitialInv(maxActive, maxStandby, xray);
    RunInv(Initial(maxActive, maxStandby, xray), steps);
  }

  /** No tunnel object is held twice: not by two maps, not by two slots, not twice in the queue. */
  ghost predicate HeldOnce(s: State) {
    && (forall p, q | p in s.active && q in s.active && p != q :: s.active[p] != s.active[q])
    && (forall p, q | p in s.draining && q in s.draining && p != q :: s.draining[p] != s.draining[q])
    && (forall i, j | 0 <= i < j < |s.standby| :: s.standby[i] != s.standby[j])
    && (forall p, q | p in s.active && q in s.draining :: s.active[p] != s.draining[q])
    && (forall p | p in s.active :: s.active[p] !in s.standby)
    && (forall q | q in s.draining :: s.draining[q] !in s.standby)
  }

  /** Tunnels that take new connections, or will after promotion, share no /24 unless they carry the same node. */
  ghost predicate ExitsApart(s: State) {
    forall t, u | Serving(s, t) && Serving(s, u) ::
      t in s.tunnels && u in s.tunnels && !Clash(s.tunnels[t].node, s.tunnels[u].node)
  }

  ghost predicate Serving(s: State, t: TunnelId) {
    t in s.active.Values || t in s.standby
  }

  lemma InvMeansHeldOnce(s: State)
    requires Inv(s)
    ensures HeldOnce(s)
  {
    forall p | p in s.active ensures At(s, s.active[p], InSlot(p)) { ActiveKnown(s, p); }
    forall q | q in s.draining ensures At(s, s.draining[q], InDraining(q)) { DrainingKnown(s, q); }
    forall t | t in s.standby ensures At(s, t, InStandby) { assert Found(s, t, InStandby); }
  }

  lemma InvMeansExitsApart(s: State)
    requires Inv(s)
    ensures ExitsApart(s)
  {
    forall t | Serving(s, t) ensures t in s.tunnels && Exposed(s.tunnels[t]) {
      if t in s.standby {
        assert Found(s, t, InStandby);
      } else {
        var p :| p in s.active && s.active[p] == t;
        ActiveKnown(s, p);
      }
    }
  }

  // ---- A manual switch is all or nothing ----

  /** The commit took effect: the candidate has the slot, and the tunnel it found there, if any, is the one draining. */
  ghost predicate TookOver(s: State, s': State, id: string) {
    && id in s.switches && s.switches[id].candidate.Some?
    && var w := s.switches[id];
       && s'.active == s.active[w.slot := w.candidate.value]
       && (w.slot in s.active ==>
             w.slot !in s.draining && s'.draining == s.draining[w.slot := s.active[w.slot]]
             && At(s', s.active[w.slot], InDraining(w.slot)))
       && (w.slot !in s.active ==> s'.draining == s.draining)
       && w.current == Get(s.active, w.slot)
  }

  ghost predicate MapsKept(s: State, s': State) {
    s'.active == s.active && s'.draining == s.draining
  }

  lemma CommitTakesOverOrNot(s: State, id: string, e: SwitchInput)
    requires Inv(s) && Steerable(s, id) && s.switches[id].phase.Committing?
    ensures var s' := Commit(s, id, s.switches[id].candidate.value, e);
      && id in s'.switches
      && (if s'.switches[id].verdict.Succeeded? then
            TookOver(s, s', id)
          else
            MapsKept(s, s') && s'.switches[id].verdict.Pending?)
  {
    hide Commit, SwitchesFit, OverridesOwned, PlacesTold, PrefixesDistinct;
    FitsKnown(s, id);
    if s.switches[id].slot in s.active {
      ActiveKnown(s, s.switches[id].slot);
    }
    CommitReplaces(s, id, e);
    CommitKeepsTrial(s, id, e);
  }

  lemma ReleasesKeepVerdict(s: State, id: string)
    requires id in s.switches
    ensures var p := Publish(s, id); id in p.switches && p.switches[id].verdict == s.switches[id].verdict
    ensures var l := ReleaseLease(s, id); id in l.switches && l.switches[id].verdict == s.switches[id].verdict
    ensures var o := ReleaseOverride(s, id); id in o.switches && o.switches[id].verdict == s.switches[id].verdict
  {
    hide Leases.Release, WithController;
    TellingKeepsSwitches(s, s.switches[id].slot);
  }

  lemma TellingKeepsSwitches(s: State, q: nat)
    ensures forall c :: WithController(s, q, c).switches == s.switches
  {
  }

  lemma EndKeepsVerdict(s: State, id: string, e: SwitchInput)
    requires Steerable(s, id) && !HoldsCandidate(s.switches[id]) && !s.switches[id].verdict.Pending?
    requires SwitchFits(s, id, s.switches[id])
    ensures var s' := Advance(s, id, e); id in s'.switches && s'.switches[id].verdict == s.switches[id].verdict
  {
    hide Commit, CheckTarget, StartCandidate, Verify, RouteCandidate, CutOver, SwitchXrayOn, RestoreRoute, Abandon,
         CandidateDiverse, Preempted, XrayDrain, Leases.Release, Agrees, Publish, ReleaseLease,
             ReleaseOverride, Goto, Reject,
         Stop;
    ReleasesKeepVerdict(s, id);
  }

  /** One step of a switch: a takeover, or nothing on the maps; a verdict once reached is final. */
  lemma SwitchStep(s: State, id: string, e: SwitchInput)
    requires Inv(s) && Steerable(s, id)
    ensures var s' := Advance(s, id, e);
      && id in s'.switches
      && (s'.switches[id].verdict.Succeeded? && s.switches[id].verdict.Pending? ==> TookOver(s, s', id))
      && (!(s'.switches[id].verdict.Succeeded? && s.switches[id].verdict.Pending?) ==> MapsKept(s, s'))
      && (!s.switches[id].verdict.Pending? ==> s'.switches[id].verdict == s.switches[id].verdict)
  {
    FitsKnown(s, id);
    hide Advance, Inv;
    if s.switches[id].phase.Committing? {
      CommitTakesOverOrNot(s, id, e);
      AdvanceIsCommit(s, id, e);
    } else {
      AdvanceReach(s, id, e);
      if !s.switches[id].verdict.Pending? {
        EndKeepsVerdict(s, id, e);
      }
    }
  }

  lemma AdvanceIsCommit(s: State, id: string, e: SwitchInput)
    requires Steerable(s, id) && s.switches[id].phase.Committing?
    ensures Advance(s, id, e) == Commit(s, id, s.switches[id].candidate.value, e)
  {
    hide Commit;
  }

  // ---- What other actors may do meanwhile ----

  ghost predicate ByOthers(step: Step, id: string) {
    step.Switching? ==> step.id != id
  }

  /**
   The only foreign step that writes the table of a switched slot: the slot is empty and its last tunnel's drain
   times out.
   */
  ghost predicate ClosesEmptySlot(s: State, step: Step, q: nat) {
    step.Cleanup? && step.slot == q && q !in s.active && q in s.draining && s.draining[q] in s.tunnels
    && TimedOut(s.tunnels[s.draining[q]], step.cleanup.now)
  }

  ghost predicate SlotKept(s: State, s': State, q: nat) {
    && Get(s'.active, q) == Get(s.active, q)
    && (q in s.override ==> q in s'.override)
    && (q in s.controllers ==> q in s'.controllers && SameAuthority(s.controllers[q], s'.controllers[q]))
    && (q in s'.draining ==> q in s.draining && s'.draining[q] == s.draining[q])
  }

  lemma HealthCheckElsewhere(s: State, p: nat, healthy: bool, e: DrainInput, q: nat)
    requires Inv(s) && Enabled(s, HealthCheck(p, healthy, e)) && p != q && s.maxActive <= 100 && q < s.maxActive
    ensures var s' := Apply(s, HealthCheck(p, healthy, e));
      && s'.switches == s.switches && SlotKept(s, s', q)
      && TableOf(s'.world, BASE_TABLE + q) == TableOf(s.world, BASE_TABLE + q)
  {
    ActiveKnown(s, p);
    if p in s.draining {
      DrainingKnown(s, p);
    }
    hide Inv, TransitionToDraining;
    DrainReach(s, p, s.active[p], e);
  }

  lemma FillElsewhere(s: State, p: nat, e: PromoteInput, q: nat)
    requires Inv(s) && Enabled(s, Fill(p, e)) && p != q && q < s.maxActive
    ensures var s' := Apply(s, Fill(p, e));
      && s'.switches == s.switches && SlotKept(s, s', q)
      && TableOf(s'.world, BASE_TABLE + q) == TableOf(s.world, BASE_TABLE + q)
  {
    StandbyKnown(s, 0);
    hide Inv, Promote;
    PromoteReach(s, p, e);
  }

  lemma CleanupAnywhere(s: State, p: nat, e: CleanupInput, q: nat)
    requires Inv(s) && Enabled(s, Cleanup(p, e)) && s.maxActive <= 100 && q < s.maxActive
    ensures var s' := Apply(s, Cleanup(p, e));
      && s'.switches == s.switches && SlotKept(s, s', q)
      && (!ClosesEmptySlot(s, Cleanup(p, e), q) ==>
          TableOf(s'.world, BASE_TABLE + q) == TableOf(s.world, BASE_TABLE + q))
  {
    hide Inv, CleanupSlot, TableOf;
    CleanupKnown(s, p);
    CleanupReach(s, p, e);
  }

  lemma CleanupKnown(s: State, p: nat)
    requires Inv(s) && p in s.draining
    ensures At(s, s.draining[p], InDraining(p)) && p < s.maxActive
    ensures p in s.drainingTable && s.drainingTable[p] == BASE_DRAINING_TABLE + p
  {
    DrainingKnown(s, p);
  }

  lemma StandbyElsewhere(s: State, step: Step, q: nat)
    requires Inv(s) && Enabled(s, step) && (step.StartStandby? || step.DropStandby? || step.CommitStandby?) &&
        q < s.maxActive
    ensures var s' := Apply(s, step);
      && s'.switches == s.switches && SlotKept(s, s', q)
      && TableOf(s'.world, BASE_TABLE + q) == TableOf(s.world, BASE_TABLE + q)
  {
    hide Apply;
    StandbyReach(s, step);
  }

  lemma RequestElsewhere(s: State, id: string, p: nat, target: Node, eligible: bool, q: nat)
    requires p != q || q in s.override
    ensures var s' := Reserve(s, id, p, target, eligible);
      && (s' == s || (p != q && id in s'.switches && s'.switches == s.switches[id := s'.switches[id]]
                      && s'.switches[id].slot == p && s'.switches[id].phase.Admission?))
      && SlotKept(s, s', q) && s'.world == s.world
  {
    ReserveReach(s, id, p, target, eligible);
    hide Diverse, SlotKept, SlotsConfined;
    if Reservable(s, p, target, eligible) {
      ConfinedKeeps(s, Reserve(s, id, p, target, eligible), p, q);
    } else {
      KeptAsIs(s, q);
    }
  }

  lemma ConfinedKeeps(s: State, s': State, p: nat, q: nat)
    requires SlotsConfined(s, s', p) && p != q
    ensures SlotKept(s, s', q)
  {
  }

  lemma KeptAsIs(s: State, q: nat)
    ensures SlotKept(s, s, q)
  {
  }

  lemma AdvanceFinished(s: State, id: string, e: SwitchInput)
    requires Steerable(s, id) && s.switches[id].phase.Finished?
    ensures Advance(s, id, e) == s
  {
    hide Commit;
  }

  lemma CommittedElsewhere(s: State, s': State, id: string, p: nat, t: TunnelId, q: nat)
    requires Committed(s, s', id, p, t) && p != q
    ensures SlotKept(s, s', q)
  {
  }

  lemma CommitElsewhere(s: State, id: string, e: SwitchInput, q: nat)
    requires Inv(s) && Steerable(s, id) && s.switches[id].phase.Committing? && q != s.switches[id].slot
    ensures var s' := Commit(s, id, s.switches[id].candidate.value, e);
      && id in s'.switches && s'.switches == s.switches[id := s'.switches[id]] &&
          s'.switches[id].slot == s.switches[id].slot
      && SlotKept(s, s', q)
  {
    hide Commit, Committed, Inv, CandidateDiverse;
    FitsKnown(s, id);
    if s.switches[id].slot in s.active {
      assert At(s, s.active[s.switches[id].slot], InSlot(s.switches[id].slot)) by {
        InvPlaces(s);
        ActiveKnown(s, s.switches[id].slot);
      }
    }
    var s' := Commit(s, id, s.switches[id].candidate.value, e);
    CommitReplaces(s, id, e);
    CommitKeepsTrial(s, id, e);
    if s'.switches[id].verdict.Succeeded? {
      CommittedElsewhere(s, s', id, s.switches[id].slot, s.switches[id].candidate.value, q);
      CommittedSwitchesOnly(s, s', id, s.switches[id].slot, s.switches[id].candidate.value);
    }
  }

  lemma HeadKnown(s: State)
    requires Inv(s) && |s.standby| > 0
    ensures At(s, s.standby[0], InStandby)
  {
    StandbyKnown(s, 0);
  }

  lemma InvPlaces(s: State)
    requires Inv(s)
    ensures PlacesTold(s) && SlotsInRange(s) && DrainingRecorded(s)
  {
  }

  lemma CommittedSwitchesOnly(s: State, s': State, id: string, q: nat, t: TunnelId)
    requires Committed(s, s', id, q, t)
    ensures id in s'.switches && s'.switches == s.switches[id := s'.switches[id]] &&
        s'.switches[id].slot == s.switches[id].slot
  {
  }

  lemma CommitTableElsewhere(s: State, id: string, e: SwitchInput, q: nat)
    requires Inv(s) && Steerable(s, id) && s.switches[id].phase.Committing?
    requires q != s.switches[id].slot && q < 100
    ensures TableOf(Commit(s, id, s.switches[id].candidate.value, e).world, BASE_TABLE + q) ==
        TableOf(s.world, BASE_TABLE + q)
  {
    hide Commit, Inv, TableOf;
    FitsKnown(s, id);
    CommitTables(s, id, s.switches[id].candidate.value, e);
  }

  lemma AdvanceElsewhere(s: State, id: string, e: SwitchInput, q: nat)
    requires Inv(s) && Steerable(s, id) && q != s.switches[id].slot && q < s.maxActive <= 100
    ensures var s' := Advance(s, id, e);
      && id in s'.switches && s'.switches == s.switches[id := s'.switches[id]] && SlotKept(s, s', q)
      && TableOf(s'.world, BASE_TABLE + q) == TableOf(s.world, BASE_TABLE + q)
  {
    hide Advance, Inv, TableOf, Commit;
    if s.switches[id].phase.Committing? {
      AdvanceIsCommit(s, id, e);
      CommitElsewhere(s, id, e, q);
      CommitTableElsewhere(s, id, e, q);
    } else {
      AdvanceReach(s, id, e);
      CandidateNumber(s, id);
    }
  }

  lemma CandidateNumber(s: State, id: string)
    requires Inv(s) && id in s.switches
    ensures CandidateTable(s, id) > BASE_TABLE + s.maxActive
  {
    FitsKnown(s, id);
  }
}
