/**
 Accounts of tunnel objects: none is lost but in one way, and in a run without that
 every tunnel ever started is held in one place or has been stopped.
 */
module Accounts {
  import opened Wrappers
  import opened ControlPlane
  import opened Invariant
  import opened Effects
  import opened Theorems
  import opened Runs

  // ---- Tunnels ----

  ghost predicate IsLost(s: State, t: TunnelId) {
    t in s.tunnels && s.tunnels[t].place.Lost?
  }

  /** The health check of a slot goes as far as moving its tunnel to the draining map. */
  ghost predicate DrainsByHealth(s: State, step: Step) {
    && step.HealthCheck? && step.slot in s.active && s.active[step.slot] in s.tunnels
    && !(s.tunnels[s.active[step.slot]].state == Up && step.healthy)
    && !XrayRefuses(s, step.slot, step.drain) && !ProcessGone(s, s.active[step.slot]) && step.drain.route.Done?
  }

  lemma HealthCheckLoses(s: State, q: nat, healthy: bool, e: DrainInput, t: TunnelId)
    requires Inv(s) && Enabled(s, HealthCheck(q, healthy, e)) && t in s.tunnels && !IsLost(s, t)
    ensures IsLost(Apply(s, HealthCheck(q, healthy, e)), t) <==>
              DrainsByHealth(s, HealthCheck(q, healthy, e)) && q in s.draining && s.draining[q] == t
  {
    hide Inv, TransitionToDraining, XrayRefuses, ProcessGone;
    DrainingApart(s, q);
    var a := s.active[q];
    if !(s.tunnels[a].state == Up && healthy) {
      if XrayRefuses(s, q, e) {
        RefusedDrain(s, q, a, e);
      } else if ProcessGone(s, a) {
        RetiredDrain(s, q, a, e);
      } else if e.route.Failed? {
        RestoredDrain(s, q, a, e);
      } else {
        CompletedDrain(s, q, a, e);
      }
    }
  }

  lemma SameTunnelsLoseNothing(s: State, s': State)
    requires s'.tunnels == s.tunnels
    ensures NothingLost(s.tunnels, s'.tunnels)
  {
  }

  lemma CommitLosesNothing(s: State, id: string, e: SwitchInput)
    requires Inv(s) && Steerable(s, id) && s.switches[id].phase.Committing?
    ensures NothingLost(s.tunnels, Commit(s, id, s.switches[id].candidate.value, e).tunnels)
  {
    hide Commit, PlacesTold, PrefixesDistinct, SwitchesFit, OverridesOwned;
    FitsKnown(s, id);
    if s.switches[id].slot in s.active {
      ActiveKnown(s, s.switches[id].slot);
    }
    CommitReplaces(s, id, e);
    CommitKeepsTrial(s, id, e);
  }

  lemma AdvanceLosesNothing(s: State, id: string, e: SwitchInput)
    requires Inv(s) && Steerable(s, id)
    ensures NothingLost(s.tunnels, Advance(s, id, e).tunnels)
  {
    hide Inv, Advance, Commit, NothingLost;
    if s.switches[id].phase.Committing? {
      AdvanceIsCommit(s, id, e);
      CommitLosesNothing(s, id, e);
    } else {
      AdvanceReach(s, id, e);
    }
  }

  lemma StandbyLosesNothing(s: State, step: Step)
    requires Inv(s) && Enabled(s, step) && (step.StartStandby? || step.DropStandby? || step.CommitStandby?)
    ensures NothingLost(s.tunnels, Apply(s, step).tunnels)
  {
    hide Apply;
    StandbyReach(s, step);
  }

  lemma TunnelEventLosesNothing(s: State, t: TunnelId)
    requires t in s.tunnels
    ensures NothingLost(s.tunnels, Apply(s, TunnelFails(t)).tunnels) &&
        NothingLost(s.tunnels, Apply(s, TunnelExits(t)).tunnels)
  {
  }

  lemma OthersLoseNothing(s: State, step: Step)
    requires Inv(s) && Enabled(s, step) && !step.HealthCheck?
    ensures NothingLost(s.tunnels, Apply(s, step).tunnels)
  {
    hide Inv, Advance, Promote, CleanupSlot, Reserve, FireWorker, Enqueue, HireWorker, LiveSlots, NothingLost;
    match step
    case Fill(p, e) => HeadKnown(s); PromoteReach(s, p, e);
    case Cleanup(p, e) => CleanupKnown(s, p); CleanupReach(s, p, e);
    case StartStandby(_, _, _) => StandbyLosesNothing(s, step);
    case DropStandby(_) => StandbyLosesNothing(s, step);
    case CommitStandby(_, _) => StandbyLosesNothing(s, step);
    case Request(id, p, target, eligible) =>
      ReserveReach(s, id, p, target, eligible); SameTunnelsLoseNothing(s, Apply(s, step));
    case Switching(id, e) => AdvanceLosesNothing(s, id, e);
    case TunnelFails(t) => TunnelEventLosesNothing(s, t);
    case TunnelExits(t) => TunnelEventLosesNothing(s, t);
    case XrayCrashes => SameTunnelsLoseNothing(s, Apply(s, step));
    case Synchronise(_) => SameTunnelsLoseNothing(s, Apply(s, step));
  }

  /**
   A tunnel object slips out of every map without being stopped in one way only: it was draining, and the health
   check of its successor on the same slot completes a drain that overwrites it.
   */
  lemma LostExactlyByOverwrite(s: State, step: Step, t: TunnelId)
    requires Inv(s) && Enabled(s, step) && t in s.tunnels && !IsLost(s, t)
    ensures IsLost(Apply(s, step), t) <==>
              DrainsByHealth(s, step) && step.slot in s.draining && s.draining[step.slot] == t
  {
    hide Inv, Apply;
    if step.HealthCheck? {
      HealthCheckLoses(s, step.slot, step.healthy, step.drain, t);
    } else {
      OthersLoseNothing(s, step);
    }
  }

  ghost predicate OverwritesAt(s: State, steps: seq<Step>, k: nat) {
    && k < |steps| && Enabled(Before(s, steps, k), steps[k]) && DrainsByHealth(Before(s, steps, k), steps[k])
    && steps[k].slot in Before(s, steps, k).draining
  }

  /** Where the invariant says a tunnel is: in exactly one holder, or stopped. */
  ghost predicate Accounted(s: State, t: TunnelId) {
    t in s.tunnels && (s.tunnels[t].place.Stopped? ||
        (exists p :: Holder(p) && Found(s, t, p) && forall r | Holder(r) && Found(s, t, r) :: r == p))
  }

  lemma NotLostIsAccounted(s: State, t: TunnelId)
    requires Inv(s) && t in s.tunnels && !IsLost(s, t)
    ensures Accounted(s, t)
  {
    var p := s.tunnels[t].place;
    if Holder(p) {
      assert At(s, t, p);
      assert Found(s, t, p);
      forall r | Holder(r) && Found(s, t, r) ensures r == p { assert At(s, t, r); }
    }
  }

  /** No tunnel is lost by a run in which no drain finds its slot still draining. */
  lemma {:induction false} NothingLostInRun(s: State, steps: seq<Step>, n: nat)
    requires Inv(s) && n <= |steps| && (forall t | t in s.tunnels :: !IsLost(s, t))
    requires forall k: nat | k < n :: !OverwritesAt(s, steps, k)
    ensures forall t | t in Before(s, steps, n).tunnels :: !IsLost(Before(s, steps, n), t)
  {
    hide Inv, Run, Apply, Enabled, DrainsByHealth;
    if n == 0 {
      RunNothing(s, steps);
    } else {
      NothingLostInRun(s, steps, n - 1);
      BeforeInv(s, steps, n - 1);
      BeforeNext(s, steps, n - 1);
      var b := Before(s, steps, n - 1);
      if Enabled(b, steps[n - 1]) {
        assert !OverwritesAt(s, steps, n - 1);
        var b' := Apply(b, steps[n - 1]);
        forall t | t in b'.tunnels ensures !IsLost(b', t) {
          if t in b.tunnels { LostExactlyByOverwrite(b, steps[n - 1], t); }
              else { NewcomersAreHeld(b, steps[n - 1], t); }
        }
      }
    }
  }

  lemma NewcomersAreHeld(s: State, step: Step, t: TunnelId)
    requires Inv(s) && Enabled(s, step) && t in Apply(s, step).tunnels && t !in s.tunnels
    ensures !IsLost(Apply(s, step), t)
  {
    hide Inv, Apply;
    if step.HealthCheck? {
      HealthCheckHires(s, step.slot, step.healthy, step.drain, t);
    } else {
      OthersLoseNothing(s, step);
    }
  }

  lemma HealthCheckHires(s: State, q: nat, healthy: bool, e: DrainInput, t: TunnelId)
    requires Inv(s) && Enabled(s, HealthCheck(q, healthy, e)) && t !in s.tunnels
    ensures !IsLost(Apply(s, HealthCheck(q, healthy, e)), t)
  {
    hide Inv, TransitionToDraining;
    DrainingApart(s, q);
    DrainReach(s, q, s.active[q], e);
  }

  /**
   So in such a run every tunnel ever started is in one place that the scheduler or a switch can reach, or
   stopped.
   */
  lemma EveryTunnelAccounted(s: State, steps: seq<Step>, t: TunnelId)
    requires Inv(s) && (forall u | u in s.tunnels :: !IsLost(s, u))
    requires forall k: nat | k < |steps| :: !OverwritesAt(s, steps, k)
    requires t in Run(s, steps).tunnels
    ensures Accounted(Run(s, steps), t)
  {
    hide Inv, Run, OverwritesAt;
    assert steps[..|steps|] == steps;
    NothingLostInRun(s, steps, |steps|);
    BeforeInv(s, steps, |steps|);
    NotLostIsAccounted(Run(s, steps), t);
  }
}
