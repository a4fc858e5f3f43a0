/**
 What a manual switch has to pass: each check and command before the commit is a
 gate, and a switch succeeds only through all of them. The gates are stated on
 addresses, node names and maps.
 */
module Gates {
  import opened Wrappers
  import opened ControlPlane
  import opened Invariant
  import opened Effects
  import opened Theorems
  import opened Runs
  import opened NodeSharing
  import XrayTransaction

  // ---- /24 diversity, on addresses ----

  /** Two IPv4 addresses that differ in the last octet at most. */
  predicate SameNetwork(a: Address, b: Address) {
    a.V4? && b.V4? && a.bits - a.bits % 256 == b.bits - b.bits % 256
  }

  lemma SamePrefix(a: Address, b: Address)
    ensures SameNetwork(a, b) <==> Prefix(a).Some? && Prefix(a) == Prefix(b)
  {
    if a.V4? && b.V4? {
      assert a.bits == 256 * (a.bits / 256) + a.bits % 256 && b.bits == 256 * (b.bits / 256) + b.bits % 256;
    }
  }

  /** An address of one node, or `extra`, is in a network of the other. */
  ghost predicate Neighbours(n: Node, extra: Address, m: Node) {
    exists a, b | a in {n.ip, n.observed, extra} && b in {m.ip, m.observed} :: SameNetwork(a, b)
  }

  lemma ConflictMeans(n: Node, extra: Address, m: Node)
    ensures Conflict(n, extra, m) <==> n.id != m.id && Neighbours(n, extra, m)
  {
    if Neighbours(n, extra, m) {
      var a, b :| a in {n.ip, n.observed, extra} && b in {m.ip, m.observed} && SameNetwork(a, b);
      SamePrefix(a, b);
      assert Prefix(a).value in Prefixes(n, extra) && Prefix(b).value in Prefixes(m, Unusable);
    }
    if !(Prefixes(n, extra) !! Prefixes(m, Unusable)) {
      var p :| p in Prefixes(n, extra) && p in Prefixes(m, Unusable);
      var a :| a in {n.ip, n.observed, extra} && Prefix(a) == Some(p);
      var b :| b in {m.ip, m.observed, Unusable} && Prefix(b) == Some(p);
      SamePrefix(a, b);
      assert Neighbours(n, extra, m);
    }
  }

  /** The tunnel carries another node that has an address next to one of n. */
  ghost predicate TooClose(s: State, n: Node, extra: Address, t: TunnelId) {
    t in s.tunnels && s.tunnels[t].node.id != n.id && Neighbours(n, extra, s.tunnels[t].node)
  }

  /** The node has an address, and none next to another active or standby node, slot `exclude` left out. */
  ghost predicate Apart(s: State, n: Node, extra: Address, exclude: int) {
    && (n.ip.V4? || n.observed.V4? || extra.V4?)
    && (forall q | q in s.active && q != exclude :: !TooClose(s, n, extra, s.active[q]))
    && (forall t | t in s.standby :: !TooClose(s, n, extra, t))
  }

  lemma DiverseMeans(s: State, n: Node, extra: Address, exclude: int)
    ensures Diverse(s, n, extra, exclude) <==> Apart(s, n, extra, exclude)
  {
    AddressMeans(n, extra);
    forall m: Node ensures Conflict(n, extra, m) <==> n.id != m.id && Neighbours(n, extra, m) {
      ConflictMeans(n, extra, m);
    }
    hide Conflict, Neighbours, Prefixes;
    if Diverse(s, n, extra, exclude) {
      forall t | t in s.standby ensures !TooClose(s, n, extra, t) {
        var i :| 0 <= i < |s.standby| && s.standby[i] == t;
      }
    }
    if Apart(s, n, extra, exclude) {
      forall q | q in s.active && q != exclude
        ensures s.active[q] in s.tunnels ==> !Conflict(n, extra, s.tunnels[s.active[q]].node)
      {
        assert !TooClose(s, n, extra, s.active[q]);
      }
      forall i | 0 <= i < |s.standby|
        ensures s.standby[i] in s.tunnels ==> !Conflict(n, extra, s.tunnels[s.standby[i]].node)
      {
        assert !TooClose(s, n, extra, s.standby[i]);
      }
    }
  }

  lemma AddressMeans(n: Node, extra: Address)
    ensures Prefixes(n, extra) != {} <==> n.ip.V4? || n.observed.V4? || extra.V4?
  {
    forall a | a in {n.ip, n.observed, extra} && a.V4? ensures Prefixes(n, extra) != {} {
      assert Prefix(a).value in Prefixes(n, extra);
    }
  }

  // ---- Reservations ----

  /** What a request has to bring, and find. */
  ghost predicate Grantable(s: State, slot: nat, target: Node, eligible: bool) {
    && slot < s.maxActive && slot !in s.override && eligible
    && (forall q | q in s.active :: !SeatedNode(s, q, target.id))
    && Apart(s, target, Unusable, slot)
  }

  lemma ReservableMeans(s: State, slot: nat, target: Node, eligible: bool)
    requires Inv(s)
    ensures Reservable(s, slot, target, eligible) <==> Grantable(s, slot, target, eligible)
  {
    DiverseMeans(s, target, Unusable, slot);
    if slot < s.maxActive && slot !in s.override { FreeController(s, slot); }
    hide Inv, Diverse, Apart;
    if Reservable(s, slot, target, eligible) {
      forall q | q in s.active ensures !SeatedNode(s, q, target.id) {}
    }
    if Grantable(s, slot, target, eligible) {
      forall q | q in s.active ensures s.active[q] in s.tunnels ==> s.tunnels[s.active[q]].node.id != target.id {
        assert !SeatedNode(s, q, target.id);
      }
    }
  }

  lemma FreeController(s: State, q: nat)
    requires Inv(s) && q < s.maxActive && q !in s.override
    ensures q in s.controllers && s.controllers[q].owner == ""
  {
  }

  // ---- The gates of a switch ----

  predicate BeforeCommitting(p: Phase) {
    match p
    case Admission | Preflight | FirstLeaseCheck | Starting | CandidateRouting | Verifying | DiversityCheck
       | SecondLeaseCheck | XrayOn | Cutover => true
    case Committing | Publishing | UndoRoute | UndoXray | StopCandidate
       | ReleasingLease | ReleasingOverride | Finished => false
  }

  function Following(p: Phase): Phase
    requires BeforeCommitting(p)
  {
    match p
    case Admission => Preflight
    case Preflight => FirstLeaseCheck
    case FirstLeaseCheck => Starting
    case Starting => CandidateRouting
    case CandidateRouting => Verifying
    case Verifying => DiversityCheck
    case DiversityCheck => SecondLeaseCheck
    case SecondLeaseCheck => XrayOn
    case XrayOn => Cutover
    case Cutover => Committing
  }

  /** Where a switch goes that does not pass: what it has to put back depends on how far it has come. */
  function Failing(p: Phase): Phase
    requires BeforeCommitting(p)
  {
    match p
    case Admission | Preflight | FirstLeaseCheck | Starting => ReleasingLease
    case CandidateRouting | Verifying | DiversityCheck | SecondLeaseCheck | XrayOn => StopCandidate
    case Cutover => UndoRoute
  }

  /** The part of a gate that is the answer of a check or a command. */
  predicate Answered(p: Phase, e: SwitchInput) {
    match p
    case Admission | Preflight | Starting | Verifying => e.ok
    case CandidateRouting | Cutover => e.route.Done?
    case FirstLeaseCheck | DiversityCheck | SecondLeaseCheck | XrayOn | Committing | Publishing | UndoRoute | UndoXray
       | StopCandidate | ReleasingLease | ReleasingOverride | Finished => true
  }

  /** The part that is found in the state: the node on the slot already, its neighbours, Xray's answer if asked. */
  ghost predicate Admitted(s: State, w: Switch, e: SwitchInput) {
    match w.phase
    case Preflight => !SeatedNode(s, w.slot, w.target.id)
    case DiversityCheck =>
      && w.candidate.Some? && w.candidate.value in s.tunnels
      && Apart(s, s.tunnels[w.candidate.value].node, Unusable, w.slot)
    case XrayOn => s.world.xray.None? || w.slot in s.world.xray.value.memory || e.xray.Applied?
    case Admission | FirstLeaseCheck | Starting | CandidateRouting | Verifying | SecondLeaseCheck | Cutover | Committing
       | Publishing | UndoRoute | UndoXray | StopCandidate | ReleasingLease | ReleasingOverride | Finished => true
  }

  ghost predicate Passes(s: State, w: Switch, e: SwitchInput) {
    Answered(w.phase, e) && Admitted(s, w, e)
  }

  /** The observed address is one of the node's anyway. */
  lemma ObservedIsExtra(s: State, n: Node, exclude: int)
    ensures Apart(s, n, n.observed, exclude) <==> Apart(s, n, Unusable, exclude)
  {
    forall m: Node ensures Neighbours(n, n.observed, m) <==> Neighbours(n, Unusable, m) {
      assert {n.ip, n.observed, n.observed} == {n.ip, n.observed};
      forall a, b ensures SameNetwork(a, b) ==> a != Unusable && b != Unusable {}
    }
    hide Neighbours;
    forall t ensures TooClose(s, n, n.observed, t) <==> TooClose(s, n, Unusable, t) {}
    hide TooClose;
  }

  lemma CandidateDiverseMeans(s: State, w: Switch)
    requires w.candidate.Some? && w.candidate.value in s.tunnels
    ensures CandidateDiverse(s, w) <==> Apart(s, s.tunnels[w.candidate.value].node, Unusable, w.slot)
  {
    var n := s.tunnels[w.candidate.value].node;
    DiverseMeans(s, n, n.observed, w.slot);
    ObservedIsExtra(s, n, w.slot);
    hide Diverse, Apart;
  }

  ghost predicate InPhase(s: State, id: string, p: Phase) {
    id in s.switches && s.switches[id].phase == p
  }

  lemma PhaseSet(s: State, id: string, p: Phase, clear: RouteOutcome)
    requires id in s.switches
    ensures InPhase(Goto(s, id, p), id, p) && InPhase(Reject(s, id), id, ReleasingLease)
    ensures s.switches[id].candidate.Some? ==> InPhase(Abandon(s, id, clear), id, StopCandidate)
  {
    hide Routed;
  }

  lemma EarlyGates(s: State, id: string, e: SwitchInput)
    requires id in s.switches
    ensures s.switches[id].phase.Preflight? ==> InPhase(CheckTarget(s, id, e.ok), id,
        if e.ok && !SeatedNode(s, s.switches[id].slot, s.switches[id].target.id) then FirstLeaseCheck
        else ReleasingLease)
    ensures InPhase(StartCandidate(s, id, e.ok), id, if e.ok then CandidateRouting else ReleasingLease)
  {
  }

  lemma TrialGates(s: State, id: string, t: TunnelId, e: SwitchInput)
    requires Steerable(s, id) && s.switches[id].candidate == Some(t) && t in s.tunnels
    ensures InPhase(RouteCandidate(s, id, t, e.route), id, if e.route.Done? then Verifying else StopCandidate)
    ensures InPhase(Verify(s, id, t, e), id, if e.ok then DiversityCheck else StopCandidate)
    ensures InPhase(CutOver(s, id, t, e), id, if e.route.Done? then Committing else UndoRoute)
  {
    hide Routed;
  }

  lemma XrayGate(s: State, id: string, e: SwitchInput)
    requires id in s.switches && s.switches[id].candidate.Some?
    ensures var w := s.switches[id]; InPhase(SwitchXrayOn(s, id, e), id,
        if s.world.xray.None? || w.slot in s.world.xray.value.memory || e.xray.Applied? then Cutover else StopCandidate)
  {
    hide Routed, XrayActivate;
    ActivationAnswers(s.world, s.switches[id].slot, e.xray);
  }

  /** Every gate before the commit: passed, the switch goes on; not passed, it turns back. */
  lemma NextPhase(s: State, id: string, e: SwitchInput)
    requires Inv(s) && Steerable(s, id) && BeforeCommitting(s.switches[id].phase)
    ensures var w := s.switches[id];
      InPhase(Advance(s, id, e), id, if Passes(s, w, e) then Following(w.phase) else Failing(w.phase))
  {
    hide Inv, Advance, InPhase, Passes;
    if HoldsCandidate(s.switches[id]) { TrialPhase(s, id, e); } else { EarlyPhase(s, id, e); }
  }

  lemma EarlyPhase(s: State, id: string, e: SwitchInput)
    requires Inv(s) && Steerable(s, id) && BeforeCommitting(s.switches[id].phase) && !HoldsCandidate(s.switches[id])
    ensures var w := s.switches[id];
      InPhase(Advance(s, id, e), id, if Passes(s, w, e) then Following(w.phase) else Failing(w.phase))
  {
    var w := s.switches[id];
    EarlyGates(s, id, e);
    PhaseSet(s, id, Following(w.phase), e.clear);
    hide Inv, Goto, Reject, CheckTarget, StartCandidate, Preempted, Apart, InPhase;
    if w.phase.FirstLeaseCheck? { NeverPreempted(s, id); }
  }

  lemma TrialPhase(s: State, id: string, e: SwitchInput)
    requires Inv(s) && Steerable(s, id) && BeforeCommitting(s.switches[id].phase) && HoldsCandidate(s.switches[id])
    ensures var w := s.switches[id];
      InPhase(Advance(s, id, e), id, if Passes(s, w, e) then Following(w.phase) else Failing(w.phase))
  {
    hide Inv, Advance, InPhase, Passes;
    match s.switches[id].phase
    case CandidateRouting => CommandPhase(s, id, e);
    case Verifying => CommandPhase(s, id, e);
    case Cutover => CommandPhase(s, id, e);
    case XrayOn => XrayPhase(s, id, e);
    case DiversityCheck => CheckPhase(s, id, e);
    case SecondLeaseCheck => CheckPhase(s, id, e);
  }

  lemma CommandPhase(s: State, id: string, e: SwitchInput)
    requires Steerable(s, id)
    requires var p := s.switches[id].phase; p.CandidateRouting? || p.Verifying? || p.Cutover?
    ensures var w := s.switches[id];
      InPhase(Advance(s, id, e), id, if Passes(s, w, e) then Following(w.phase) else Failing(w.phase))
  {
    hide RouteCandidate, Verify, CutOver, Apart, InPhase;
    TrialGates(s, id, s.switches[id].candidate.value, e);
  }

  lemma XrayPhase(s: State, id: string, e: SwitchInput)
    requires Steerable(s, id) && s.switches[id].phase.XrayOn?
    ensures InPhase(Advance(s, id, e), id, if Passes(s, s.switches[id], e) then Cutover else StopCandidate)
  {
    hide SwitchXrayOn, Apart, InPhase;
    XrayGate(s, id, e);
  }

  lemma CheckPhase(s: State, id: string, e: SwitchInput)
    requires Inv(s) && Steerable(s, id)
    requires s.switches[id].phase.DiversityCheck? || s.switches[id].phase.SecondLeaseCheck?
    ensures var w := s.switches[id];
      InPhase(Advance(s, id, e), id, if Passes(s, w, e) then Following(w.phase) else Failing(w.phase))
  {
    hide Inv, Goto, Abandon, Preempted, CandidateDiverse, Apart, InPhase;
    if s.switches[id].phase.SecondLeaseCheck? { NeverPreempted(s, id); }
    CandidateDiverseMeans(s, s.switches[id]);
    PhaseSet(s, id, Following(s.switches[id].phase), e.clear);
  }

  lemma ActivationAnswers(w: World, slot: nat, outcome: XrayTransaction.Outcome)
    ensures XrayActivate(w, slot, outcome).1 <==> w.xray.None? || slot in w.xray.value.memory || outcome.Applied?
  {
  }

  /** The last gate: the final /24 check, and room to preserve the tunnel found on the slot. */
  ghost predicate MayCommit(s: State, w: Switch, e: SwitchInput) {
    && w.candidate.Some? && w.candidate.value in s.tunnels
    && Apart(s, s.tunnels[w.candidate.value].node, Unusable, w.slot)
    && (w.slot in s.active ==> w.slot !in s.draining && e.drainRoute.Done?)
  }

  lemma CommitPasses(s: State, id: string, e: SwitchInput)
    requires Inv(s) && Steerable(s, id) && s.switches[id].phase.Committing?
    ensures id in Advance(s, id, e).switches
    ensures Advance(s, id, e).switches[id].verdict.Succeeded? <==> MayCommit(s, s.switches[id], e)
  {
    CommitSucceedsExactly(s, id, e);
    CandidateDiverseMeans(s, s.switches[id]);
    hide Inv, Advance, CandidateDiverse, Apart;
  }

  // ---- Over runs ----

  /** On the way to success, or there. */
  predicate OnCourse(w: Switch) {
    BeforeCommitting(w.phase) || w.phase.Committing? || w.verdict.Succeeded?
  }

  ghost predicate OwnMove(s: State, steps: seq<Step>, id: string, k: nat) {
    k < |steps| && steps[k].Switching? && steps[k].id == id && id in Before(s, steps, k).switches
    && Enabled(Before(s, steps, k), steps[k])
  }

  /** At its k-th step the switch was before a gate, and passed. */
  ghost predicate PassedAt(s: State, steps: seq<Step>, id: string, k: nat)
    requires OwnMove(s, steps, id, k)
  {
    var w := Before(s, steps, k).switches[id];
    && (BeforeCommitting(w.phase) ==> Passes(Before(s, steps, k), w, steps[k].input))
    && (w.phase.Committing? ==> MayCommit(Before(s, steps, k), w, steps[k].input))
  }

  ghost predicate PassedAll(s: State, steps: seq<Step>, id: string, n: nat) {
    forall k: nat | k < n && OwnMove(s, steps, id, k) :: PassedAt(s, steps, id, k)
  }

  /** A switch succeeds only by its commit. */
  lemma SuccessBefore(s: State, id: string, e: SwitchInput)
    requires Inv(s) && Steerable(s, id) && !s.switches[id].phase.Committing?
    ensures var s' := Advance(s, id, e);
      id in s'.switches && (s'.switches[id].verdict.Succeeded? ==> s.switches[id].verdict.Succeeded?)
  {
    hide Advance, Inv;
    AdvanceReach(s, id, e);
  }

  lemma EarlyIsPending(s: State, id: string)
    requires Inv(s) && id in s.switches && BeforeCommitting(s.switches[id].phase)
    ensures s.switches[id].verdict.Pending?
  {
    FitsKnown(s, id);
  }

  /** Once past the commit, or turned back, a switch never comes before a gate again. */
  lemma NoWayBack(s: State, id: string, e: SwitchInput)
    requires Inv(s) && Steerable(s, id)
    requires !BeforeCommitting(s.switches[id].phase)
    ensures var s' := Advance(s, id, e);
      id in s'.switches && !BeforeCommitting(s'.switches[id].phase) && !s'.switches[id].phase.Committing?
  {
    hide Advance, Inv;
    if Unfinished(s.switches[id]) { AdvanceDescends(s, id, e); } else { AdvanceFinished(s, id, e); }
  }

  /** A switch that is on course after its move was so before, and has passed. */
  lemma OnCourseBefore(s: State, id: string, e: SwitchInput)
    requires Inv(s) && Steerable(s, id) && id in Advance(s, id, e).switches && OnCourse(Advance(s, id, e).switches[id])
    ensures OnCourse(s.switches[id])
    ensures BeforeCommitting(s.switches[id].phase) ==> Passes(s, s.switches[id], e)
    ensures s.switches[id].phase.Committing? ==> MayCommit(s, s.switches[id], e)
  {
    hide Inv, Advance, Passes, MayCommit;
    if BeforeCommitting(s.switches[id].phase) {
      OnCoursePasses(s, id, e);
    } else {
      NoWayBack(s, id, e);
      if s.switches[id].phase.Committing? { CommitPasses(s, id, e); } else { SuccessBefore(s, id, e); }
    }
  }

  lemma OnCoursePasses(s: State, id: string, e: SwitchInput)
    requires Inv(s) && Steerable(s, id) && BeforeCommitting(s.switches[id].phase)
    requires id in Advance(s, id, e).switches && OnCourse(Advance(s, id, e).switches[id])
    ensures Passes(s, s.switches[id], e)
  {
    hide Inv, Advance, Passes;
    NextPhase(s, id, e);
    SuccessBefore(s, id, e);
    EarlyIsPending(s, id);
  }

  /** A step of others leaves the record of a switch alone; a new record is before its first gate. */
  lemma StepOnCourse(s: State, step: Step, id: string)
    requires Inv(s) && id in Next(s, step).switches && OnCourse(Next(s, step).switches[id])
    ensures id in s.switches ==> OnCourse(s.switches[id])
    ensures id in s.switches && step.Switching? && step.id == id && Enabled(s, step) ==>
      var w := s.switches[id];
      && (BeforeCommitting(w.phase) ==> Passes(s, w, step.input))
      && (w.phase.Committing? ==> MayCommit(s, w, step.input))
  {
    hide Inv, Apply, Passes, MayCommit, OnCourse;
    if Enabled(s, step) {
      if step.Switching? && step.id == id {
        SwitchingIsAdvance(s, step);
        OnCourseBefore(s, id, step.input);
      } else if id in s.switches {
        RecordKept(s, step, id);
      }
    }
  }

  /** In every run: a switch that has succeeded, or is still on its way there, has passed every gate it came to. */
  lemma {:induction false} SuccessPassedAll(s: State, steps: seq<Step>, id: string, n: nat)
    requires Inv(s) && n <= |steps|
    requires id in Before(s, steps, n).switches && OnCourse(Before(s, steps, n).switches[id])
    ensures PassedAll(s, steps, id, n)
  {
    hide Inv, Next, Run, OnCourse, Passes, MayCommit, Enabled;
    if n > 0 {
      BeforeInv(s, steps, n - 1);
      BeforeNext(s, steps, n - 1);
      var b := Before(s, steps, n - 1);
      StepOnCourse(b, steps[n - 1], id);
      if id in b.switches {
        SuccessPassedAll(s, steps, id, n - 1);
      } else {
        forall k: nat | k < n - 1 ensures !OwnMove(s, steps, id, k) { NotYet(s, steps, id, k, n - 1); }
      }
    }
  }

  /** Records of switches stay: one that is not there now was never there. */
  lemma {:induction false} NotYet(s: State, steps: seq<Step>, id: string, k: nat, n: nat)
    requires Inv(s) && k <= n <= |steps| && id !in Before(s, steps, n).switches
    ensures id !in Before(s, steps, k).switches
    decreases n
  {
    hide Inv, Next, Run;
    if k < n {
      BeforeInv(s, steps, n - 1);
      BeforeNext(s, steps, n - 1);
      if id in Before(s, steps, n - 1).switches { RecordStays(Before(s, steps, n - 1), steps[n - 1], id); }
      NotYet(s, steps, id, k, n - 1);
    }
  }

  lemma RecordStays(s: State, step: Step, id: string)
    requires Inv(s) && id in s.switches
    ensures id in Next(s, step).switches
  {
    hide Inv, Apply, Enabled;
    MoveOrKeep(s, step, id);
  }
}
