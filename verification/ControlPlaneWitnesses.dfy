/**
 Runs from the initial state that show four things the code does not guarantee: a
 draining tunnel can be lost, a slot can end up active with a closed table, or
 active and unknown to Xray, and one node can end up on two slots. On the way: a
 switch onto an empty slot whose every command succeeds does reach its commit.
 */
module Witnesses {
  import opened Wrappers
  import opened ControlPlane
  import opened Invariant
  import opened Effects
  import opened Theorems
  import opened Runs
  import opened Routes
  import opened Accounts
  import opened NodeSharing
  import opened Gates
  import Projection = XrayProjection
  import Leases
  import XrayTransaction

  // ---- Concatenated runs ----

  lemma RunOne(s: State, a: Step)
    ensures Run(s, [a]) == Next(s, a)
  {
    hide Next;
    assert [a][..0] == [];
  }

  lemma RunCons(s: State, a: Step, b: seq<Step>)
    ensures Run(s, [a] + b) == Run(Next(s, a), b)
  {
    hide Next, Run;
    RunConcat(s, [a], b);
    RunOne(s, a);
  }

  // ---- A switch all of whose inputs are good ----

  predicate Good(e: SwitchInput) {
    e.ok && e.route.Done? && e.clear.Done? && e.xray.Applied? && e.drainRoute.Done?
  }

  /** One good move: the next phase, and no tunnel but the candidate touched. */
  ghost predicate GoesWell(s: State, s': State, id: string, e: SwitchInput) {
    && id in s.switches && id in s'.switches && BeforeCommitting(s.switches[id].phase)
    && s'.switches[id].phase == Following(s.switches[id].phase) && s'.switches[id].target == s.switches[id].target
    && (if s.switches[id].phase.Starting? then
          s'.switches[id].candidate.Some? && s'.switches[id].candidate.value !in s.tunnels
          && s'.switches[id].candidate.value in s'.tunnels
          && s'.tunnels[s'.switches[id].candidate.value].node == s.switches[id].target
        else
          s'.switches[id].candidate == s.switches[id].candidate)
    && (forall t | t in s.tunnels && Some(t) != s'.switches[id].candidate ::
        t in s'.tunnels && s'.tunnels[t] == s.tunnels[t])
    && (HoldsCandidate(s.switches[id]) && s.switches[id].candidate.Some? &&
        s.switches[id].candidate.value in s.tunnels ==>
          var t := s.switches[id].candidate.value;
          && t in s'.tunnels && s'.tunnels[t].node.id == s.tunnels[t].node.id
          && s'.tunnels[t].node.observed == if s.switches[id].phase.Verifying? then e.observed
              else s.tunnels[t].node.observed)
  }

  lemma EarlyMoveGoesWell(s: State, id: string, e: SwitchInput)
    requires Steerable(s, id) && Good(e) && s.switches[id].slot !in s.active && !Preempted(s, s.switches[id])
    ensures s.switches[id].phase.Admission? ==> GoesWell(s, Goto(s, id, Preflight), id, e)
    ensures s.switches[id].phase.Preflight? ==> GoesWell(s, CheckTarget(s, id, true), id, e)
    ensures s.switches[id].phase.FirstLeaseCheck? ==> GoesWell(s, Goto(s, id, Starting), id, e)
  {
    hide Preempted;
  }

  lemma StartGoesWell(s: State, id: string, e: SwitchInput)
    requires id in s.switches && s.switches[id].phase.Starting? && s.counter + 1 !in s.tunnels
    ensures GoesWell(s, StartCandidate(s, id, true), id, e)
  {
  }

  lemma TrialGoesWell(s: State, id: string, world: World, e: SwitchInput)
    requires Steerable(s, id) && HoldsCandidate(s.switches[id]) && BeforeCommitting(s.switches[id].phase)
    requires !s.switches[id].phase.Verifying?
    ensures GoesWell(s, Goto(s.(world := world), id, Following(s.switches[id].phase)), id, e)
  {
  }

  lemma VerifyGoesWell(s: State, id: string, e: SwitchInput)
    requires Steerable(s, id) && s.switches[id].phase.Verifying? && e.ok
    ensures GoesWell(s, Verify(s, id, s.switches[id].candidate.value, e), id, e)
  {
    hide Abandon;
  }

  lemma CutoverGoesWell(s: State, id: string, e: SwitchInput)
    requires Steerable(s, id) && s.switches[id].phase.Cutover? && Good(e)
    ensures GoesWell(s, CutOver(s, id, s.switches[id].candidate.value, e), id, e)
  {
    hide SetupSlot, Routed;
  }

  /** A switch onto an empty slot is never held up while its inputs are good and its candidate is diverse. */
  lemma GoodMove(s: State, id: string, e: SwitchInput)
    requires Inv(s) && Steerable(s, id) && BeforeCommitting(s.switches[id].phase) && Good(e)
    requires s.switches[id].slot !in s.active
    requires s.switches[id].phase.DiversityCheck? ==> CandidateDiverse(s, s.switches[id])
    ensures GoesWell(s, Advance(s, id, e), id, e)
  {
    NeverPreempted(s, id);
    NextNumberFree(s);
    hide Inv, Goto, CheckTarget, StartCandidate, Verify, CutOver, Commit, RestoreRoute, Publish, ReleaseLease,
         ReleaseOverride, Stop, Preempted, CandidateDiverse, Abandon, XrayDrain, GoesWell, Routed, XrayActivate;
    assert s.(world := s.world) == s;
    match s.switches[id].phase
    case Admission => EarlyMoveGoesWell(s, id, e);
    case Preflight => EarlyMoveGoesWell(s, id, e);
    case FirstLeaseCheck => EarlyMoveGoesWell(s, id, e);
    case Starting => StartGoesWell(s, id, e);
    case CandidateRouting => TrialGoesWell(s, id, Advance(s, id, e).world, e); RouteIsGoto(s, id, e);
    case Verifying => VerifyGoesWell(s, id, e);
    case DiversityCheck => TrialGoesWell(s, id, s.world, e);
    case SecondLeaseCheck => TrialGoesWell(s, id, s.world, e);
    case XrayOn =>
      ActivationSucceeds(s, id, e);
      TrialGoesWell(s, id, XrayActivate(s.world, s.switches[id].slot, e.xray).0, e);
    case Cutover => CutoverGoesWell(s, id, e);
  }

  lemma RouteIsGoto(s: State, id: string, e: SwitchInput)
    requires Steerable(s, id) && s.switches[id].phase.CandidateRouting? && Good(e)
    ensures var s' := RouteCandidate(s, id, s.switches[id].candidate.value, e.route);
        s' == Goto(s.(world := s'.world), id, Verifying)
  {
    hide Routed;
  }

  lemma ActivationSucceeds(s: State, id: string, e: SwitchInput)
    requires Steerable(s, id) && Good(e)
    ensures XrayActivate(s.world, s.switches[id].slot, e.xray).1
  {
  }

  // ---- One slot, one standby, no Xray ----

  ghost predicate Idle(s: State) {
    && Inv(s) && s.maxActive > 0 && s.maxStandby == 1 && s.standby == [] && s.worker.None? && s.override == {}
    && s.switches == map[] && s.world.xray.None?
  }

  const FILL := PromoteInput(Done, XrayTransaction.Applied, Done)
  const DRAIN := DrainInput(XrayTransaction.Applied, XrayTransaction.Applied, Done, Done, "10.8.0.2", 0)

  function Refill(node: Node): seq<Step> {
    [StartStandby(node, true, Done)] + ([CommitStandby(Unusable, Done)] + [Fill(0, FILL)])
  }

  ghost predicate Refilled(s: State, s': State, n: TunnelId) {
    && Idle(s') && s'.active == map[0 := n] && s'.draining == s.draining
    && n in s'.tunnels && s'.tunnels[n].state == Up && !s'.tunnels[n].exited
    && forall t | t in s.tunnels :: t != n && t in s'.tunnels && s'.tunnels[t] == s.tunnels[t]
  }

  /** The newcomer is with the worker, then queued. */
  ghost predicate Coming(s: State, s': State, n: TunnelId, node: Node) {
    && Inv(s') && s'.maxActive == s.maxActive > 0 && s'.maxStandby == 1 && s'.override == {} && s'.switches == map[]
    && s'.world.xray.None?
    && s'.active == s.active && s'.draining == s.draining
    && n in s'.tunnels && s'.tunnels[n].state == Up && !s'.tunnels[n].exited && s'.tunnels[n].node == node
    && forall t | t in s.tunnels :: t != n && t in s'.tunnels && s'.tunnels[t] == s.tunnels[t]
  }

  lemma Started(s: State, node: Node)
    requires Idle(s)
    ensures var s' := Next(s, StartStandby(node, true, Done));
      Coming(s, s', s.counter + 1, node) && s'.worker == Some(s.counter + 1) && s'.standby == []
  {
    StepInv(s, StartStandby(node, true, Done));
  }

  lemma Queued(s: State, s1: State, n: TunnelId, node: Node)
    requires Coming(s, s1, n, node) && s1.worker == Some(n) && s1.standby == [] && s.active == map[] && node.ip.V4? &&
        node.observed == Unusable
    ensures var s' := Next(s1, CommitStandby(Unusable, Done));
      Coming(s, s', n, node) && s'.worker == None && s'.standby == [n]
  {
    assert Prefix(node.ip).value in Prefixes(node, Unusable);
    assert Diverse(s1, node, Unusable, -1);
    assert node.(observed := Unusable) == node;
    StepInv(s1, CommitStandby(Unusable, Done));
    hide Inv, Diverse;
  }

  lemma Seated(s: State, s1: State, n: TunnelId, node: Node)
    requires Coming(s, s1, n, node) && s1.worker == None && s1.standby == [n] && s.active == map[]
    ensures Refilled(s, Next(s1, Fill(0, FILL)), n)
  {
    StepInv(s1, Fill(0, FILL));
    hide Inv;
  }

  lemma RefillRuns(s: State, node: Node)
    requires Idle(s) && s.active == map[] && node.ip.V4? && node.observed == Unusable
    ensures Refilled(s, Run(s, Refill(node)), s.counter + 1)
  {
    hide Idle, Next, Run, Coming, Refilled;
    var a, b := StartStandby(node, true, Done), CommitStandby(Unusable, Done);
    RunCons(s, a, [b] + [Fill(0, FILL)]);
    RunCons(Next(s, a), b, [Fill(0, FILL)]);
    RunOne(Next(Next(s, a), b), Fill(0, FILL));
    Started(s, node);
    Queued(s, Next(s, a), s.counter + 1, node);
    Seated(s, Next(Next(s, a), b), s.counter + 1, node);
  }

  lemma DrainRuns(s: State, n: TunnelId)
    requires Idle(s) && s.active == map[0 := n] && n in s.tunnels && s.tunnels[n].state == Up && !s.tunnels[n].exited
    ensures var s' := Run(s, [HealthCheck(0, false, DRAIN)]);
      && Idle(s') && s'.active == map[] && s'.draining == s.draining[0 := n]
      && n in s'.tunnels && s'.tunnels[n].drainingSince == 0
      && (0 in s.draining ==> IsLost(s', s.draining[0]))
  {
    var step := HealthCheck(0, false, DRAIN);
    hide Run, Inv, TransitionToDraining;
    RunOne(s, step);
    DrainingApart(s, 0);
    if 0 in s.draining { assert At(s, s.draining[0], InDraining(0)) by { DrainingHeld(s, 0); } }
    StepInv(s, step);
    CompletedDrain(s, 0, n, DRAIN);
    assert DrainReached(s, TransitionToDraining(s, 0, n, DRAIN), 0) by { DrainReach(s, 0, n, DRAIN); }
    DrainKeepsXray(s, n);
  }

  lemma DrainingHeld(s: State, q: nat)
    requires Inv(s) && q in s.draining
    ensures At(s, s.draining[q], InDraining(q))
  {
    DrainingKnown(s, q);
  }

  lemma DrainKeepsXray(s: State, n: TunnelId)
    requires s.world.xray.None? && n in s.tunnels && (0 in s.draining ==> s.draining[0] in s.tunnels)
    ensures TransitionToDraining(s, 0, n, DRAIN).world.xray.None?
  {
  }

  /** Two drains of one slot in a row, the second before the first tunnel's connections are gone. */
  function LosingRun(a: Node, b: Node): seq<Step> {
    (Refill(a) + [HealthCheck(0, false, DRAIN)]) + (Refill(b) + [HealthCheck(0, false, DRAIN)])
  }

  lemma InitialIdle(maxActive: nat)
    requires maxActive > 0
    ensures var s := Initial(maxActive, 1, None); Idle(s) && s.active == map[] && s.maxActive == maxActive
  {
    InitialInv(maxActive, 1, None);
  }

  lemma DrainedOnce(s: State, a: Node)
    requires Idle(s) && s.active == map[] && a.ip.V4? && a.observed == Unusable
    ensures var s' := Run(s, Refill(a) + [HealthCheck(0, false, DRAIN)]); var n := s.counter + 1;
      && Idle(s') && s'.active == map[] && s'.draining == s.draining[0 := n] && n in s'.tunnels &&
          s'.tunnels[n].drainingSince == 0
      && (0 in s.draining ==> IsLost(s', s.draining[0]))
  {
    hide Idle, Run, Next;
    RunConcat(s, Refill(a), [HealthCheck(0, false, DRAIN)]);
    RefillRuns(s, a);
    DrainRuns(Run(s, Refill(a)), s.counter + 1);
  }

  /** From the initial state, a tunnel that is still draining ends up in no map, never stopped. */
  lemma DrainingTunnelLost(a: Node, b: Node)
    requires a.ip.V4? && b.ip.V4? && a.observed == Unusable && b.observed == Unusable
    ensures IsLost(Run(Initial(1, 1, None), LosingRun(a, b)), 13)
  {
    hide Idle, Run, IsLost;
    InitialIdle(1);
    var s := Initial(1, 1, None);
    var half := Refill(a) + [HealthCheck(0, false, DRAIN)];
    RunConcat(s, half, Refill(b) + [HealthCheck(0, false, DRAIN)]);
    DrainedOnce(s, a);
    DrainedOnce(Run(s, half), b);
  }

  // ---- A switch on its way to its commit ----

  const GOOD := SwitchInput(true, V4(512), Done, Done, XrayTransaction.Applied, Done, "10.8.0.3", 0)

  /** Phases in which the candidate's exit has been observed. */
  predicate Observed(p: Phase) {
    p.DiversityCheck? || p.SecondLeaseCheck? || p.XrayOn? || p.Cutover? || p.Committing?
  }

  /** Switch `id` is on its way to an empty slot, and no node but its target is active or waiting. */
  ghost predicate Trying(s: State, id: string, p: Phase) {
    && Inv(s) && id in s.switches && s.switches[id].phase == p && s.switches[id].slot !in s.active
    && (forall i: nat | i < |s.standby| :: QueuedNode(s, i, s.switches[id].target.id))
    && (forall q | q in s.active :: SeatedNode(s, q, s.switches[id].target.id))
    && (BeforeCommitting(p) && !HoldsCandidate(s.switches[id]) ==> s.switches[id].candidate.None?)
    && (HoldsCandidate(s.switches[id]) ==>
          && s.switches[id].candidate.Some? && s.switches[id].candidate.value in s.tunnels
          && s.tunnels[s.switches[id].candidate.value].node.id == s.switches[id].target.id
          && (Observed(p) ==> s.tunnels[s.switches[id].candidate.value].node.observed == V4(512)))
  }

  ghost predicate QueuedNode(s: State, i: nat, node: string) {
    i < |s.standby| && s.standby[i] in s.tunnels && s.tunnels[s.standby[i]].node.id == node
  }

  /** What a good move leaves alone. */
  ghost predicate MovedOn(s: State, s': State, id: string) {
    && s'.maxActive == s.maxActive && s'.active == s.active && s'.draining == s.draining && s'.standby == s.standby
    && (forall t | t in s.standby && t in s.tunnels :: t in s'.tunnels && s'.tunnels[t] == s.tunnels[t])
    && id in s.switches && id in s'.switches && s'.switches == s.switches[id := s'.switches[id]]
    && s'.switches[id].slot == s.switches[id].slot && s'.switches[id].target == s.switches[id].target
    && (s'.world.xray == s.world.xray || s.switches[id].phase.XrayOn?)
    && (forall q: nat | q != s.switches[id].slot :: q in s'.override <==> q in s.override)
  }

  lemma CandidateNotSeated(s: State, id: string, q: nat)
    requires Inv(s) && id in s.switches && HoldsCandidate(s.switches[id]) && q in s.active
    ensures s.switches[id].candidate != Some(s.active[q])
  {
    FitsKnown(s, id);
    ActiveKnown(s, q);
  }

  lemma CandidateNotQueued(s: State, id: string, t: TunnelId)
    requires Inv(s) && id in s.switches && HoldsCandidate(s.switches[id]) && t in s.standby
    ensures s.switches[id].candidate != Some(t)
  {
    FitsKnown(s, id);
    var i: nat :| i < |s.standby| && s.standby[i] == t;
    StandbyKnown(s, i);
  }

  lemma DiverseAmongEquals(s: State, id: string, p: Phase)
    requires Trying(s, id, p) && HoldsCandidate(s.switches[id]) && Observed(p)
    ensures CandidateDiverse(s, s.switches[id])
  {
    hide Inv;
    var n := s.tunnels[s.switches[id].candidate.value].node;
    assert Prefix(n.observed).value in Prefixes(n, n.observed);
    forall q | q in s.active ensures SeatedNode(s, q, n.id) {}
    forall i | 0 <= i < |s.standby|
      ensures s.standby[i] in s.tunnels ==> !Conflict(n, n.observed, s.tunnels[s.standby[i]].node)
    {
      assert QueuedNode(s, i, n.id);
    }
  }

  lemma TryMove(s: State, id: string, p: Phase)
    requires Trying(s, id, p) && BeforeCommitting(p)
    ensures var s' := Next(s, Switching(id, GOOD));
      Trying(s', id, Following(p)) && MovedOn(s, s', id) && GoesWell(s, s', id, GOOD)
  {
    hide Inv, Advance, CandidateDiverse, TablesConfined, NothingLost, SlotsConfined, Preempted, Apply, GoesWell;
    assert Steerable(s, id);
    if p.DiversityCheck? { DiverseAmongEquals(s, id, p); }
    StepInv(s, Switching(id, GOOD));
    SwitchingIsAdvance(s, Switching(id, GOOD));
    AdvanceReach(s, id, GOOD);
    GoodMove(s, id, GOOD);
    var s' := Next(s, Switching(id, GOOD));
    assert s' == Advance(s, id, GOOD);
    forall q | q in s.active ensures SeatedNode(s', q, s.switches[id].target.id) {
      assert SeatedNode(s, q, s.switches[id].target.id);
      if HoldsCandidate(s.switches[id]) { CandidateNotSeated(s, id, q); }
      TunnelStays(s, s', id, s.active[q]);
    }
    forall t | t in s.standby && t in s.tunnels ensures t in s'.tunnels && s'.tunnels[t] == s.tunnels[t] {
      if HoldsCandidate(s.switches[id]) { CandidateNotQueued(s, id, t); }
      TunnelStays(s, s', id, t);
    }
    forall i: nat | i < |s.standby| ensures QueuedNode(s', i, s.switches[id].target.id) {
      assert QueuedNode(s, i, s.switches[id].target.id) && s.standby[i] in s.standby;
    }
    CandidateStays(s, s', id, p);
    OverridesElsewhere(s, s', s.switches[id].slot);
  }

  lemma OverridesElsewhere(s: State, s': State, q: nat)
    requires SlotsConfined(s, s', q)
    ensures forall p: nat | p != q :: p in s'.override <==> p in s.override
  {
  }

  lemma TunnelStays(s: State, s': State, id: string, t: TunnelId)
    requires GoesWell(s, s', id, GOOD) && t in s.tunnels && s.switches[id].candidate != Some(t)
    ensures t in s'.tunnels && s'.tunnels[t] == s.tunnels[t]
  {
  }

  lemma CandidateStays(s: State, s': State, id: string, p: Phase)
    requires Trying(s, id, p) && GoesWell(s, s', id, GOOD)
    ensures var w := s'.switches[id];
      && w.phase == Following(p) && w.target == s.switches[id].target && (!HoldsCandidate(w) ==> w.candidate.None?)
      && (HoldsCandidate(w) ==>
          && w.candidate.Some? && w.candidate.value in s'.tunnels
          && s'.tunnels[w.candidate.value].node.id == w.target.id
          && (Observed(w.phase) ==> s'.tunnels[w.candidate.value].node.observed == V4(512)))
  {
    hide Inv;
  }

  function Moves(id: string, n: nat): seq<Step> {
    if n == 0 then [] else [Switching(id, GOOD)] + Moves(id, n - 1)
  }

  /** The phase n good moves later. */
  function After(p: Phase, n: nat): Phase
    decreases n
  {
    if n == 0 || !BeforeCommitting(p) then p else After(Following(p), n - 1)
  }

  lemma TenMoves()
    ensures After(Admission, 9) == Cutover && After(Cutover, 1) == Committing && After(Admission, 10) == Committing
  {
    assert After(Verifying, 4) == Cutover && After(Verifying, 5) == Committing;
    assert After(Starting, 6) == Cutover && After(Starting, 7) == Committing;
  }

  /** What every good move keeps, holds after any number of them on the way to the commit. */
  lemma {:induction false} Reaches(P: (State, Phase) -> bool, id: string, s: State, p: Phase, n: nat)
    requires P(s, p) && forall k: nat | k < n :: BeforeCommitting(After(p, k))
    requires forall u: State, o: Phase | P(u, o) && BeforeCommitting(o) :: P(Next(u, Switching(id, GOOD)), Following(o))
    ensures P(Run(s, Moves(id, n)), After(p, n))
    decreases n
  {
    hide Run, Next;
    if n == 0 {
      RunNone(s);
    } else {
      assert BeforeCommitting(After(p, 0));
      forall k: nat | k < n - 1 ensures BeforeCommitting(After(Following(p), k)) {
        assert BeforeCommitting(After(p, k + 1));
      }
      RunCons(s, Switching(id, GOOD), Moves(id, n - 1));
      Reaches(P, id, Next(s, Switching(id, GOOD)), Following(p), n - 1);
    }
  }

  /** The commit is the eleventh move. */
  lemma ReachesCommit(P: (State, Phase) -> bool, id: string, s: State)
    requires P(s, Admission)
    requires forall u: State, o: Phase | P(u, o) && BeforeCommitting(o) :: P(Next(u, Switching(id, GOOD)), Following(o))
    ensures P(Run(s, Moves(id, 9)), Cutover) && P(Run(s, Moves(id, 10)), Committing)
  {
    hide Run, Next;
    TenMoves();
    TenEarlyPhases();
    Reaches(P, id, s, Admission, 9);
    Reaches(P, id, s, Admission, 10);
  }

  lemma TenEarlyPhases()
    ensures forall k: nat | k < 10 :: BeforeCommitting(After(Admission, k))
  {
    forall k: nat | k < 10 ensures BeforeCommitting(After(Admission, k)) { PhaseIsEarly(Admission, 10, k); }
  }

  lemma {:induction false} PhaseIsEarly(p: Phase, n: nat, k: nat)
    requires BeforeCommitting(p) && k < n && n == PhaseRank(p) - 6
    ensures BeforeCommitting(After(p, k))
    decreases k
  {
    if k > 0 { PhaseIsEarly(Following(p), n - 1, k - 1); }
  }

  lemma Reserved(s: State, id: string, q: nat, b: Node)
    requires Inv(s) && s.active == map[] && q < s.maxActive && q !in s.override && b.ip.V4?
    requires id !in s.switches && forall i: nat | i < |s.standby| :: QueuedNode(s, i, b.id)
    ensures var s' := Next(s, Request(id, q, b, true));
      && Trying(s', id, Admission) && s'.switches == s.switches[id := s'.switches[id]]
      && s'.switches[id].slot == q && s'.switches[id].target == b && s'.switches[id].candidate.None?
      && s' == s.(switches := s'.switches, override := s.override + {q}, controllers := s'.controllers)
  {
    hide Inv, Reservable, Apply, QueuedNode;
    IsReservable(s, q, b);
    StepInv(s, Request(id, q, b, true));
    RequestGranted(s, id, q, b);
    forall i: nat | i < |s.standby| ensures QueuedNode(Next(s, Request(id, q, b, true)), i, b.id) {
      assert QueuedNode(s, i, b.id);
      QueueStays(s, Next(s, Request(id, q, b, true)), i, b.id);
    }
  }

  lemma QueueStays(s: State, s': State, i: nat, node: string)
    requires QueuedNode(s, i, node) && s'.standby == s.standby && s'.tunnels == s.tunnels
    ensures QueuedNode(s', i, node)
  {
  }

  lemma RequestGranted(s: State, id: string, q: nat, b: Node)
    requires Reservable(s, q, b, true) && id !in s.switches
    ensures var s' := Apply(s, Request(id, q, b, true));
      && id in s'.switches && s'.switches == s.switches[id := s'.switches[id]] && s'.switches[id].phase.Admission?
      && s'.switches[id].slot == q && s'.switches[id].target == b && s'.switches[id].candidate.None?
      && s' == s.(switches := s'.switches, override := s.override + {q}, controllers := s'.controllers)
  {
    hide Diverse, Leases.Acquire;
  }

  lemma IsReservable(s: State, q: nat, b: Node)
    requires Inv(s) && s.active == map[] && q < s.maxActive && q !in s.override && b.ip.V4?
    requires forall i: nat | i < |s.standby| :: QueuedNode(s, i, b.id)
    ensures Reservable(s, q, b, true)
  {
    hide Inv;
    assert Prefix(b.ip).value in Prefixes(b, Unusable);
    forall i | 0 <= i < |s.standby|
      ensures s.standby[i] in s.tunnels ==> !Conflict(b, Unusable, s.tunnels[s.standby[i]].node)
    {
      assert QueuedNode(s, i, b.id);
    }
    FreeSlot(s, q);
  }

  lemma FreeSlot(s: State, q: nat)
    requires Inv(s) && q < s.maxActive && q !in s.override
    ensures q in s.controllers && s.controllers[q].owner == ""
  {
  }

  lemma CommitOnEmpty(s: State, id: string)
    requires Steerable(s, id) && s.switches[id].phase.Committing? && s.switches[id].candidate.Some?
    requires s.switches[id].candidate.value in s.tunnels
    requires s.switches[id].slot !in s.active && CandidateDiverse(s, s.switches[id])
    ensures var t := s.switches[id].candidate.value;
      Next(s, Switching(id, GOOD)) == Succeed(Install(s, s.switches[id].slot, t), id)
  {
    hide CandidateDiverse, Commit, Advance, Apply;
    SwitchingIsAdvance(s, Switching(id, GOOD));
    AdvanceIsCommit(s, id, GOOD);
    CommitInstalls(s, id);
  }

  lemma CommitInstalls(s: State, id: string)
    requires id in s.switches && s.switches[id].candidate.Some? && s.switches[id].candidate.value in s.tunnels
    requires s.switches[id].slot !in s.active && CandidateDiverse(s, s.switches[id])
    ensures var t := s.switches[id].candidate.value;
      Commit(s, id, t, GOOD) == Succeed(Install(s, s.switches[id].slot, t), id)
  {
    hide CandidateDiverse;
  }

  // ---- The empty-slot race ----

  /** Tunnel 13 drains from slot 0 since time 0, and the switch "op" is on its way to the empty slot. */
  ghost predicate OnItsWay(s: State, p: Phase) {
    && Trying(s, "op", p) && s.switches["op"].slot == 0 && s.active == map[] && s.standby == []
    && s.draining == map[0 := 13] && 13 in s.tunnels && s.tunnels[13].drainingSince == 0
    && s.switches["op"].candidate != Some(13)
  }

  lemma OneMove(s: State, p: Phase)
    requires OnItsWay(s, p) && BeforeCommitting(p)
    ensures OnItsWay(Next(s, Switching("op", GOOD)), Following(p))
  {
    hide Inv, Next, Trying;
    TryMove(s, "op", p);
  }

  lemma OneMoves()
    ensures forall u: State, p: Phase | OnItsWay(u, p) && BeforeCommitting(p) ::
      OnItsWay(Next(u, Switching("op", GOOD)), Following(p))
  {
    hide OnItsWay, Next;
    forall u: State, p: Phase | OnItsWay(u, p) && BeforeCommitting(p)
      ensures OnItsWay(Next(u, Switching("op", GOOD)), Following(p))
    {
      OneMove(u, p);
    }
  }

  const TIMEOUT := Cleanup(0, CleanupInput(30001, None, Done, Done))

  function RaceRun(a: Node, b: Node): seq<Step> {
    (Refill(a) + [HealthCheck(0, false, DRAIN)])
    + ([Request("op", 0, b, true)] + (Moves("op", 10) + ([TIMEOUT] + [Switching("op", GOOD)])))
  }

  lemma TimeoutEffect(s: State)
    requires 0 in s.draining && s.draining[0] in s.tunnels && 0 !in s.active
    requires TimedOut(s.tunnels[s.draining[0]], 30001) && 0 in s.drainingTable &&
        s.drainingTable[0] == BASE_DRAINING_TABLE
    ensures var s' := CleanupSlot(s, 0, TIMEOUT.cleanup);
      && s'.active == s.active && s'.standby == s.standby && s'.switches == s.switches
      && SlotTable(s', 0) == Unreachable
      && forall t | t in s.tunnels && t != s.draining[0] :: t in s'.tunnels && s'.tunnels[t] == s.tunnels[t]
  {
  }

  lemma AfterTimeout(s: State)
    requires OnItsWay(s, Committing)
    ensures OnItsWay(s, Committing) && Trying(Next(s, TIMEOUT), "op", Committing)
    ensures SlotTable(Next(s, TIMEOUT), 0) == Unreachable && Next(s, TIMEOUT).switches == s.switches
  {
    CleanupKnown(s, 0);
    StepInv(s, TIMEOUT);
    hide Inv, CleanupSlot, SlotTable;
    TimeoutEffect(s);
  }

  lemma CommitsAfterTimeout(s: State)
    requires OnItsWay(s, Committing)
    ensures var s' := Next(Next(s, TIMEOUT), Switching("op", GOOD)); 0 in s'.active && SlotTable(s', 0) == Unreachable
  {
    hide Inv, Next, CandidateDiverse;
    AfterTimeout(s);
    DiverseAmongEquals(Next(s, TIMEOUT), "op", Committing);
    CommitOnEmpty(Next(s, TIMEOUT), "op");
  }

  /** From the initial state, the manual switch succeeds and leaves its slot active with a closed table. */
  lemma ActiveSlotClosed(a: Node, b: Node)
    requires a.ip.V4? && b.ip.V4? && a.observed == Unusable
    ensures var e := Run(Initial(1, 1, None), RaceRun(a, b)); 0 in e.active && SlotTable(e, 0) == Unreachable
  {
    hide Idle, Run, Next, Trying;
    InitialIdle(1);
    var s := Initial(1, 1, None);
    var first := Refill(a) + [HealthCheck(0, false, DRAIN)];
    var request := Request("op", 0, b, true);
    var last := [TIMEOUT] + [Switching("op", GOOD)];
    DrainedOnce(s, a);
    var s1 := Run(s, first);
    RunConcat(s, first, [request] + (Moves("op", 10) + last));
    ReservedOnItsWay(s1, b);
    RunCons(s1, request, Moves("op", 10) + last);
    var s2 := Next(s1, request);
    OneMoves();
    ReachesCommit((u, p) => OnItsWay(u, p), "op", s2);
    RunConcat(s2, Moves("op", 10), last);
    var s3 := Run(s2, Moves("op", 10));
    CommitsAfterTimeout(s3);
    RunCons(s3, TIMEOUT, [Switching("op", GOOD)]);
    RunOne(Next(s3, TIMEOUT), Switching("op", GOOD));
  }

  lemma ReservedOnItsWay(s: State, b: Node)
    requires Idle(s) && s.active == map[] && s.draining == map[0 := 13] && 13 in s.tunnels &&
        s.tunnels[13].drainingSince == 0
    requires b.ip.V4?
    ensures OnItsWay(Next(s, Request("op", 0, b, true)), Admission)
  {
    hide Inv, Next, Trying;
    Reserved(s, "op", 0, b);
  }

  // ---- The synchronisation between activation and commit ----

  const SYNC := Synchronise(XrayTransaction.Applied)

  /** The switch "op" on the empty slot 0, with Xray attached. */
  ghost predicate Online(s: State, p: Phase) {
    && Trying(s, "op", p) && s.switches["op"].slot == 0 && s.active == map[] && s.standby == []
    && s.world.xray.Some? && s.world.xray.value.slotCount == 1
  }

  lemma OnlineMove(s: State, p: Phase)
    requires Online(s, p) && BeforeCommitting(p)
    ensures Online(Next(s, Switching("op", GOOD)), Following(p))
    ensures p.XrayOn? || Next(s, Switching("op", GOOD)).world.xray == s.world.xray
    ensures p.XrayOn? ==> 0 in Next(s, Switching("op", GOOD)).world.xray.value.memory
  {
    TryMove(s, "op", p);
    if p.XrayOn? { ActivationKeeps(s); }
    hide Inv, Next, Trying;
  }

  lemma ActivationKeeps(s: State)
    requires Trying(s, "op", XrayOn) && s.switches["op"].slot == 0 && s.world.xray.Some?
    ensures var x := Next(s, Switching("op", GOOD)).world.xray;
      x.Some? && x.value.slotCount == s.world.xray.value.slotCount && 0 in x.value.memory
  {
    hide Inv, Advance, Apply, Projection.After;
    SwitchingIsAdvance(s, Switching("op", GOOD));
    Projection.SwitchOnProjects(s, "op", GOOD);
    ActivatedMemory(s.world.xray);
  }

  lemma ActivatedMemory(xray: Option<XrayTransaction.Xray>)
    requires xray.Some?
    ensures var x := Projection.After(xray, [XrayTransaction.Activate(0, XrayTransaction.Applied)]);
      x.Some? && x.value.slotCount == xray.value.slotCount && 0 in x.value.memory
  {
    Projection.RunOne(xray.value, XrayTransaction.Activate(0, XrayTransaction.Applied));
  }

  lemma OnlineMoves()
    ensures forall u: State, p: Phase | Online(u, p) && BeforeCommitting(p) ::
      Online(Next(u, Switching("op", GOOD)), Following(p))
  {
    hide Online, Next;
    forall u: State, p: Phase | Online(u, p) && BeforeCommitting(p)
      ensures Online(Next(u, Switching("op", GOOD)), Following(p))
    {
      OnlineMove(u, p);
    }
  }

  lemma SyncForgets(s: State, p: Phase)
    requires Online(s, p)
    ensures var s' := Next(s, SYNC);
      Online(s', p) && 0 !in s'.world.xray.value.memory && 0 !in s'.world.xray.value.runtime
  {
    StepInv(s, SYNC);
    hide Inv;
  }

  function ForgottenRun(b: Node): seq<Step> {
    [Request("op", 0, b, true)] + (Moves("op", 9) + ([SYNC] + (Moves("op", 1) + [Switching("op", GOOD)])))
  }

  lemma ForgottenCommit(s: State)
    requires Online(s, Committing) && 0 !in s.world.xray.value.memory && 0 !in s.world.xray.value.runtime
    ensures Forgotten(Next(s, Switching("op", GOOD)))
  {
    hide Inv, Next, CandidateDiverse;
    DiverseAmongEquals(s, "op", Committing);
    CommitOnEmpty(s, "op");
  }

  /** The switch has succeeded; Xray neither remembers nor routes its slot. */
  ghost predicate Forgotten(s: State) {
    && "op" in s.switches && s.switches["op"].verdict.Succeeded? && 0 in s.active
    && s.world.xray.Some? && 0 !in s.world.xray.value.memory && 0 !in s.world.xray.value.runtime
  }

  /** From the initial state, every command succeeds, and the active slot is unknown to Xray. */
  lemma ActiveSlotForgotten(b: Node)
    requires b.ip.V4?
    ensures Forgotten(Run(Initial(1, 1, Some(XrayTransaction.Xray(1, {}, {}))), ForgottenRun(b)))
  {
    hide Run, Next, Online, Forgotten;
    var s := Initial(1, 1, Some(XrayTransaction.Xray(1, {}, {})));
    var request, commit := Request("op", 0, b, true), Switching("op", GOOD);
    ReservedOnline(b);
    var s1 := Next(s, request);
    RunCons(s, request, Moves("op", 9) + ([SYNC] + (Moves("op", 1) + [commit])));
    RunConcat(s1, Moves("op", 9), [SYNC] + (Moves("op", 1) + [commit]));
    OnlineMoves();
    ReachesCommit((u, p) => Online(u, p), "op", s1);
    var s2 := Run(s1, Moves("op", 9));
    RunCons(s2, SYNC, Moves("op", 1) + [commit]);
    SyncForgets(s2, Cutover);
    var s3 := Next(s2, SYNC);
    OnlineMove(s3, Cutover);
    assert Moves("op", 1) == [commit];
    RunCons(s3, commit, [commit]);
    RunOne(Next(s3, commit), commit);
    ForgottenCommit(Next(s3, commit));
  }

  lemma ReservedOnline(b: Node)
    requires b.ip.V4?
    ensures Online(Next(Initial(1, 1, Some(XrayTransaction.Xray(1, {}, {}))), Request("op", 0, b, true)), Admission)
  {
    hide Next, Trying;
    var x := Some(XrayTransaction.Xray(1, {}, {}));
    InitialInv(1, 1, x);
    Reserved(Initial(1, 1, x), "op", 0, b);
  }

  // ---- One node on two slots ----

  /** Two switches to one node: "a" on its way to slot 0, "b" waiting before slot 1. */
  ghost predicate Both(s: State, node: Node, p: Phase) {
    && Trying(s, "a", p) && s.switches["a"].slot == 0 && s.switches["a"].target == node && s.active == map[]
    && Trying(s, "b", Admission) && s.switches["b"].slot == 1 && s.switches["b"].target == node && s.standby == []
  }

  /** The first has taken slot 0 and the second is on its way. */
  ghost predicate Second(s: State, node: Node, p: Phase) {
    && Trying(s, "b", p) && s.switches["b"].slot == 1 && s.switches["b"].target == node
    && s.active.Keys == {0} && s.standby == []
  }

  lemma FirstMoves(s: State, node: Node, p: Phase)
    requires Both(s, node, p) && BeforeCommitting(p)
    ensures Both(Next(s, Switching("a", GOOD)), node, Following(p))
  {
    hide Inv, Next;
    TryMove(s, "a", p);
    var s' := Next(s, Switching("a", GOOD));
    assert s'.switches["b"] == s.switches["b"];
    assert s'.standby == [];
  }

  lemma SecondMoves(s: State, node: Node, p: Phase)
    requires Second(s, node, p) && BeforeCommitting(p)
    ensures Second(Next(s, Switching("b", GOOD)), node, Following(p))
  {
    hide Inv, Next, Trying;
    TryMove(s, "b", p);
  }

  lemma FirstCommits(s: State, node: Node)
    requires Both(s, node, Committing)
    ensures Second(Next(s, Switching("a", GOOD)), node, Admission)
  {
    assert Steerable(s, "a") && Enabled(s, Switching("a", GOOD));
    hide Inv, CandidateDiverse, Apply, Succeed, Install, Both, Second;
    StepInv(s, Switching("a", GOOD));
    BothDiverse(s, node);
    CommitOnEmpty(s, "a");
    FirstSeated(s, node);
  }

  lemma BothDiverse(s: State, node: Node)
    requires Both(s, node, Committing)
    ensures Steerable(s, "a") && s.switches["a"].slot == 0 && CandidateDiverse(s, s.switches["a"])
    ensures s.switches["a"].phase.Committing? && s.switches["a"].candidate.Some? && 0 !in s.active
    ensures s.switches["a"].candidate.value in s.tunnels
  {
    DiverseAmongEquals(s, "a", Committing);
    hide Inv, CandidateDiverse;
  }

  lemma FirstSeated(s: State, node: Node)
    requires Both(s, node, Committing)
    requires Inv(Succeed(Install(s, 0, s.switches["a"].candidate.value), "a"))
    ensures Second(Succeed(Install(s, 0, s.switches["a"].candidate.value), "a"), node, Admission)
  {
    hide Inv;
    var s' := Succeed(Install(s, 0, s.switches["a"].candidate.value), "a");
    assert s'.switches["b"] == s.switches["b"];
    assert SeatedNode(s', 0, node.id);
  }

  /** Two active slots, two tunnels, one node. */
  ghost predicate Shared(s: State, node: string) {
    SeatedNode(s, 0, node) && SeatedNode(s, 1, node) && s.active[0] != s.active[1] && !NodesApart(s)
  }

  lemma SharedTwice(s: State, node: string)
    requires SeatedNode(s, 0, node) && SeatedNode(s, 1, node)
    ensures !NodesApart(s)
  {
  }

  lemma SecondCommits(s: State, node: Node)
    requires Second(s, node, Committing)
    ensures Shared(Next(s, Switching("b", GOOD)), node.id)
  {
    hide Inv, Next, CandidateDiverse, NodesApart;
    DiverseAmongEquals(s, "b", Committing);
    CandidateNotSeated(s, "b", 0);
    CommitOnEmpty(s, "b");
    assert SeatedNode(s, 0, node.id);
    SharedTwice(Next(s, Switching("b", GOOD)), node.id);
  }

  lemma AllMoves(node: Node)
    ensures forall u: State, p: Phase | Both(u, node, p) && BeforeCommitting(p) ::
      Both(Next(u, Switching("a", GOOD)), node, Following(p))
    ensures forall u: State, p: Phase | Second(u, node, p) && BeforeCommitting(p) ::
      Second(Next(u, Switching("b", GOOD)), node, Following(p))
  {
    hide Both, Second, Next;
    forall u: State, p: Phase | Both(u, node, p) && BeforeCommitting(p)
      ensures Both(Next(u, Switching("a", GOOD)), node, Following(p))
    {
      FirstMoves(u, node, p);
    }
    forall u: State, p: Phase | Second(u, node, p) && BeforeCommitting(p)
      ensures Second(Next(u, Switching("b", GOOD)), node, Following(p))
    {
      SecondMoves(u, node, p);
    }
  }

  function SharedRun(node: Node): seq<Step> {
    [Request("a", 0, node, true)] + ([Request("b", 1, node, true)]
    + (Moves("a", 10) + ([Switching("a", GOOD)] + (Moves("b", 10) + [Switching("b", GOOD)]))))
  }

  lemma BothReserved(node: Node)
    requires node.ip.V4?
    ensures var s := Next(Initial(2, 1, None), Request("a", 0, node, true));
      Both(Next(s, Request("b", 1, node, true)), node, Admission)
  {
    InitialInv(2, 1, None);
    hide Inv, Next;
    Reserved(Initial(2, 1, None), "a", 0, node);
    var s := Next(Initial(2, 1, None), Request("a", 0, node, true));
    Reserved(s, "b", 1, node);
    assert Next(s, Request("b", 1, node, true)).switches["a"] == s.switches["a"];
  }

  /** From the initial state, two granted requests put one node on two slots. */
  lemma NodeOnTwoSlots(node: Node)
    requires node.ip.V4?
    ensures Shared(Run(Initial(2, 1, None), SharedRun(node)), node.id)
  {
    hide Run, Next, Both, Second, Shared;
    var s := Initial(2, 1, None);
    var a, b := Request("a", 0, node, true), Request("b", 1, node, true);
    var last := Moves("b", 10) + [Switching("b", GOOD)];
    var middle := Moves("a", 10) + ([Switching("a", GOOD)] + last);
    AllMoves(node);
    RunCons(s, a, [b] + middle);
    RunCons(Next(s, a), b, middle);
    BothReserved(node);
    var s1 := Next(Next(s, a), b);
    RunConcat(s1, Moves("a", 10), [Switching("a", GOOD)] + last);
    ReachesCommit((u, p) => Both(u, node, p), "a", s1);
    var s2 := Run(s1, Moves("a", 10));
    RunCons(s2, Switching("a", GOOD), last);
    FirstCommits(s2, node);
    var s3 := Next(s2, Switching("a", GOOD));
    RunConcat(s3, Moves("b", 10), [Switching("b", GOOD)]);
    ReachesCommit((u, p) => Second(u, node, p), "b", s3);
    SecondCommits(Run(s3, Moves("b", 10)), node);
    RunOne(Run(s3, Moves("b", 10)), Switching("b", GOOD));
  }

  /** The switch "a" on its way to slot 0, to the node that tunnel n waits with in the queue. */
  ghost predicate Waiting(s: State, node: Node, n: TunnelId, p: Phase) {
    && Trying(s, "a", p) && s.switches["a"].slot == 0 && s.switches["a"].target == node && s.active == map[]
    && s.maxActive == 2 && 1 !in s.override
    && s.standby == [n] && n in s.tunnels && s.tunnels[n].state == Up
  }

  lemma WaitingMoves(node: Node, n: TunnelId)
    ensures forall u: State, p: Phase | Waiting(u, node, n, p) && BeforeCommitting(p) ::
      Waiting(Next(u, Switching("a", GOOD)), node, n, Following(p))
  {
    hide Inv, Next, Trying;
    forall u: State, p: Phase | Waiting(u, node, n, p) && BeforeCommitting(p)
      ensures Waiting(Next(u, Switching("a", GOOD)), node, n, Following(p))
    {
      assert n in u.standby;
      TryMove(u, "a", p);
    }
  }

  function PromotedRun(node: Node): seq<Step> {
    [StartStandby(node, true, Done)] + ([CommitStandby(Unusable, Done)] + ([Request("a", 0, node, true)]
    + (Moves("a", 10) + ([Switching("a", GOOD)] + [Fill(1, FILL)]))))
  }

  lemma WaitingReserved(s: State, s1: State, node: Node, n: TunnelId)
    requires Coming(s, s1, n, node) && s1.worker == None && s1.standby == [n] && s.active == map[] && s.maxActive == 2
    requires node.ip.V4?
    ensures Waiting(Next(s1, Request("a", 0, node, true)), node, n, Admission)
  {
    hide Inv, Next, Trying;
    assert QueuedNode(s1, 0, node.id);
    Reserved(s1, "a", 0, node);
  }

  /** The switch has taken slot 0, and the tunnel still waits. */
  ghost predicate Taken(s: State, node: string, n: TunnelId) {
    && Inv(s) && SeatedNode(s, 0, node) && s.active.Keys == {0} && s.maxActive == 2 && 1 !in s.override
    && s.standby == [n] && QueuedNode(s, 0, node) && s.tunnels[n].state == Up
  }

  lemma WaitingCommits(s: State, node: Node, n: TunnelId)
    requires Waiting(s, node, n, Committing)
    ensures Taken(Next(s, Switching("a", GOOD)), node.id, n)
  {
    WaitingDiverse(s, node, n);
    hide Inv, CandidateDiverse, Apply, Succeed, Install, Waiting, Taken;
    StepInv(s, Switching("a", GOOD));
    CommitOnEmpty(s, "a");
    WaitingSeated(s, node, n);
  }

  lemma WaitingDiverse(s: State, node: Node, n: TunnelId)
    requires Waiting(s, node, n, Committing)
    ensures Inv(s) && Steerable(s, "a") && s.switches["a"].slot == 0 && CandidateDiverse(s, s.switches["a"])
    ensures s.switches["a"].phase.Committing? && s.switches["a"].candidate.Some? && 0 !in s.active
    ensures s.switches["a"].candidate.value in s.tunnels
  {
    DiverseAmongEquals(s, "a", Committing);
    hide Inv, CandidateDiverse;
  }

  lemma WaitingSeated(s: State, node: Node, n: TunnelId)
    requires Waiting(s, node, n, Committing)
    requires Inv(Succeed(Install(s, 0, s.switches["a"].candidate.value), "a"))
    ensures Taken(Succeed(Install(s, 0, s.switches["a"].candidate.value), "a"), node.id, n)
  {
    hide Inv;
    assert n in s.standby && QueuedNode(s, 0, node.id);
    CandidateNotQueued(s, "a", n);
  }

  lemma TakenFills(s: State, node: string, n: TunnelId)
    requires Taken(s, node, n)
    ensures Shared(Next(s, Fill(1, FILL)), node)
  {
    assert n != s.active[0] by { ActiveKnown(s, 0); StandbyKnown(s, 0); }
    hide Inv, Promote, NodesApart;
    FillIsPromotion(s, 1, FILL);
    FillSeats(s, 1, FILL);
    FillGoesThrough(s, 1);
    SharedTwice(Promote(s, 1, FILL), node);
  }

  lemma FillGoesThrough(s: State, q: nat)
    requires |s.standby| > 0 && s.standby[0] in s.tunnels && s.tunnels[s.standby[0]].state == Up
    ensures PromotionWorld(s, q, FILL).1
  {
  }

  /** From the initial state, one granted request and one promotion do so too. */
  lemma NodeSwitchedAndPromoted(node: Node)
    requires node.ip.V4? && node.observed == Unusable
    ensures Shared(Run(Initial(2, 1, None), PromotedRun(node)), node.id)
  {
    hide Run, Next, Idle, Coming, Waiting, Taken, Shared;
    var s, n := Initial(2, 1, None), Initial(2, 1, None).counter + 1;
    InitialIdle(2);
    var start, queue := StartStandby(node, true, Done), CommitStandby(Unusable, Done);
    var request, commit, fill := Request("a", 0, node, true), Switching("a", GOOD), Fill(1, FILL);
    RunCons(s, start, [queue] + ([request] + (Moves("a", 10) + ([commit] + [fill]))));
    Started(s, node);
    var s1 := Next(s, start);
    RunCons(s1, queue, [request] + (Moves("a", 10) + ([commit] + [fill])));
    Queued(s, s1, n, node);
    var s2 := Next(s1, queue);
    RunCons(s2, request, Moves("a", 10) + ([commit] + [fill]));
    WaitingReserved(s, s2, node, n);
    var s3 := Next(s2, request);
    RunConcat(s3, Moves("a", 10), [commit] + [fill]);
    WaitingMoves(node, n);
    ReachesCommit((u, p) => Waiting(u, node, n, p), "a", s3);
    var s4 := Run(s3, Moves("a", 10));
    RunCons(s4, commit, [fill]);
    WaitingCommits(s4, node, n);
    RunOne(Next(s4, commit), fill);
    TakenFills(Next(s4, commit), node.id, n);
  }
}
