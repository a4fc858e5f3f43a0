/**
 The node lifecycle (internal/scheduler/fsm.go): which statuses a node must pass on
 its way, over all runs, and what its failure counter counts.
 */
module Fsm {

  datatype Status =
    | New | Discovered | ReputationChecked | Connecting | HealthCheck | SpeedTest | Healthy | Qualified
    | Standby | Active | Draining | Failed | Cooldown | Dead | Stale

  /** AllowedTransitions. */
  predicate Allowed(from: Status, to: Status) {
    match from
    case New => to.Discovered? || to.Failed?
    case Discovered => to.ReputationChecked? || to.Failed? || to.Stale?
    case ReputationChecked => to.Connecting? || to.Healthy? || to.Qualified? || to.Failed?
    case Connecting => to.HealthCheck? || to.Healthy? || to.Failed?
    case HealthCheck => to.SpeedTest? || to.Healthy? || to.Qualified? || to.Failed?
    case Healthy => to.Connecting? || to.SpeedTest? || to.Qualified? || to.Failed?
    case SpeedTest => to.Qualified? || to.Failed?
    case Qualified => to.Connecting? || to.Standby? || to.Active? || to.Failed?
    case Standby => to.Active? || to.Failed? || to.Dead?
    case Active => to.Draining? || to.Failed? || to.Dead?
    case Draining => to.Failed? || to.Dead?
    case Failed => to.Cooldown? || to.Dead? || to.Discovered? || to.Connecting?
    case Cooldown => to.Discovered? || to.Dead?
    case Stale => to.Discovered? || to.Dead?
    case Dead => to.Discovered?
  }

  /** CanTransition: staying is always allowed. */
  predicate CanTransition(from: Status, to: Status) {
    from == to || Allowed(from, to)
  }

  /** The table read the other way round: from where each status can be entered, other than from itself. */
  lemma Entrances(from: Status)
    ensures !Allowed(from, New)
    ensures Allowed(from, Discovered) <==> from in {New, Failed, Cooldown, Stale, Dead}
    ensures (Allowed(from, ReputationChecked) <==> from == Discovered) && (Allowed(from, Stale) <==> from == Discovered)
    ensures Allowed(from, Connecting) <==> from in {ReputationChecked, Healthy, Qualified, Failed}
    ensures Allowed(from, HealthCheck) <==> from == Connecting
    ensures Allowed(from, SpeedTest) <==> from in {HealthCheck, Healthy}
    ensures Allowed(from, Healthy) <==> from in {ReputationChecked, Connecting, HealthCheck}
    ensures Allowed(from, Qualified) <==> from in {ReputationChecked, HealthCheck, Healthy, SpeedTest}
    ensures Allowed(from, Standby) <==> from == Qualified
    ensures Allowed(from, Active) <==> from in {Qualified, Standby}
    ensures Allowed(from, Draining) <==> from == Active
    ensures Allowed(from, Failed) <==> from !in {Failed, Cooldown, Stale, Dead}
    ensures Allowed(from, Cooldown) <==> from == Failed
    ensures Allowed(from, Dead) <==> from in {Standby, Active, Draining, Failed, Cooldown, Stale}
  {
  }

  /** The statuses of a node one after the other. */
  ghost predicate Path(p: seq<Status>) {
    |p| > 0 && forall k | 0 < k < |p| :: CanTransition(p[k - 1], p[k])
  }

  predicate InService(s: Status) {
    s.Qualified? || s.Standby? || s.Active?
  }

  /** The service statuses are entered through QUALIFIED only. */
  lemma {:induction false} ServiceStartsQualified(p: seq<Status>, k: nat) returns (q: nat)
    requires Path(p) && k < |p| && !InService(p[0]) && InService(p[k])
    ensures 0 < q <= k && p[q].Qualified? && !InService(p[q - 1])
  {
    if InService(p[k - 1]) {
      q := ServiceStartsQualified(p, k - 1);
    } else {
      assert CanTransition(p[k - 1], p[k]);
      q := k;
    }
  }

  /** Hence a node from outside is never ACTIVE without having been QUALIFIED on the way. */
  lemma ActiveWasQualified(p: seq<Status>, k: nat)
    requires Path(p) && k < |p| && !InService(p[0]) && p[k].Active?
    ensures exists q :: 0 < q < k && p[q].Qualified?
  {
    var q := ServiceStartsQualified(p, k);
  }

  /** Before its reputation is checked or its endpoint probed, a node is only known, failed or put aside. */
  predicate Unchecked(s: Status) {
    s.New? || s.Discovered? || s.Failed? || s.Cooldown? || s.Stale? || s.Dead?
  }

  predicate Checks(from: Status, to: Status) {
    to.ReputationChecked? || (from.Failed? && to.Connecting?)
  }

  /** Every way out of those statuses is a reputation check or the probe of a failed endpoint. */
  lemma {:induction false} LeavesByCheck(p: seq<Status>, k: nat) returns (c: nat)
    requires Path(p) && k < |p| && Unchecked(p[0]) && !Unchecked(p[k])
    ensures 0 < c <= k && Checks(p[c - 1], p[c])
  {
    if Unchecked(p[k - 1]) {
      assert CanTransition(p[k - 1], p[k]);
      c := k;
    } else {
      c := LeavesByCheck(p, k - 1);
    }
  }

  lemma QualifiedWasChecked(p: seq<Status>, k: nat)
    requires Path(p) && k < |p| && (p[0].New? || p[0].Discovered?) && p[k].Qualified?
    ensures exists c :: 0 < c < k && (p[c].ReputationChecked? || (p[c - 1].Failed? && p[c].Connecting?))
  {
    var c := LeavesByCheck(p, k);
  }

  /** A draining node stays so until it has failed or is dead. */
  lemma {:induction false} DrainingEnds(p: seq<Status>, k: nat)
    requires Path(p) && k < |p| && p[0].Draining?
    ensures p[k].Draining? || exists f :: 0 < f <= k && (p[f].Failed? || p[f].Dead?)
  {
    if k > 0 {
      DrainingEnds(p, k - 1);
      assert CanTransition(p[k - 1], p[k]);
    }
  }

  // ---- One node ----

  /** A change that a caller asks for; the database may refuse to store it. */
  datatype Attempt = Attempt(target: Status, stored: bool)

  datatype Life = Life(status: Status, failCount: int, secret: bool)

  function Try(n: Life, a: Attempt): Life {
    if !CanTransition(n.status, a.target) then n
    else
      Life(if a.stored then a.target else n.status,
           if a.target.Failed? then n.failCount + 1 else n.failCount,
           n.secret && !a.target.Failed? && !a.target.Dead?)
  }

  class Node {
    var status: Status
    var failCount: int
    var hasSecret: bool

    constructor (status: Status, failCount: int, hasSecret: bool)
      ensures View() == Life(status, failCount, hasSecret)
    {
      this.status, this.failCount, this.hasSecret := status, failCount, hasSecret;
    }

    ghost function View(): Life
      reads this
    {
      Life(status, failCount, hasSecret)
    }

    /** TransitionNode: the counter and the credential change before the database is asked. */
    method TransitionNode(target: Status, stored: bool) returns (ok: bool)
      modifies this
      ensures View() == Try(old(View()), Attempt(target, stored))
      ensures ok <==> CanTransition(old(status), target) && stored
      ensures status == if ok then target else old(status)
      ensures failCount == old(failCount) + if target.Failed? && CanTransition(old(status), Failed) then 1 else 0
      ensures hasSecret <==>
        old(hasSecret) && !(target in {Failed, Dead} && CanTransition(old(status), target))
    {
      if !CanTransition(status, target) {
        return false;
      }
      if target.Failed? {
        failCount := failCount + 1;
      }
      if target.Failed? || target.Dead? {
        hasSecret := false;
      }
      if !stored {
        return false;
      }
      status := target;
      return true;
    }
  }

  function Live(n: Life, attempts: seq<Attempt>): Life {
    if attempts == [] then n else Try(Live(n, attempts[..|attempts| - 1]), attempts[|attempts| - 1])
  }

  /** The statuses that the node has after each attempt. */
  function Statuses(n: Life, attempts: seq<Attempt>): (p: seq<Status>)
    ensures |p| == |attempts| + 1
  {
    if attempts == [] then [n.status]
    else Statuses(n, attempts[..|attempts| - 1]) + [Live(n, attempts).status]
  }

  /** Whatever is attempted, the statuses form a path. */
  lemma {:induction false} LivesArePaths(n: Life, attempts: seq<Attempt>)
    ensures Path(Statuses(n, attempts)) && Statuses(n, attempts)[|attempts|] == Live(n, attempts).status
  {
    if attempts != [] {
      LivesArePaths(n, attempts[..|attempts| - 1]);
    }
  }

  /** The attempts given to the database, and those that it stored. */
  ghost predicate Permitted(n: Life, attempts: seq<Attempt>, k: nat) {
    k < |attempts| && CanTransition(Live(n, attempts[..k]).status, attempts[k].target)
  }

  /** All but the last attempt are judged as they were without it. */
  lemma PermittedBefore(n: Life, attempts: seq<Attempt>, k: nat)
    requires attempts != [] && k < |attempts| - 1
    ensures Permitted(n, attempts, k) <==> Permitted(n, attempts[..|attempts| - 1], k)
  {
    assert attempts[..|attempts| - 1][..k] == attempts[..k];
  }

  ghost predicate GivesUp(n: Life, attempts: seq<Attempt>, k: nat) {
    Permitted(n, attempts, k) && attempts[k].target in {Failed, Dead}
  }

  /** The credential lasts until the first permitted move to FAILED or DEAD, stored or not. */
  lemma {:induction false} SecretUntilFailure(n: Life, attempts: seq<Attempt>)
    ensures Live(n, attempts).secret <==> n.secret && forall k: nat :: !GivesUp(n, attempts, k)
  {
    if attempts != [] {
      var m := |attempts| - 1;
      var before := attempts[..m];
      SecretUntilFailure(n, before);
      forall k: nat ensures GivesUp(n, attempts, k) <==>
          GivesUp(n, before, k) || (k == m && GivesUp(n, attempts, m)) {
        if k < m { PermittedBefore(n, attempts, k); }
      }
      assert GivesUp(n, attempts, m) <==>
          attempts[m].target in {Failed, Dead} && CanTransition(Live(n, before).status, attempts[m].target);
      assert Live(n, attempts) == Try(Live(n, before), attempts[m]);
    }
  }

  ghost predicate Succeeds(n: Life, attempts: seq<Attempt>, k: nat) {
    Permitted(n, attempts, k) && attempts[k].stored
  }

  /** The status is the target of the last attempt that was permitted and stored, and the first status without one. */
  lemma {:induction false} StatusIsLastSuccess(n: Life, attempts: seq<Attempt>)
    ensures (forall k: nat :: !Succeeds(n, attempts, k)) ==> Live(n, attempts).status == n.status
    ensures forall k: nat | Succeeds(n, attempts, k) && (forall j: nat | k < j :: !Succeeds(n, attempts, j)) ::
      Live(n, attempts).status == attempts[k].target
  {
    if attempts != [] {
      var m := |attempts| - 1;
      var before := attempts[..m];
      StatusIsLastSuccess(n, before);
      forall k: nat | k < m ensures Succeeds(n, attempts, k) <==> Succeeds(n, before, k) {
        PermittedBefore(n, attempts, k);
      }
      assert Live(n, attempts) == Try(Live(n, before), attempts[m]);
      if Succeeds(n, attempts, m) {
      } else {
        forall k: nat ensures Succeeds(n, attempts, k) <==> Succeeds(n, before, k) {}
      }
    }
  }

  /** How many attempts are allowed moves to FAILED, those that stay there included. */
  function Failures(n: Life, attempts: seq<Attempt>): nat {
    if attempts == [] then 0
    else
      var before := attempts[..|attempts| - 1];
      var last := attempts[|attempts| - 1];
      Failures(n, before) + if last.target.Failed? && CanTransition(Live(n, before).status, Failed) then 1 else 0
  }

  /** The counter counts them all, whether or not the database stored them. */
  lemma {:induction false} FailCountCounts(n: Life, attempts: seq<Attempt>)
    ensures Live(n, attempts).failCount == n.failCount + Failures(n, attempts)
  {
    if attempts != [] {
      FailCountCounts(n, attempts[..|attempts| - 1]);
    }
  }

  /** Those among them that succeed. */
  function Successes(n: Life, attempts: seq<Attempt>): nat {
    if attempts == [] then 0
    else
      var before := attempts[..|attempts| - 1];
      var last := attempts[|attempts| - 1];
      Successes(n, before) + if last.target.Failed? && last.stored &&
          CanTransition(Live(n, before).status, Failed) then 1 else 0
  }

  ghost predicate RefusedFailure(n: Life, attempts: seq<Attempt>, k: nat) {
    && k < |attempts| && attempts[k].target.Failed? && !attempts[k].stored
    && CanTransition(Live(n, attempts[..k]).status, Failed)
  }

  lemma {:induction false} SuccessesAtMost(n: Life, attempts: seq<Attempt>)
    ensures Successes(n, attempts) <= Failures(n, attempts)
    ensures Successes(n, attempts) == Failures(n, attempts) <==> forall k: nat :: !RefusedFailure(n, attempts, k)
  {
    if attempts != [] {
      var m := |attempts| - 1;
      var before := attempts[..m];
      SuccessesAtMost(n, before);
      forall k: nat ensures RefusedFailure(n, attempts, k) <==>
          RefusedFailure(n, before, k) || (k == m && RefusedFailure(n, attempts, m)) {
        if k < m { assert before[..k] == attempts[..k]; }
      }
      assert attempts[..m] == before;
      assert RefusedFailure(n, attempts, m) <==>
          Failures(n, attempts) - Failures(n, before) > Successes(n, attempts) - Successes(n, before);
      if Successes(n, before) != Failures(n, before) {
        var k: nat :| RefusedFailure(n, before, k);
        assert RefusedFailure(n, attempts, k);
      } else {
        assert forall k: nat :: RefusedFailure(n, attempts, k) ==> k == m;
      }
    }
  }

  /** So it equals the number of successful transitions to FAILED exactly when the database refused none of them. */
  lemma FailCountIsSuccesses(n: Life, attempts: seq<Attempt>)
    requires n.failCount == 0
    ensures Live(n, attempts).failCount == Successes(n, attempts) <==> forall k: nat :: !RefusedFailure(n, attempts, k)
  {
    FailCountCounts(n, attempts);
    SuccessesAtMost(n, attempts);
  }
}
