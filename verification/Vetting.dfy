/**
 Vetting a discovery response with a pool of workers
 (internal/discovery/vetting.go:22-123): whatever the schedule and wherever the
 cancellation falls, every node is dealt with exactly once.
 */
module Vetting {
  import opened Wrappers
  import Fsm
  import Reputation

  /** The fields that vetting writes. */
  datatype Node = Node(id: string, status: Fsm.Status, repStatus: Reputation.Status, blacklisted: bool, details: string,
                       lastError: string, score: int)

  datatype Verdict = Verdict(status: Reputation.Status, hardReject: bool, reason: string)

  /** What the admission function returns for a node. */
  datatype Admission = Admission(result: Option<Verdict>, error: Option<string>, score: int)

  const PREFIX := "discovery reputation admission: "
  const UNAVAILABLE := "reputation admission function is unavailable"

  function ApplyResult(n: Node, result: Option<Verdict>): Node {
    match result
    case None => n
    case Some(v) => n.(repStatus := v.status, blacklisted := v.hardReject, details := v.reason)
  }

  /** A worker's result for one node. */
  function Vetted(n: Node, a: Admission): Node {
    var m := ApplyResult(n, a.result);
    match a.error
    case Some(e) =>
      var f := m.(status := Fsm.Failed, lastError := PREFIX + e);
      if f.details == "" then f.(repStatus := Reputation.Unknown, details := e) else f
    case None => m.(status := Fsm.ReputationChecked, lastError := "", score := a.score)
  }

  /** A rejected node keeps its credential only as a known hard rejection, for a probe in quarantine. */
  predicate LosesSecret(a: Admission) {
    a.error.Some? && (a.result.None? || !a.result.value.hardReject)
  }

  function Cancelled(n: Node, reason: string): Node {
    n.(status := Fsm.Failed, repStatus := Reputation.Unknown, details := reason, lastError := PREFIX + reason)
  }

  function Unavailable(n: Node): Node {
    n.(status := Fsm.Failed, repStatus := Reputation.Unknown, details := UNAVAILABLE, lastError := UNAVAILABLE)
  }

  /** What a worker writes into each field, and how an admission error shows. */
  lemma VettedMeans(n: Node, a: Admission)
    ensures var r := Vetted(n, a);
      && r.id == n.id
      && r.status == (if a.error.Some? then Fsm.Failed else Fsm.ReputationChecked)
      && r.lastError == (if a.error.Some? then "discovery reputation admission: " + a.error.value else "")
      && r.score == (if a.error.Some? then n.score else a.score)
      && r.blacklisted == (if a.result.Some? then a.result.value.hardReject else n.blacklisted)
    ensures a.result.Some? && (a.error.None? || a.result.value.reason != "") ==>
      Vetted(n, a).repStatus == a.result.value.status && Vetted(n, a).details == a.result.value.reason
    ensures a.result.Some? && a.error.Some? && a.result.value.reason == "" ==>
      Vetted(n, a).repStatus == Reputation.Unknown && Vetted(n, a).details == a.error.value
    ensures a.result.None? && a.error.Some? && n.details == "" ==>
      Vetted(n, a).repStatus == Reputation.Unknown && Vetted(n, a).details == a.error.value
    ensures a.result.None? && (a.error.None? || n.details != "") ==>
      Vetted(n, a).repStatus == n.repStatus && Vetted(n, a).details == n.details
  {
  }

  /** A node that no worker saw, or that cannot be judged at all, says so; its earlier judgement is not kept. */
  lemma UnseenMeans(n: Node, reason: string)
    ensures Cancelled(n, reason) == Node(n.id, Fsm.Failed, Reputation.Unknown, n.blacklisted, reason,
                                         "discovery reputation admission: " + reason, n.score)
    ensures var message := "reputation admission function is unavailable";
      Unavailable(n) == Node(n.id, Fsm.Failed, Reputation.Unknown, n.blacklisted, message, message, n.score)
  {
  }

  /** `dispatched` jobs reach a worker before the context is done; all of them when it never is. */
  function Outcome(ns: seq<Node>, answers: seq<Admission>, dispatched: nat, reason: string, i: nat): Node
    requires i < |ns| == |answers|
  {
    if i < dispatched then Vetted(ns[i], answers[i]) else Cancelled(ns[i], reason)
  }

  predicate Dropped(answers: seq<Admission>, dispatched: nat, i: nat)
    requires i < |answers|
  {
    i >= dispatched || LosesSecret(answers[i])
  }

  /** The number of workers: the one from 1 to 32 that is nearest to the configured one. */
  function Clamp(concurrency: int): (workers: nat)
    ensures 1 <= workers <= 32
    ensures concurrency < workers ==> workers == 1
    ensures concurrency > workers ==> workers == 32
  {
    if concurrency < 1 then 1 else if concurrency > 32 then 32 else concurrency
  }

  /** summarizeVetting. */
  method Summarize(nodes: array<Node>) returns (accepted: nat, rejected: nat)
    ensures accepted + rejected == nodes.Length
    ensures accepted == |set i | 0 <= i < nodes.Length && nodes[i].status.ReputationChecked?|
  {
    accepted, rejected := 0, 0;
    ghost var counted: set<int> := {};
    for i := 0 to nodes.Length
      invariant accepted + rejected == i && accepted == |counted|
      invariant counted == set k | 0 <= k < i && nodes[k].status.ReputationChecked?
    {
      if nodes[i].status.ReputationChecked? {
        accepted := accepted + 1;
        assert i !in counted;
        counted := counted + {i};
      } else {
        rejected := rejected + 1;
      }
    }
  }

  /** The workers deal with the dispatched jobs; the choices of the scheduler are left open. */
  method RunPool(nodes: array<Node>, workers: nat, answers: seq<Admission>, dispatched: nat, secrets: set<string>)
    returns (kept: set<string>, ghost peak: nat)
    requires |answers| == nodes.Length && dispatched <= nodes.Length && workers > 0
    modifies nodes
    ensures peak <= workers
    ensures forall i | 0 <= i < nodes.Length ::
      nodes[i] == if i < dispatched then Vetted(old(nodes[i]), answers[i]) else old(nodes[i])
    ensures forall id :: id in kept <==>
      id in secrets && forall i | 0 <= i < dispatched && old(nodes[i].id) == id :: !LosesSecret(answers[i])
  {
    hide Vetted, LosesSecret;
    ghost var ns := nodes[..];
    kept, peak := secrets, 0;
    var next := 0;
    var busy: set<int> := {};
    ghost var done: set<int> := {};
    while next < dispatched || busy != {}
      invariant 0 <= next <= dispatched && |busy| <= peak <= workers
      invariant busy !! done && forall i :: i in busy || i in done <==> 0 <= i < next
      invariant forall i | 0 <= i < nodes.Length :: nodes[i] == if i in done then Vetted(ns[i], answers[i]) else ns[i]
      invariant forall id :: id in kept <==> id in secrets && forall i | i in done && ns[i].id == id ::
          !LosesSecret(answers[i])
      decreases 2 * (dispatched - next) + |busy|
    {
      if {
        case next < dispatched && |busy| < workers =>
          busy := busy + {next};
          peak := if |busy| > peak then |busy| else peak;
          next := next + 1;
        case busy != {} =>
          var i :| i in busy;
          if LosesSecret(answers[i]) {
            kept := kept - {nodes[i].id};
          }
          nodes[i] := Vetted(nodes[i], answers[i]);
          busy := busy - {i};
          done := done + {i};
      }
    }
  }

  /** VetNodes with an admission function; `peak` is the largest number of nodes vetted at the same time. */
  method VetNodes(nodes: array<Node>, concurrency: int, answers: seq<Admission>, dispatched: nat, reason: string,
      secrets: set<string>)
    returns (accepted: nat, rejected: nat, kept: set<string>, ghost peak: nat)
    requires |answers| == nodes.Length && dispatched <= nodes.Length
    modifies nodes
    ensures peak <= 32 && (concurrency >= 1 ==> peak <= concurrency) && (concurrency < 1 ==> peak <= 1)
    ensures forall i | 0 <= i < nodes.Length :: nodes[i] == Outcome(old(nodes[..]), answers, dispatched, reason, i)
    ensures forall id :: id in kept <==>
      id in secrets && forall i | 0 <= i < nodes.Length && old(nodes[i].id) == id :: !Dropped(answers, dispatched, i)
    ensures accepted + rejected == nodes.Length
    ensures accepted == |set i | 0 <= i < nodes.Length && nodes[i].status.ReputationChecked?|
  {
    ghost var ns := nodes[..];
    kept, peak := RunPool(nodes, Clamp(concurrency), answers, dispatched, secrets);
    forall i | 0 <= i < nodes.Length ensures nodes[i].id == ns[i].id {}
    hide Vetted, LosesSecret;
    for j := dispatched to nodes.Length
      invariant forall i | 0 <= i < nodes.Length ::
        nodes[i] == if i < dispatched then Vetted(ns[i], answers[i]) else if i < j
            then Cancelled(ns[i], reason) else ns[i]
      invariant forall id :: id in kept <==> id in secrets && forall i | 0 <= i < j && ns[i].id == id ::
          !Dropped(answers, dispatched, i)
    {
      kept := kept - {nodes[j].id};
      nodes[j] := Cancelled(nodes[j], reason);
    }
    accepted, rejected := Summarize(nodes);
  }

  /** Without an admission function everything is rejected. */
  method VetNodesUnavailable(nodes: array<Node>, secrets: set<string>)
      returns (accepted: nat, rejected: nat, kept: set<string>)
    modifies nodes
    ensures forall i | 0 <= i < nodes.Length :: nodes[i] == Unavailable(old(nodes[i]))
    ensures forall id :: id in kept <==> id in secrets && forall i | 0 <= i < nodes.Length :: old(nodes[i].id) != id
    ensures accepted == 0 && rejected == nodes.Length
  {
    kept := secrets;
    for i := 0 to nodes.Length
      invariant forall k | 0 <= k < nodes.Length ::
          nodes[k] == if k < i then Unavailable(old(nodes[k])) else old(nodes[k])
      invariant forall id :: id in kept <==> id in secrets && forall k | 0 <= k < i :: old(nodes[k].id) != id
    {
      kept := kept - {nodes[i].id};
      nodes[i] := Unavailable(nodes[i]);
    }
    return 0, nodes.Length, kept;
  }

  /** Nobody is left undecided: every status ends REPUTATION_CHECKED or FAILED. */
  lemma EveryNodeDecided(ns: seq<Node>, answers: seq<Admission>, dispatched: nat, reason: string, i: nat)
    requires i < |ns| == |answers|
    ensures var s := Outcome(ns, answers, dispatched, reason, i).status;
      if i < dispatched && answers[i].error.None? then s == Fsm.ReputationChecked else s == Fsm.Failed
  {
  }

  /**
   With distinct identities a credential survives exactly for the nodes that were admitted or known as hard
   rejections.
   */
  lemma SecretSurvives(ns: seq<Node>, answers: seq<Admission>, dispatched: nat, reason: string, secrets: set<string>,
      kept: set<string>, i: nat)
    requires i < |ns| == |answers| && forall j, k | 0 <= j < k < |ns| :: ns[j].id != ns[k].id
    requires forall id :: id in kept <==> id in secrets && forall k | 0 <= k < |ns| && ns[k].id == id ::
        !Dropped(answers, dispatched, k)
    ensures ns[i].id in kept <==>
      && ns[i].id in secrets && i < dispatched
      && (Outcome(ns, answers, dispatched, reason, i).status.ReputationChecked? ||
          (answers[i].result.Some? && answers[i].result.value.hardReject))
  {
    hide Outcome, Dropped;
    EveryNodeDecided(ns, answers, dispatched, reason, i);
    DroppedMeans(answers, dispatched, i);
    forall k | 0 <= k < |ns| && ns[k].id == ns[i].id ensures k == i {}
  }

  lemma DroppedMeans(answers: seq<Admission>, dispatched: nat, i: nat)
    requires i < |answers|
    ensures !Dropped(answers, dispatched, i) <==>
      i < dispatched && (answers[i].error.None? || (answers[i].result.Some? && answers[i].result.value.hardReject))
  {
  }
}
