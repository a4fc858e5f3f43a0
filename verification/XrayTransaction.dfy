/**
 The Xray active set as a transaction (internal/xray/supervisor.go): apply a
 candidate set to the runtime, read it back, then commit the memory set, or put
 the old set back. The runtime is named here by the set of slots it routes;
 module XraySupervisor shows that the rule lists really mean those sets.
 */
module XrayTransaction {

  /** `memory` is the set of tags marked active; only slots below slotCount are ever sent to the runtime. */
  datatype Xray = Xray(slotCount: nat, memory: set<nat>, runtime: set<nat>)

  /** What the runtime did: took the candidate; refused it and took the old set back; or refused both. */
  datatype Outcome = Applied | Restored | Broken(runtime: set<nat>)

  datatype Reply = Reply(after: Xray, ok: bool)

  datatype Event = Activate(slot: nat, outcome: Outcome) | Drain(slot: nat, outcome: Outcome)
                 | Sync(slots: set<nat>, outcome: Outcome) | Crash

  function InRange(x: Xray, slots: set<nat>): set<nat> {
    set slot | slot in slots && slot < x.slotCount
  }

  /** Runtime after trying `candidate` from the present memory set. */
  function Attempt(x: Xray, candidate: set<nat>, outcome: Outcome): set<nat> {
    match outcome
    case Applied => InRange(x, candidate)
    case Restored => InRange(x, x.memory)
    case Broken(runtime) => runtime
  }

  /** DrainingSlot: a slot that is not active is a successful no-op. */
  function DrainSlot(x: Xray, slot: nat, outcome: Outcome): (r: Reply)
    ensures !r.ok ==> r.after.memory == x.memory
    ensures r.ok ==> r.after.memory == x.memory - {slot}
  {
    if slot !in x.memory then Reply(x, true)
    else
      var runtime := Attempt(x, InRange(x, x.memory) - {slot}, outcome);
      if outcome.Applied? then Reply(x.(memory := x.memory - {slot}, runtime := runtime), true)
      else Reply(x.(runtime := runtime), false)
  }

  /** ActivateSlot: a slot that is already active is a successful no-op. */
  function ActivateSlot(x: Xray, slot: nat, outcome: Outcome): (r: Reply)
    ensures !r.ok ==> r.after.memory == x.memory
    ensures r.ok ==> r.after.memory == x.memory + {slot}
  {
    if slot in x.memory then Reply(x, true)
    else
      var runtime := Attempt(x, InRange(x, x.memory) + {slot}, outcome);
      if outcome.Applied? then Reply(x.(memory := x.memory + {slot}, runtime := runtime), true)
      else Reply(x.(runtime := runtime), false)
  }

  /** SyncActiveSlots: rewrites every tag below slotCount and leaves the others alone. */
  function SyncSlots(x: Xray, slots: set<nat>, outcome: Outcome): (r: Reply)
    ensures !r.ok ==> r.after.memory == x.memory
    ensures r.ok ==> InRange(x, r.after.memory) == InRange(x, slots) == r.after.runtime
  {
    var runtime := Attempt(x, slots, outcome);
    if outcome.Applied? then
      var memory := (set slot | slot in x.memory && slot >= x.slotCount) + InRange(x, slots);
      assert InRange(x, memory) == InRange(x, slots);
      Reply(x.(memory := memory, runtime := runtime), true)
    else Reply(x.(runtime := runtime), false)
  }

  /** Crash: the process restarts from its static configuration, which routes nothing. */
  function Step(x: Xray, e: Event): Xray {
    match e
    case Activate(slot, outcome) => ActivateSlot(x, slot, outcome).after
    case Drain(slot, outcome) => DrainSlot(x, slot, outcome).after
    case Sync(slots, outcome) => SyncSlots(x, slots, outcome).after
    case Crash => x.(runtime := {})
  }

  function Run(x: Xray, events: seq<Event>): Xray {
    if events == [] then x else Step(Run(x, events[..|events| - 1]), events[|events| - 1])
  }

  /** Every rollback in the event succeeded. */
  predicate RollsBack(e: Event) {
    match e
    case Activate(_, outcome) => !outcome.Broken?
    case Drain(_, outcome) => !outcome.Broken?
    case Sync(_, outcome) => !outcome.Broken?
    case Crash => true
  }

  /** The runtime never routes a slot that the supervisor does not believe active. */
  predicate Contained(x: Xray) {
    x.runtime <= InRange(x, x.memory)
  }

  lemma StepKeepsContained(x: Xray, e: Event)
    requires Contained(x) && RollsBack(e)
    ensures Contained(Step(x, e)) && Step(x, e).slotCount == x.slotCount
  {
  }

  /** Over every run in which rollbacks succeed, the routed slots are among the remembered ones. */
  lemma {:induction false} RunKeepsContained(x: Xray, events: seq<Event>)
    requires Contained(x)
    requires forall k :: 0 <= k < |events| ==> RollsBack(events[k])
    ensures Contained(Run(x, events)) && Run(x, events).slotCount == x.slotCount
  {
    if events != [] {
      var prefix := events[..|events| - 1];
      assert forall k :: 0 <= k < |prefix| ==> prefix[k] == events[k];
      RunKeepsContained(x, prefix);
      StepKeepsContained(Run(x, prefix), events[|events| - 1]);
    }
  }

  /**
   A drain that reports success leaves the slot routed if and only if the slot was not remembered as active, so that
   nothing was done, and the runtime routed it all the same.
   */
  lemma DrainUnroutesUnlessForgotten(x: Xray, slot: nat, outcome: Outcome)
    requires DrainSlot(x, slot, outcome).ok
    ensures slot in DrainSlot(x, slot, outcome).after.runtime <==> slot !in x.memory && slot in x.runtime
  {
  }

  /** Over runs whose rollbacks succeed that never happens: a drain that reports success leaves the slot unrouted. */
  lemma SuccessfulDrainUnroutes(x: Xray, events: seq<Event>, slot: nat, outcome: Outcome)
    requires Contained(x)
    requires forall k :: 0 <= k < |events| ==> RollsBack(events[k])
    requires DrainSlot(Run(x, events), slot, outcome).ok
    ensures slot !in DrainSlot(Run(x, events), slot, outcome).after.runtime
  {
    RunKeepsContained(x, events);
    DrainUnroutesUnlessForgotten(Run(x, events), slot, outcome);
  }

  /** One failed rollback is enough for it: an activation is refused, and its slot stays in the runtime. */
  lemma BrokenRollbackDefeatsDrain() returns (x: Xray, e: Event)
    ensures Contained(x) && !RollsBack(e)
    ensures DrainSlot(Step(x, e), 1, Applied).ok && 1 in DrainSlot(Step(x, e), 1, Applied).after.runtime
  {
    x := Xray(3, {0}, {0});
    e := Activate(1, Broken({0, 1}));
  }

  /**
   After a crash the runtime routes nothing, and a slot that is still remembered stays unrouted: activating it reports
   success and does nothing. An activation that reports success routes the slot if and only if it was not remembered,
   or already routed.
   */
  lemma ActivationRoutesUnlessRemembered(x: Xray, slot: nat, outcome: Outcome)
    requires slot < x.slotCount && ActivateSlot(x, slot, outcome).ok
    ensures slot in ActivateSlot(x, slot, outcome).after.runtime <==> slot !in x.memory || slot in x.runtime
    ensures slot in x.memory ==> slot !in ActivateSlot(Step(x, Crash), slot, outcome).after.runtime
  {
  }

  /** Until the next synchronisation: a successful one routes exactly what was asked for, crash or no crash. */
  lemma SyncRepairs(x: Xray, slots: set<nat>)
    ensures var s := SyncSlots(Step(x, Crash), slots, Applied);
      s.ok && s.after == SyncSlots(x, slots, Applied).after && s.after.runtime == InRange(x, slots)
  {
  }
}
