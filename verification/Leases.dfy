/**
 Generation leases on an egress slot (internal/scheduler/slot_controller.go).

 A controller hands out at most one lease per generation. The value type
 Controller and the functions Acquire, Release and Validates say what one call
 does; class SlotController does it in place; the lemmas are about whole histories
 of calls, including releases of leases that are long stale.
 */
module Leases {
  import opened Wrappers

  /** internal/scheduler/state.go; only the states that a controller is ever given. */
  datatype SlotState = Offline | Active | Draining | Failed

  datatype Controller = Controller(
    generation: nat,
    owner: string,
    operation: string,
    state: SlotState,
    activeTunnel: Option<nat>,
    drainingTunnel: Option<nat>,
    drainingTable: int,
    outboundActive: bool)

  datatype Lease = Lease(slot: nat, generation: nat, owner: string, operation: string)

  const NewController := Controller(0, "", "", Offline, None, None, 0, false)

  /** The controller after TryAcquire, and the lease it returned, if any. */
  function Acquire(c: Controller, slot: nat, owner: string, operation: string): (r: (Controller, Option<Lease>))
    ensures r.1.Some? <==> c.owner == ""
    ensures r.1.None? ==> r.0 == c
    ensures r.1.Some? ==> Validates(r.0, r.1.value) && r.0.generation > c.generation
  {
    if c.owner != "" then (c, None)
    else
      (c.(generation := c.generation + 1, owner := owner, operation := operation),
       Some(Lease(slot, c.generation + 1, owner, operation)))
  }

  function Release(c: Controller, lease: Lease): (r: Controller)
    ensures r == c || (r.owner == "" && Newest(c, lease))
  {
    if c.generation != lease.generation || c.operation != lease.operation then c
    else c.(owner := "", operation := "")
  }

  predicate Newest(c: Controller, lease: Lease) {
    c.generation == lease.generation && c.operation == lease.operation
  }

  predicate Validates(c: Controller, lease: Lease) {
    Newest(c, lease) && c.owner == lease.owner
  }

  class SlotController {
    const slot: nat
    var generation: nat
    var owner: string
    var operation: string
    var state: SlotState
    var activeTunnel: Option<nat>
    var drainingTunnel: Option<nat>
    var drainingTable: int
    var outboundActive: bool

    constructor (slot: nat)
      ensures this.slot == slot && View() == NewController
    {
      this.slot := slot;
      generation, owner, operation, state := 0, "", "", Offline;
      activeTunnel, drainingTunnel, drainingTable, outboundActive := None, None, 0, false;
    }

    ghost function View(): Controller
      reads this
    {
      Controller(generation, owner, operation, state, activeTunnel, drainingTunnel, drainingTable, outboundActive)
    }

    method TryAcquire(owner: string, operation: string) returns (lease: Option<Lease>)
      modifies this
      ensures (View(), lease) == Acquire(old(View()), slot, owner, operation)
    {
      if this.owner != "" {
        return None;
      }
      generation := generation + 1;
      this.owner := owner;
      this.operation := operation;
      lease := Some(Lease(slot, generation, owner, operation));
    }

    method ReleaseLease(lease: Lease)
      modifies this
      ensures View() == Release(old(View()), lease)
    {
      if generation != lease.generation || operation != lease.operation {
        return;
      }
      owner := "";
      operation := "";
    }

    method ValidateLease(lease: Lease) returns (valid: bool)
      ensures valid <==> Validates(View(), lease)
    {
      valid := generation == lease.generation && operation == lease.operation && owner == lease.owner;
    }
  }

  // ---- Histories ----

  /** A call on one controller; Free names any lease issued so far, stale or not, by position. */
  datatype Call = Take(owner: string, operation: string) | Free(which: nat)

  datatype History = History(controller: Controller, issued: seq<Lease>)

  function Replay(slot: nat, calls: seq<Call>): History {
    if calls == [] then History(NewController, [])
    else
      var h := Replay(slot, calls[..|calls| - 1]);
      match calls[|calls| - 1]
      case Take(owner, operation) =>
        var r := Acquire(h.controller, slot, owner, operation);
        History(r.0, if r.1.Some? then h.issued + [r.1.value] else h.issued)
      case Free(which) =>
        if which < |h.issued| then h.(controller := Release(h.controller, h.issued[which])) else h
  }

  /** The k-th lease ever issued carries generation k + 1, and the controller carries the latest. */
  lemma {:induction false} IssuedInOrder(slot: nat, calls: seq<Call>)
    ensures var h := Replay(slot, calls);
            && h.controller.generation == |h.issued|
            && (forall k :: 0 <= k < |h.issued| ==> h.issued[k].generation == k + 1)
            && (h.controller.owner == "" || (|h.issued| > 0 && Validates(h.controller, h.issued[|h.issued| - 1])))
  {
    if calls != [] {
      IssuedInOrder(slot, calls[..|calls| - 1]);
    }
  }

  /** Of all leases ever issued for the slot, no two validate at the same time. */
  lemma AtMostOneLeaseValid(slot: nat, calls: seq<Call>, i: nat, j: nat)
    requires var h := Replay(slot, calls); i < |h.issued| && j < |h.issued|
    requires Validates(Replay(slot, calls).controller, Replay(slot, calls).issued[i])
    requires Validates(Replay(slot, calls).controller, Replay(slot, calls).issued[j])
    ensures i == j
  {
    IssuedInOrder(slot, calls);
  }

  /** Releasing a superseded lease never frees the newer holder: it changes nothing at all. */
  lemma StaleReleaseIsIgnored(slot: nat, calls: seq<Call>, i: nat)
    requires i + 1 < |Replay(slot, calls).issued|
    ensures Replay(slot, calls + [Free(i)]) == Replay(slot, calls)
  {
    IssuedInOrder(slot, calls);
    assert (calls + [Free(i)])[..|calls|] == calls;
  }

  /** While a lease with a non-empty owner validates, every attempt to acquire is refused. */
  lemma HolderExcludesOthers(slot: nat, calls: seq<Call>, i: nat, owner: string, operation: string)
    requires i < |Replay(slot, calls).issued|
    requires Replay(slot, calls).issued[i].owner != ""
    requires Validates(Replay(slot, calls).controller, Replay(slot, calls).issued[i])
    ensures Replay(slot, calls + [Take(owner, operation)]) == Replay(slot, calls)
  {
    assert (calls + [Take(owner, operation)])[..|calls|] == calls;
  }
}
