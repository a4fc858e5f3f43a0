# Super-Proxy: a verified model of the control plane

Super-Proxy keeps a small set of egress slots filled with OpenVPN tunnels and swaps
tunnels under live traffic. Three views of the slots have to stay in step: the
scheduler's maps, the Xray supervisor's active set, and what the Xray process and the
kernel routing tables really do. This project models that control plane and the
decisions that feed it, and proves what they guarantee and exactly where a guarantee
stops.

## How it is organised

- **Control plane as a state machine.** `ControlPlane` defines one step per
  lock-protected region and per unlocked command of a manual switch; health checks,
  commands, conntrack and the clock are inputs, and the steps of all actors interleave
  freely. `Invariant` proves an inductive invariant, `Effects` what single operations
  do, `Theorems` and `Runs` the all-or-nothing switch, its termination and its
  isolation, `Routes` where the slot tables point, `Accounts` that tunnels are not lost
  but in one way, `XrayProjection` that the whole is a run of the Xray transaction,
  `XrayWindow` what Xray remembers of a slot between activation and commit,
  `NodeSharing` when a node stays on one slot, `DrainRecords` when the controllers agree
  with the draining map, `Gates` what a request and a switch have to pass, `Commands`
  what each operation writes where, `Witnesses` runs the code does not prevent.
- **The same code in place.** `Scheduling.Scheduler` and module `Operations` change
  fields step by step as the Go code does, loops, early exits and rollbacks included,
  and are proved equal to the steps of the state machine. `CleanupPass` describes a
  cleanup pass independently of map order. `Leases` is the slot controller.
- **Xray.** `XrayTransaction` is the candidate, apply, read back, commit or roll back
  protocol on sets of slots. `Balancers`, `XrayRules` and `XrayReadBack` give rule lists
  and balancers a first-match meaning; `XraySupervisor` runs the protocol on actual
  rules. `Decimal` has the numerals inside tags.
- **OpenVPN configurations.** `Text`, `OvpnConfig` (parser and printer), `OvpnRoundTrip`,
  `OvpnMeaning` (what an accepted text means) and `OvpnAcceptance` (which texts are
  accepted; with the former, the parser without its scanner).
- **Reputation.** `Reputation` (merge, policy, admission) and `ReputationCache` (expiry,
  durable evidence).
- **Supporting protocols.** `KernelRouting`, `Endpoints`, `Vetting`, `Persistence`,
  `Migration`, `Fsm`.

`dafny verify dfyconfig.toml` checks everything. In the state machine a tunnel is named
by its interface number; `place` is a history variable that says which map, queue,
worker or switch holds it, or that it was stopped or lost.

## Where the code and its comments differ

- The comment on the manual switch (internal/agentapi/operations.go:102-106) promises
  that the old tunnel is undisturbed until an atomic cutover. The cutover is not atomic
  with the commit: between them a cleanup timeout on an empty slot closes the table that
  the candidate has just been given (`Routes.EmptySlotRace`), and a reconcile that
  synchronises makes Xray forget the empty slot it has just activated
  (`XrayWindow.EmptySlotForgotten`).
- "Atomic" activation (internal/scheduler/scheduler.go:385) does nothing for a slot
  that is still remembered after a crash of Xray
  (`XrayTransaction.ActivationRoutesUnlessRemembered`); the next synchronisation repairs it.
- "Strictly" verified read-back (internal/xray/supervisor.go:762-763) cannot tell two
  balancing rules apart when `lsrules` omits the balancer
  (`XrayReadBack.ReadBackAccepts`); a comment in the code admits the omission.
- UNKNOWN decisions are said not to be reused (internal/reputation/engine.go:259-261).
  That holds for durable evidence; an UNKNOWN answer without an error does enter the
  provider cache, and a partly failed aggregate the aggregate cache.
- The slot reset is called fail-closed (internal/routing/route.go:66-67), and always
  returns nil. It closes the slot if and only if the mark's rule is there afterwards and
  the table holds the unreachable route; refusals of the flush, of that route and of the
  rule are all discarded (`KernelRouting.Kernel.ClearSlotRouting`).
- The printed configuration is called canonical (internal/discovery/vpngate_ovpn.go:105),
  but the parser rejects it because of `route-nopull`.

## Model

| member | source | states |
|---|---|---|
| Invariant.StepInv | internal/scheduler/scheduler.go:319-612 | each step of each actor keeps the whole invariant: tunnel places, bounds, draining records, /24 diversity, leases, overrides, controller agreement |
| Invariant.RunInv | internal/scheduler/scheduler.go:319-612 | so does every finite interleaving of all steps |
| Routes.EveryReachableState | internal/scheduler/scheduler.go:319-555 | in every state reachable from the initial one: slots below MaxActive, standby within MaxStandby, no tunnel held twice, exits of different nodes share no /24, draining records with one key set and table 200 + slot, controllers agree with the active map off overridden slots |
| Theorems.ReachableInv | internal/scheduler/scheduler.go:319-612 | the invariant holds after every run from the initial state |
| Routes.InitialRoutes | internal/scheduler/scheduler.go:51-78 | the initial tables agree with the empty maps |
| Theorems.InvMeansHeldOnce | internal/scheduler/scheduler.go:350-411 | active, draining and standby tunnels are pairwise distinct objects |
| Theorems.InvMeansExitsApart | internal/scheduler/diversity.go:22-58 | any two active or standby tunnels of different nodes have disjoint /24 prefixes |
| Invariant.DiverseMeansNoClash | internal/scheduler/diversity.go:22-58 | what passing the check at a commit buys: no clash with any exposed tunnel outside the excluded slot |
| Runs.SwitchIsAllOrNothing | internal/agentapi/operations.go:107-334 | over any interleaved run a succeeded switch has exactly one takeover step and all its other steps keep both maps; a pending or rejected one has none |
| Theorems.SwitchStep | internal/agentapi/operations.go:276-334 | one step of a switch is a takeover (candidate on the slot, found tunnel draining) or leaves both maps alone; a verdict is final |
| Runs.VerdictIsFinal | internal/agentapi/operations.go:75-83 | once Succeeded or Rejected, a switch stays so in every continuation |
| Runs.OthersKeepSlot | internal/scheduler/scheduler.go:325-354 | while a switch is under way no other actor changes its slot's tunnel, override or lease, nor its table unless a drain times out on the empty slot |
| Runs.StepElsewhere | internal/scheduler/scheduler.go:319-612 | a step that does not concern a slot leaves its tunnel, override, authority, switches and table as they were |
| Runs.SwitchEnds | internal/agentapi/operations.go:107-340 | sixteen own moves after its reservation, on whatever path, a switch is finished |
| Runs.AdvanceDescends | internal/agentapi/operations.go:107-334 | every move follows the control flow and gets strictly closer to the end |
| Runs.HeldExactlyWhileSwitching | internal/agentapi/handlers_write.go:85-141 | a slot is overridden iff an unfinished switch is on it, leased iff that switch has not released; there is at most one |
| Runs.NeverPreempted | internal/agentapi/operations.go:135-235 | both lease checks of a switch always pass in reachable states |
| Runs.NoSecondReservation | internal/agentapi/handlers_write.go:84-131 | a request for a slot with an unfinished switch is refused and changes nothing |
| Runs.TakeoverHolds | internal/agentapi/operations.go:295-334 | from commit to release the candidate is the tunnel of the slot, and once published the controller says so |
| Runs.SameNodeReservedTwice | internal/agentapi/handlers_write.go:109-116 | reserving a node on one slot does not change whether it is reservable on another |
| Routes.RunRoutes | internal/agentapi/operations.go:237-340 | over runs whose rollback commands succeed and in which no cleanup closes a slot between cutover and commit, every active slot's table leads to its tunnel outside that window |
| Routes.RolledBackSwitch | internal/agentapi/operations.go:252-334 | a rolled-back switch leaves the slot with the tunnel it found and the table at it, or closed when it found none |
| Routes.SucceededSwitch | internal/agentapi/operations.go:252-334 | a succeeded switch leaves the slot and its table at the candidate |
| Routes.WindowTable | internal/scheduler/scheduler.go:571-582 | between cutover and commit others change the slot table iff a drain timeout closes the empty slot |
| Routes.EmptySlotRace | internal/scheduler/scheduler.go:571-582 | after a successful commit the table leads to the candidate iff no such timeout fell into the window; otherwise the active slot is closed |
| Witnesses.ActiveSlotClosed | internal/scheduler/scheduler.go:571-582 | a run from the initial state that ends with an active slot whose table is unreachable |
| XrayWindow.WindowMemory | internal/scheduler/scheduler.go:413-436 | between the activation of a switch's slot in Xray and its commit, only an applied synchronisation changes whether the slot is remembered, and it goes by the tunnel then active there |
| XrayWindow.CommitAfterSyncs | internal/agentapi/operations.go:237-298 | so after a successful commit the slot is remembered iff it was at first, or as the last applied synchronisation found it |
| XrayWindow.EmptySlotForgotten | internal/agentapi/operations.go:237-298 | on an empty slot: remembered iff no applied synchronisation fell into the window; otherwise active and, where the runtime routes only remembered slots, not routed |
| XrayWindow.ActivatedIsRemembered | internal/agentapi/operations.go:237-250 | the window opens with the slot remembered |
| Witnesses.ActiveSlotForgotten | internal/scheduler/scheduler.go:413-436 | a run from the initial state in which every command succeeds and the active slot is unknown to Xray |
| NodeSharing.StepKeepsApart | internal/scheduler/scheduler.go:355-400 | when no two active slots carry one node, a step keeps it so iff it does not seat a tunnel - a promotion that goes through, or a commit - while another active slot carries its node |
| NodeSharing.RunKeepsApart | internal/agentapi/handlers_write.go:109-116 | in every run no node is on two slots up to some point iff no step before it seats one twice |
| NodeSharing.InitiallyApart | internal/scheduler/scheduler.go:51-78 | no node is on two slots at the start |
| NodeSharing.CommitSucceedsExactly | internal/agentapi/operations.go:276-316 | a commit goes through iff the final /24 check passes and a tunnel found on the slot can be preserved |
| Witnesses.NodeOnTwoSlots | internal/agentapi/handlers_write.go:109-116 | a run from the initial state, two granted requests, that ends with one node on two active slots |
| Witnesses.NodeSwitchedAndPromoted | internal/agentapi/handlers_write.go:103-116 | another: a switch to a node that waits in the standby queue, then the promotion of the waiting tunnel |
| DrainRecords.StepRecords | internal/scheduler/scheduler.go:532-612 | exactly when the controller of a slot names the tunnel of the draining map after a step |
| DrainRecords.AgreementLost | internal/scheduler/scheduler.go:464-582 | the agreement is lost exactly by a drain that times out, and by retiring the tunnel of a slot that is draining |
| DrainRecords.RunRecords | internal/scheduler/scheduler.go:464-582 | in every run the two records of a slot agree up to some point iff no step before it parts them |
| DrainRecords.InitiallyAgree | internal/scheduler/scheduler.go:51-78 | they agree at the start |
| Witnesses.GoodMove | internal/agentapi/operations.go:107-276 | a switch onto an empty slot whose inputs are good always moves on to the next phase |
| Gates.NextPhase | internal/agentapi/operations.go:111-276 | one move before the commit: a switch goes on to the next phase iff its gate is passed - admission, node found and not on the slot already, tunnel started, candidate routed, health and exit admission, no shared /24, Xray activated, cutover routed - and otherwise to the phase that undoes as much as it has done |
| Gates.CommitPasses | internal/agentapi/operations.go:276-316 | the commit succeeds iff no other active or standby node shares a /24 and a tunnel found on the slot can be preserved |
| Gates.SuccessPassedAll | internal/agentapi/operations.go:107-334 | in every run a switch that has succeeded, or is still on its way, has passed every gate at every own move before |
| Gates.DiverseMeans | internal/scheduler/diversity.go:22-72 | the locked diversity check on addresses: some address is known, and none differs only in the last octet from one of another active or standby node, the excluded slot left out |
| Gates.ReservableMeans | internal/agentapi/handlers_write.go:84-131 | in reachable states a request is granted iff the slot is in range and free, the node eligible, on no active slot, and apart from all others |
| Commands.RunCarriesTarget | internal/agentapi/operations.go:107-334 | in every run a switch that has succeeded has given its slot a tunnel of the very node that was asked for |
| Commands.LaterPhase | internal/agentapi/operations.go:276-340 | from the commit on: which way a switch goes, how a rollback proceeds, and when it is final |
| Commands.RecordMeans | internal/agentapi/operations.go:107-334 | what a switch has on record after each move: the tunnel found, the candidate, the cutover |
| Commands.TunnelsMean | internal/agentapi/operations.go:139-215 | a candidate is started under the next number with the target node, learns its observed exit, and is stopped by a rollback |
| Commands.TablesMean | internal/agentapi/operations.go:161-274 | which of tables 100 + candidate and 100 + slot each move writes, and what is in them when the command fails |
| Commands.CommitMeans | internal/agentapi/operations.go:276-316 | a commit seats the candidate and drains the tunnel it replaces under table 200 + slot, or leaves all maps as they were |
| Commands.FailedCommitTables | internal/agentapi/operations.go:298-312 | a commit that cannot preserve the replaced tunnel points the slot back at it |
| Commands.EndMeans | internal/agentapi/operations.go:318-340 | publishing tells the controller of the new tunnel; then lease and override are given back, nothing else |
| Commands.RequestMeans | internal/agentapi/handlers_write.go:119-141 | a granted request takes the next generation of the slot's lease and its override, and records a switch that has not begun; a refused one changes nothing |
| Commands.DrainTells | internal/scheduler/scheduler.go:464-555 | the controller after a drain, a retired tunnel and a drain that was undone |
| Commands.DrainRoutes | internal/scheduler/scheduler.go:447-530 | which table a drain writes, and what is in it when the command fails |
| Commands.ReplacementMeans | internal/scheduler/scheduler.go:94-132 | preserving a replaced tunnel: refused on a draining slot, undone by a failed route, recorded otherwise |
| Commands.CleanupMeans | internal/scheduler/scheduler.go:558-611 | a drain ends iff it is more than 30 s old or its connections are known to be none; which maps, controller and tables change |
| Commands.PromotionMeans | internal/scheduler/scheduler.go:359-407 | the head of the queue is seated iff it is up, routed and activated, and stopped otherwise; controller and table either way |
| Commands.StartStandbyMeans | internal/scheduler/scheduler.go:629-717 | every attempt takes the next number, started or not |
| Commands.CommitStandbyMeans | internal/scheduler/scheduler.go:826-841 | a qualified tunnel joins the end of the queue iff its node keeps apart from all others |
| Effects.RefusedDrain | internal/scheduler/scheduler.go:447-458 | a drain refused by Xray changes no map, controller, tunnel or table, nor the remembered set |
| Effects.RestoredDrain | internal/scheduler/scheduler.go:500-530 | a failed draining route leaves the tunnel up on its slot; Xray remembers what it did iff reactivation succeeded |
| Effects.RetiredDrain | internal/scheduler/scheduler.go:464-498 | a tunnel whose process is gone is stopped and its slot emptied, closed and marked failed; nothing else moves |
| Effects.CompletedDrain | internal/scheduler/scheduler.go:500-555 | otherwise the tunnel drains under table 200 + slot with the controller told, and a tunnel already draining there is lost |
| Accounts.LostExactlyByOverwrite | internal/scheduler/scheduler.go:532-540 | a step loses a tunnel iff it is a health-check drain that completes on a slot where that tunnel is draining |
| Accounts.EveryTunnelAccounted | internal/scheduler/scheduler.go:319-612 | in a run without such an overwrite every tunnel ever started is in exactly one holder or stopped |
| Witnesses.DrainingTunnelLost | internal/scheduler/scheduler.go:532-540 | a run from the initial state that loses a draining tunnel |
| CleanupPass.TurnAddsUp | internal/scheduler/scheduler.go:562-611 | turns on different slots add up to the same state in any order |
| Scheduling.Scheduler.CleanupDrainingSlots | internal/scheduler/scheduler.go:558-612 | one pass in any order keeps a tunnel iff it drained for at most 30 s and its count is unknown or positive, and says what happens to maps, tunnels, controllers and tables |
| Scheduling.Scheduler.constructor | internal/scheduler/scheduler.go:51-78 | a new scheduler has empty maps, an idle controller for each slot, and hands out numbers from MaxActive + MaxStandby + 11 on |
| Scheduling.Scheduler.TransitionToDraining | internal/scheduler/scheduler.go:447-555 | the in-place drain computes the drain step, marking order included |
| Scheduling.Scheduler.DrainReplacedTunnel | internal/scheduler/scheduler.go:94-132 | refuses rather than overwrites; otherwise records the drain without touching the active slot |
| Scheduling.Scheduler.CleanupOne | internal/scheduler/scheduler.go:562-611 | one slot's turn in the cleanup |
| Scheduling.Scheduler.PromoteStandby | internal/scheduler/scheduler.go:359-407 | promotion of the queue head, with the rollback of each failure |
| Scheduling.Scheduler.LiveActiveSlots | internal/scheduler/scheduler.go:414-430 | collects exactly the active slots whose tunnel is up and not exited, in order |
| Scheduling.Scheduler.ReconcileActiveSlots | internal/scheduler/scheduler.go:319-437 | one pass is exactly one health check for each slot active at its start and not overridden, in some order, then a fill for each slot in ascending order that is empty, not overridden and finds the queue not empty, then one synchronisation; afterwards a slot is still empty only if overridden, if the queue is empty, or if the tunnel it was given failed; overridden slots are untouched |
| Scheduling.FilledSlots | internal/scheduler/scheduler.go:355-411 | that effect of the fills, by their order |
| Scheduling.Scheduler.NodePrefixes | internal/scheduler/diversity.go:60-72 | the keys are exactly the /24 prefixes of the three addresses, each mapped to one of them |
| Scheduling.Scheduler.PrefixConflict | internal/scheduler/diversity.go:47-58 | conflict iff the nodes differ and share a prefix |
| Scheduling.Scheduler.CheckPrefixDiversity | internal/scheduler/diversity.go:22-45 | nil iff the candidate has a prefix and conflicts with no active or standby tunnel but the excluded slot's |
| Scheduling.Scheduler.StartStandby | internal/scheduler/scheduler.go:629-717 | a new number for each attempt; a started tunnel is routed in a table of its own number |
| Scheduling.Scheduler.CommitStandby | internal/scheduler/scheduler.go:826-841 | the final /24 check under the lock, then queued or stopped |
| Scheduling.Scheduler.ReserveSlot | internal/agentapi/handlers_write.go:82-131 | granted iff the slot is in range and free, the node eligible and on no active slot, and no active tunnel of another slot and no standby tunnel of another node shares a /24 with it; the whole reservation or nothing |
| Operations.CommitSwitch | internal/agentapi/operations.go:276-316 | the locked commit in place, with its own rollback when the old tunnel cannot be preserved |
| Operations.AdvanceSwitch | internal/agentapi/operations.go:111-334 | each region or command, in place, is the step the state machine takes |
| Operations.ExecuteManualSwitch | internal/agentapi/operations.go:107-340 | with any steps of others in between: it ends with a verdict, slot and lease free, and was all or nothing; it succeeds only if every check and command before the commit answered well |
| Leases.IssuedInOrder | internal/scheduler/slot_controller.go:56-81 | the k-th lease issued has generation k; a held controller validates the latest |
| Leases.AtMostOneLeaseValid | internal/scheduler/slot_controller.go:56-106 | of all leases ever issued no two validate at once |
| Leases.StaleReleaseIsIgnored | internal/scheduler/slot_controller.go:84-99 | releasing a superseded lease changes nothing |
| Leases.HolderExcludesOthers | internal/scheduler/slot_controller.go:56-81 | while a lease with an owner validates every acquisition is refused |
| Leases.SlotController.TryAcquire | internal/scheduler/slot_controller.go:56-81 | acquires iff free, with the next generation |
| Leases.SlotController.ReleaseLease | internal/scheduler/slot_controller.go:84-99 | frees iff generation and operation match |
| Leases.SlotController.ValidateLease | internal/scheduler/slot_controller.go:102-106 | valid iff generation, operation and owner match |
| XrayTransaction.RunKeepsContained | internal/xray/supervisor.go:678-953 | over runs of activations, drains, synchronisations and crashes whose rollbacks succeed the runtime routes only remembered slots |
| XrayTransaction.DrainUnroutesUnlessForgotten | internal/xray/supervisor.go:884-915 | a drain that reports success leaves its slot routed iff the slot was not remembered and the runtime routed it all the same |
| XrayTransaction.SuccessfulDrainUnroutes | internal/xray/supervisor.go:884-915 | which never happens over runs whose rollbacks succeed |
| XrayTransaction.BrokenRollbackDefeatsDrain | internal/xray/supervisor.go:884-915 | and does happen after one failed rollback; the exact condition is that of DrainUnroutesUnlessForgotten |
| XrayTransaction.SyncRepairs | internal/xray/supervisor.go:678-704 | after a crash a synchronisation that is applied makes the runtime route exactly the given slots in range |
| XrayTransaction.ActivationRoutesUnlessRemembered | internal/xray/supervisor.go:918-953 | an activation that reports success routes the slot iff it was not remembered or already routed |
| XrayProjection.StepProjects | internal/xray/supervisor.go:678-953 | each control-plane step is, for the supervisor, exactly the transactions it issues |
| XrayProjection.RunProjects | internal/xray/supervisor.go:678-953 | a control-plane run is a run of the Xray transaction |
| XrayProjection.RuntimeContained | internal/xray/supervisor.go:678-953 | hence containment over control-plane runs whose rollbacks succeed |
| XrayProjection.SyncIsExact | internal/scheduler/scheduler.go:413-436 | a successful synchronisation leaves exactly the live active slots routed and remembered |
| Balancers.EverySubsetOnce | internal/xray/supervisor.go:514-537 | the enumeration lists every set of at least two slots exactly once and nothing else |
| Balancers.Append | internal/xray/supervisor.go:533-535 | append in a shared or a fresh array shows the old elements and the new one |
| Balancers.GenerateSubsets | internal/xray/supervisor.go:514-537 | the recursion over shared backing arrays lists what the pure enumeration lists, however arrays grow |
| Balancers.ListSubsets | internal/xray/template.go:242-264 | so does the whole enumeration |
| Decimal.DashedInjective | internal/xray/supervisor.go:589-593 | dash-joined decimal tags determine the slot sequence |
| XrayRules.BalancerExists | internal/xray/supervisor.go:725-738 | the balancer a rule names exists and has the tags of its slots as selectors |
| XrayRules.BalancerReach | internal/xray/supervisor.go:514-537 | it reaches its slots, and nothing else iff no other slot's tag extends one of theirs |
| XrayRules.CompiledDecision | internal/xray/supervisor.go:561-642 | first match: where each inbound and port is sent |
| XrayRules.CompileKeepsMeaning | internal/xray/supervisor.go:561-642 | SOCKS and VLESS reach exactly the active set, other ports are blocked when only 443 is allowed, the empty set blocks; iff blocked, fewer than two slots or no overlapping tags |
| XrayRules.NeverOverlapsBelowTen | internal/xray/supervisor.go:514-537 | up to ten slots no tag extends another |
| XrayRules.CompileIsExactUpToTenSlots | internal/xray/supervisor.go:561-642 | so up to ten slots SOCKS traffic reaches exactly the active set |
| XrayRules.SlotTenLeaks | internal/xray/supervisor.go:561-642 | with eleven slots the active set {0, 1} also reaches slot 10 |
| XrayRules.StaticRulesDenoteEmpty | internal/xray/template.go:320-361 | the generated static rules are those of the empty set, and inspection recovers the 443 option |
| XrayReadBack.FindRuntimeRule | internal/xray/supervisor.go:716-723 | the first rule with the tag |
| XrayReadBack.VerifyRuntimeRouting | internal/xray/supervisor.go:764-866 | accepts iff targets, selectors and draining slot pass all checks |
| XrayReadBack.SelectorsExact | internal/xray/supervisor.go:836-862 | every expected slot and equal cardinality mean equal sets |
| XrayReadBack.ReadBackAccepts | internal/xray/supervisor.go:740-866 | exactly which active sets, stale ones included, an expected set is mistaken for or accepted as |
| XraySupervisor.Supervisor.constructor | internal/xray/supervisor.go:115-165 | starts with nothing remembered over the static configuration |
| XraySupervisor.Supervisor.ActiveSlots | internal/xray/supervisor.go:868-878 | the remembered slots in range, in order |
| XraySupervisor.Supervisor.ApplyCandidate | internal/xray/supervisor.go:542-676 | success iff accepted, readable, not confusable and not draining; the runtime then sends SOCKS, and VLESS but for blocked ports, to exactly the candidates in range |
| XraySupervisor.Supervisor.DrainingSlot | internal/xray/supervisor.go:884-915 | on actual rules this is the drain transaction; VLESS stays in step with SOCKS unless a rollback fails |
| XraySupervisor.Supervisor.ActivateSlot | internal/xray/supervisor.go:918-953 | on actual rules this is the activation transaction; VLESS stays in step with SOCKS unless a rollback fails |
| XraySupervisor.Supervisor.SyncActiveSlots | internal/xray/supervisor.go:678-704 | on actual rules this is the synchronisation transaction; VLESS is in step with SOCKS afterwards unless a rollback fails |
| XraySupervisor.Supervisor.Relaunch | internal/xray/supervisor.go:115-165 | a restart from the static configuration routes nothing and keeps the memory |
| OvpnConfig.ParseSafeOpenVPNConfig | internal/discovery/vpngate_ovpn.go:106-391 | the scanner and resolution loops compute the line-by-line meaning, which OvpnAcceptance.ParseIs states without them |
| OvpnAcceptance.ParseIs | internal/discovery/vpngate_ovpn.go:106-391 | every text: refused as empty, for its first offending line, or for want of a valid endpoint, and otherwise read as its last directives and blocks say |
| OvpnAcceptance.ScannerStops | internal/discovery/vpngate_ovpn.go:137-310 | the scan stops at the first offence - a metacharacter, an injection, a forbidden or unknown directive, an unknown block, a line no PEM block has - and keeps the last block of each name |
| OvpnAcceptance.VocabularyMeans | internal/discovery/vpngate_ovpn.go:37-95 | the permitted directives name endpoints, settle a value or are idle; the forbidden ones run programs or touch the host |
| OvpnAcceptance.IdleWordsAreIdle | internal/discovery/vpngate_ovpn.go:226-323 | an idle directive changes nothing |
| OvpnAcceptance.HostMeans | internal/discovery/vpngate_ovpn.go:568-602 | a valid host has no control character, metacharacter, bracket, quote or space |
| OvpnAcceptance.FilterMeans | internal/discovery/vpngate_ovpn.go:604-620 | sanitizing drops exactly the characters that are not kept, wherever they stand |
| OvpnAcceptance.ProtoMeans | internal/discovery/vpngate_ovpn.go:552-562 | the spellings of the two protocols; nothing else is one |
| OvpnAcceptance.AtoiMeans | internal/discovery/vpngate_ovpn.go:235-262 | 64-bit numbers are read back from their numerals, signed or not, and larger ones are refused |
| OvpnMeaning.ParseMeans | internal/discovery/vpngate_ovpn.go:229-391 | an accepted text: every setting is that of its last directive, the endpoints those of the valid remotes in order, a remote without a port having the last valid port of the text or 1194, without a protocol the last known one or UDP |
| OvpnMeaning.PortFillsIn | internal/discovery/vpngate_ovpn.go:235-346 | a port or rport line and a remote line without a port, in either order, give exactly that endpoint |
| OvpnMeaning.EndpointMeans | internal/discovery/vpngate_ovpn.go:241-385 | which endpoint the arguments of a remote name: its own port and protocol first |
| OvpnRoundTrip.PrintedLines | internal/discovery/vpngate_ovpn.go:407-429 | the lines printed of an accepted configuration up to its settings: the opening, the remotes in order, nobind and route-nopull |
| OvpnRoundTrip.OpeningPrinted | internal/discovery/vpngate_ovpn.go:407-422 | the words of the opening: header, client, device, device type, protocol |
| OvpnRoundTrip.RemotePort | internal/discovery/vpngate_ovpn.go:424-426 | a remote is printed with its host and its positive port |
| OvpnConfig.GenerateSafeOpenVPNConfig | internal/discovery/vpngate_ovpn.go:407-461 | the builder writes the printed text |
| OvpnRoundTrip.ParsedIsAccepted | internal/discovery/vpngate_ovpn.go:137-391 | whatever the text, an accepted configuration has clean values, block lines that stay inside and valid endpoints |
| OvpnRoundTrip.RoundTrip | internal/discovery/vpngate_ovpn.go:407-461 | reading the print back with route-nopull allowed gives the same device, tokens, blocks, protocol and ordered hosts and ports |
| OvpnRoundTrip.SecondRoundTripExact | internal/discovery/vpngate_ovpn.go:407-461 | a second round trip changes nothing |
| OvpnRoundTrip.ProtocolsLostExactly | internal/discovery/vpngate_ovpn.go:424-426 | endpoints survive unchanged iff each has the printed protocol |
| OvpnRoundTrip.OneRemoteIsAccepted | internal/discovery/vpngate_ovpn.go:229-391 | a text of one well-formed remote line is accepted, with that endpoint |
| OvpnRoundTrip.OwnOutputRejected | internal/discovery/vpngate_ovpn.go:68-95 | the unextended parser rejects every print of an accepted configuration as unrecognised |
| Reputation.AddsCommute | internal/reputation/engine.go:337-411 | two completions commute |
| Reputation.OrderIrrelevant | internal/reputation/engine.go:126-212 | the tally is a function of the multiset of outcomes |
| Reputation.FoldMeans | internal/reputation/engine.go:337-411 | status, hard rejection, penalty and unknown count without any order |
| Reputation.FlagsMean | internal/reputation/engine.go:368-379 | a network flag is set iff some provider raises it |
| Reputation.BadAddsNoPenalty | internal/reputation/engine.go:389-396 | a BAD result that is no hard rejection adds no penalty |
| Reputation.MoreEvidenceNeverAdmits | internal/scheduler/admission.go:31-41 | one more outcome never turns a rejection into an admission, given at least one |
| Reputation.FirstEvidenceMayAdmit | internal/reputation/engine.go:101-109 | without any report a rejection turns into an admission exactly under the conservative policy, when the first outcome is a known verdict without hard rejection and without a prohibited trait |
| Reputation.MoreEvidenceNeverAdmitsInRegion | internal/scheduler/admission.go:46-57 | nor with the region check when the reported country codes agree |
| Reputation.RegionKeepsRejectingExactly | internal/scheduler/admission.go:46-57 | one more outcome keeps every regional rejection iff the address is rejected anyway, no usable code was there before, or the usable code stays the same |
| Reputation.CodeAfter | internal/reputation/engine.go:341-343 | the code is the last one that is not empty |
| Reputation.DisagreeingCodesMayAdmit | internal/reputation/engine.go:341-343 | inputs for both ways it fails: a later code of the expected country, and a later blank one |
| Reputation.Aggregate.MergeProviderResult | internal/reputation/engine.go:337-411 | the in-place merge |
| Reputation.Aggregate.ApplyPolicy | internal/reputation/engine.go:216-233 | the policy applied to the shared result |
| Reputation.DecideMeans | internal/reputation/engine.go:101-233 | the decision in terms of the outcomes: UNKNOWN when nobody reports, or, under the conservative policy, when somebody fails or does not know and nobody hard-rejects; such doubt costs the lenient penalty once under the lenient policy; otherwise the worst judgement |
| Reputation.CountsMean | internal/reputation/engine.go:126-212 | unknown and success counters count providers |
| Reputation.AdmissionMeans | internal/scheduler/admission.go:31-41 | admitted iff nobody hard-rejects, nobody raises a prohibited trait and, under the conservative policy, everybody asked knows the address and somebody was asked |
| Reputation.RegionMeans | internal/scheduler/admission.go:46-57 | the region check rejects iff a region is expected, a code is known and they differ |
| Reputation.EvaluateProviders | internal/reputation/engine.go:126-233 | providers completing in any order give the decision |
| ReputationCache.AggregateExpiry | internal/reputation/engine.go:242-253 | the latest expiry within the TTL and every window of its evidence |
| ReputationCache.Engine.Get | internal/reputation/cache.go:114-127 | a hit is never later than ObservedAt plus the window configured for the provider, or the aggregate TTL without a positive one, of any known verdict in it |
| ReputationCache.RowWindow | internal/reputation/cache.go:82-90 | a usable row stands in for its provider exactly until the window configured for the provider has passed since it was observed, or the aggregate TTL when no positive one is configured |
| ReputationCache.RestoredMeans | internal/reputation/engine.go:290-334 | what persisting and restoring do to each field of a known verdict |
| ReputationCache.LegacyRowMeans | internal/reputation/engine.go:290-334 | rows from before reasons were kept |
| ReputationCache.ServedWithinWindow | internal/reputation/engine.go:129-206 | over any run of evaluations and restarts, a verdict served from the cache or from durable evidence is served within the provider's window after that provider itself answered, given that a report names its provider and is not stamped ahead of its time |
| ReputationCache.MemoryIsRecent | internal/reputation/cache.go:78-112 | whatever cache and rows hold of a provider, it said within the window they still grant |
| ReputationCache.Durable | internal/reputation/engine.go:265-288 | durable evidence stands in for a provider only within the window of its own observation |
| ReputationCache.Engine.LoadPersisted | internal/reputation/engine.go:265-288 | the lookup finds exactly that evidence |
| ReputationCache.Engine.AskProvider | internal/reputation/engine.go:131-206 | cache, then a usable row within the provider's configured window, or the aggregate TTL without a positive one, then the provider; what each leaves in the cache and the rows |
| ReputationCache.Engine.PersistEvidence | internal/reputation/engine.go:413-485 | of a successful answer the newest row stays |
| ReputationCache.Engine.Restart | internal/reputation/engine.go:262-264 | a restart loses the caches and keeps the rows |
| ReputationCache.Engine.EvaluateIP | internal/reputation/engine.go:86-257 | decides on exactly what the providers' parts contribute, caches the aggregate, UNKNOWN or not, iff some provider answered, and keeps every cached aggregate fresh |
| ReputationCache.ConsistentVerdictAlwaysWeighsTheSame | internal/reputation/engine.go:290-334 | where the two agree, it weighs the same after any other providers |
| ReputationCache.RestoredVerdictWeighsTheSame | internal/reputation/engine.go:290-334 | a restored verdict weighs like the fresh one iff its own flags do not contradict its network information |
| Vetting.RunPool | internal/discovery/vetting.go:46-80 | under any schedule each dispatched node is written once with its own result |
| Vetting.VetNodes | internal/discovery/vetting.go:22-99 | for any cancellation point: each node's outcome, the surviving credentials, accepted + rejected = n, and never more nodes at once than the configured number, at most 32 |
| Vetting.VetNodesUnavailable | internal/discovery/vetting.go:29-39 | without an admission function everything is rejected |
| Vetting.Summarize | internal/discovery/vetting.go:113-123 | the counters add up |
| Vetting.VettedMeans | internal/discovery/vetting.go:46-109 | each field a worker writes, with and without a result and an error |
| Vetting.UnseenMeans | internal/discovery/vetting.go:29-96 | each field of a node that no worker saw or nobody could judge |
| Vetting.EveryNodeDecided | internal/discovery/vetting.go:50-96 | every status ends REPUTATION_CHECKED or FAILED |
| Vetting.SecretSurvives | internal/discovery/vetting.go:60-96 | with distinct identities a credential survives iff admitted or hard-rejected |
| Persistence.UpsertVettedNodes | internal/discovery/persistence.go:46-110 | every row of the batch, old or new, column by column: live rows keep status, evidence and error; others get what the batch says last and the status rule; other rows and failed batches change nothing |
| Persistence.SettledIsUpdated | internal/discovery/persistence.go:72-107 | the statements one after the other do just that: a live row keeps all but its public columns; another is told the last evidence and error and follows the status rule |
| Persistence.NewRowKeepsVerdict | internal/discovery/persistence.go:66-107 | a newly inserted row keeps the verdict of vetting; acceptance clears its error |
| Persistence.StatusRule | internal/discovery/persistence.go:88-107 | which rows can change status, and to what |
| KernelRouting.TablesApart | internal/scheduler/scheduler.go:76-84 | tunnel tables meet no active table and no other tunnel's; draining table 200 + s iff number 100 + s |
| KernelRouting.FirstCollision | internal/routing/identity.go:21-29 | with (3,2) the 85th allocation is the first to meet a draining table |
| KernelRouting.Kernel.SafeDelete | internal/routing/route.go:23-30 | removes at most 32 duplicates |
| KernelRouting.Kernel.SetupSlotRouting | internal/routing/route.go:33-64 | success leads the mark to the interface iff its rule is there, failure to the main table or to what a refused flush left; other marks and other tables' sources unaffected |
| KernelRouting.Kernel.ClearSlotRouting | internal/routing/route.go:68-91 | the mark is unreachable iff its rule is there and the unreachable route is in the table: added after a flush, or already there under a refused one; where it goes otherwise; other marks unaffected |
| KernelRouting.Kernel.ClearCandidateRouting | internal/routing/route.go:130-138 | the rule is gone iff at most 32 duplicates existed; the lookup is the main table unless they did and the flush was refused |
| KernelRouting.Kernel.SetupThenClear | internal/routing/route.go:33-91 | every other lookup is as it was, and the mark is unreachable iff the rule and the route of the clear are there, for every combination of refused commands |
| KernelRouting.Kernel.ClearDrainingRouting | internal/routing/route.go:252-258 | one rule on the address goes, and the table's route if it can be flushed; other marks and sources unaffected |
| KernelRouting.Kernel.DrainThenClear | internal/routing/route.go:228-258 | a drain through an empty table and its end restore the lookup of every packet, whatever was refused on the way, if the table can be flushed |
| KernelRouting.Kernel.SetupDrainingRouting | internal/routing/route.go:228-249 | packets from the tunnel's address leave through its interface whatever their mark, unless an older rule on the address leads elsewhere; no other source and no mark but the table's own number could notice |
| Endpoints.Manager.AcquireEndpoint | internal/routing/endpoint.go:203-229 | counts up, with a route for the first holder |
| Endpoints.Manager.ReleaseEndpoint | internal/routing/endpoint.go:233-286 | counts down, never below zero, and removes the route with the last; every held address keeps its route iff this is not the last release of its text while another spelling of the address is held |
| Endpoints.Manager.Cleanup | internal/openvpn/manager.go:239-251 | runs once per tunnel; the same condition for the routes |
| Endpoints.Manager.StartTunnel | internal/openvpn/manager.go:82-220 | it succeeds iff the address is one, its route was there or could be set up, the process runs and the interface comes up; every failure path gives back what it acquired |
| Endpoints.Manager.Replay | internal/openvpn/manager.go:82-280 | over any starts, exits and repeated stops counts equal started-but-not-cleaned tunnels, and routes follow for canonical spellings |
| Endpoints.TwoSpellings | internal/routing/endpoint.go:219-260 | with two spellings of one address a stop removes a route still needed |
| Migration.MigrateNodeIdentities | internal/database/database.go:150-206 | for rows in any order each address gets the largest failure count, earliest first and latest last sighting of its group; others untouched |
| Migration.OrderDoesNotMatter | internal/database/database.go:165-202 | all orders agree |
| Migration.SecondRunIsIdle | internal/database/database.go:150-206 | a second run changes nothing |
| Migration.TargetMeans | internal/database/database.go:121-146 | which identities are legacy, and their address: only what splits into a parsable host and a port from 1 to 65535 and is no address itself |
| Migration.TargetsAreClean | internal/database/database.go:121-146 | a target address is never itself legacy |
| Fsm.ActiveWasQualified | internal/scheduler/fsm.go:16-90 | a run into ACTIVE from outside passes QUALIFIED |
| Fsm.QualifiedWasChecked | internal/scheduler/fsm.go:16-90 | a run from NEW or DISCOVERED to QUALIFIED passes a reputation check or the probe of a failed endpoint |
| Fsm.DrainingEnds | internal/scheduler/fsm.go:69-72 | a draining node stays so until FAILED or DEAD |
| Fsm.Entrances | internal/scheduler/fsm.go:16-90 | from where each status can be entered |
| Fsm.SecretUntilFailure | internal/scheduler/fsm.go:129-169 | the credential lasts exactly until the first permitted move to FAILED or DEAD, stored or not |
| Fsm.StatusIsLastSuccess | internal/scheduler/fsm.go:129-169 | the status is the target of the last attempt that was permitted and stored |
| Fsm.LivesArePaths | internal/scheduler/fsm.go:117-169 | whatever is attempted, the statuses form a path |
| Fsm.Node.TransitionNode | internal/scheduler/fsm.go:129-169 | status, counter and credential after an attempt the database may refuse |
| Fsm.FailCountIsSuccesses | internal/scheduler/fsm.go:144-148 | the counter equals the successful transitions to FAILED iff the database refused none |

## Left out

- Leases.Acquire: the generation is unbounded; the wrap-around of the 64-bit counter is not modelled.
- Scheduling.Scheduler.ReconcileActiveSlots: one pass is one method call; switches on other slots issue commands during a real pass, which the state machine covers by splitting the pass into one step per slot.
- Scheduling.Scheduler.StartStandby: candidate selection, scoring, benchmark and the checks before the final commit are inputs; only the tunnel, its number and its tables are followed.
- Scheduling.Scheduler.ReserveSlot: existence, status and credential of the node are one input, and HTTP is left out.
- Operations.ExecuteManualSwitch: progress statuses and error texts of the operation, node status changes in the database and the 60 s deadline are left out; a health check's failure is an input.
- Scheduling.Scheduler.TransitionToDraining: tunnel objects are records in a map, named by number, so aliasing of Go pointers is not captured; stopping a tunnel is one step.
- Routes.RunRoutes: for at most 100 slots, because beyond that active and draining table numbers overlap.
- Scheduling.Scheduler.CleanupDrainingSlots: tables are described for at most 100 slots, for the same reason.
- XrayRules.BalancerReach: a selector is a prefix, as the comment on `exit-` in the configuration says; the round-robin choice inside a balancer is not modelled.
- XrayReadBack.VerifyRuntimeRouting: starts from the parsed rules and selectors; JSON and the text output of `bi` are not modelled.
- XraySupervisor.Supervisor.Relaunch: the process lifecycle (start, monitor loop, back-off, stop) is only this, that a runtime starts from the static configuration.
- OvpnConfig.ParseSafeOpenVPNConfig: starts from decoded text of valid characters; base64, invalid UTF-8 and the scanner's 64 KiB line limit are not modelled, nor the copy of the values in the metadata and the constants DevType and Nobind.
- OvpnConfig.ValidHost: host name syntax and address parsing beyond the forbidden characters are a parameter, as are letters and digits outside ASCII.
- Reputation.Aggregate.MergeProviderResult: ASN, ISP, organisation, network type and reason texts are last-writer fields, order-dependent by design.
- ReputationCache.Engine.EvaluateIP: one lookup time stands for the lookups of all providers; provider transport, logging and the statistics counters are left out, and a row stands for the newest one of its key without error and UNKNOWN, a later write winning a tie.
- Vetting.VetNodes: time stamps and the copy of network information are left out.
- Persistence.UpsertVettedNodes: the evidence columns are one value, and so are the public columns; last_failure_at is left out.
- Migration.MigrateNodeIdentities: endpoints_json and the columns that the first legacy row brings along depend on the order and are not described; database statements succeed.
- Endpoints.Manager.StartTunnel: configuration file, credentials, DCO and the read-back of the host route are left out; waiting for the interface is an input.
- KernelRouting.Kernel.SetupSlotRouting: the IPv6 and CONNMARK commands that mirror or accompany these are left out; deleting a rule fails only when there is none, and a table has at most its default route.
- Fsm.Node.TransitionNode: an empty status, which the code reads as NEW, is not modelled.
- ControlPlane.Prefix: an IPv4 address is its number; parsing its text is left out.
- Providers over HTTP, rate limiting, TLS, authentication, client exports, metrics, region selection, scoring weights and benchmarks are library wrappers or easy members.
- Shutdown of the scheduler's loop, the 256-attempt capacity fill and marking nodes stale would add no state of their own.
