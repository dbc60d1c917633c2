# A model of Koinos block and transaction execution

This project models the execution engine of the Koinos chain node and proves what it
keeps over every call tree, every transaction, every block, every branch and every
interleaving of concurrent block submissions. `dafny verify dfyconfig.toml` checks
all of it.

| file | models |
|---|---|
| `Int64.dfy` | fixed-width integers, written out as reductions modulo 2^64 |
| `Meter.dfy`, `MeterObjects.dfy` | the resource meter, the RC session, the chronicler: laws on values, and the mutable objects that refine them |
| `Journal.dfy` | the journal of burns, reports, traps, exceptions, charges, sessions and events that the meter is the replay of |
| `Receipts.dfy` | receipts, and what a context's receipt holds after all that was posted to it |
| `State.dfy` | object spaces, state nodes as overlays, the history of a node, permissions |
| `Context.dfy` | the abstract execution context, its invariant, what every piece of execution keeps, and who may write what |
| `Verdicts.dfy` | how the recorded steps of applying a block or a transaction decide how it ends |
| `Execution.dfy` | the execution context: frames, dispatch cache, system-call wrapper, host API, VM runner, thunks |
| `Apply.dfy`, `Blocks.dfy`, `Nonces.dfy` | transactions and blocks as a rollback machine; receipts; nonces over a branch |
| `Queries.dfy` | the controller's read-only entry |
| `Forks.dfy` | the fork tree under concurrent `submit_block` calls, and the controller |
| `ModuleCache.dfy` | the LRU cache of parsed modules |
| `MerkleCost.dfy` | the Merkle hash count |
| `Indexer.dfy` | the indexer's two-queue pipeline |

## How call trees are modelled

What a contract does is left open. `RunVm` burns any number of ticks and makes any
host calls with any arguments, any number of times; prices, disk deltas and the
outcome of cryptography are nondeterministic as well. The methods of
`ExecutionContext` call each other as the source does, so the contract of
`SystemCall` is proved by induction over all call trees. The measure that makes this
terminate is 256 minus the stack depth.

A context carries logs from which nothing is ever taken back, rollbacks included: the
history of its node (writes, forks, merges and drops), the journal (burns, reports,
traps and exceptions of the VM, charges and refused charges, limits, sessions, events,
signers recovered, RC consumed), the contracts launched with their entry points and
privileges and the overrides taken, the receipts posted, and the verdicts: how each step
of applying a block or a transaction came out, recorded by the step itself. `Inv` says that the node is the replay of the history,
that the meter is the replay of the journal, every report in it was of exactly what
was owed and every denied charge is one the meter refuses, that nothing is owed, that each cached dispatch equals the lookup in the
parent state, that the journal counts the events and the live session has seen exactly
those since it opened, and that the receipt is what the posts make it. What is stated of
a transaction or a block is stated of its part of these logs and of the state itself.
`Step(a, b)` says that execution from `a` to `b` leaves the stack and its privileges,
the parent node, the limits and the transaction as they were, only extends the logs,
does nothing to the node but write, and not even that under read-only intent.

`Went(a, b, direct, keeps, lost)` is what every method promises. Unless the run was
lost to re-entry, `Inv` and `Step` hold. If it was user only (`UserOnly`: no override
taken, no contract run in kernel mode), everything written is in `direct`, the objects
kernel code itself named, or in the own zone of a contract that ran, and every contract
that ran had its bytecode. If `keeps`, execution stops being user only at nothing but an
override of the parent state or a system contract of the state, so that from a
`UserWorld`, which has neither, it is user only throughout.

Kernel code that calls `apply_block` or `apply_transaction` from within an execution
replaces the session and moves the parent node. Such a run ends in the outcome
`Reentered`, of which contracts say only that frames are popped; it needs an override
or a system contract in the state, and is impossible under read-only intent. A user contract's call
of either thunk is modelled as it is: refused, but not without effect on the receipt.

Exceptions are outcomes: `Thrown(code)` with a positive code is a reversion, a
negative one a failure, zero is the success exception, and `Reentered` is as above.

`Served` adds what a system call does for its caller. In user-only execution a call that
returns gave a true answer (`Answers`), and of reads, writes, nonces and contract calls
one that throws had a reason (`Excused`): a charge the meter refused or a want of room,
a missing price, a state the caller can look at, or how the contract it ran ended.
`Routed` says where the parent state sent the call. `Trail` and `Told` say that a
transaction took the steps of the source in their order, ended at the first that did not
pass, and how it ended; `Swallows` says the same of a block and its transactions.

## Hypotheses

- The state database is not part of the repository. A node is a root store or an
  overlay on its parent; commit merges an overlay into the node below; a node's
  revision is its parent's plus one; writable nodes are created only under finalized
  nodes; finalizing makes a strictly higher block the head and a lower one never, and
  may decide ties either way.
- Hashes do not collide: blocks that passed `apply_block`, which compares the id with
  the hash of the header, are one block if they have one id. Blocks that were only
  submitted may be forged.
- A submission that dies between the creation of its node and the handling of failures
  does not carry the id of another block that is waiting to be finalized (which then
  would have been pruned).
- In `Forks.dfy` a block that was applied stores itself as head block. `Blocks.ApplyBlock`
  proves this of user-only blocks; a system contract could overwrite the object.
- `get_head_info` and `get_last_irreversible_block` are the default thunks, and
  `apply_block` and `apply_transaction` are not overridden.
- The class of an exception agrees with the sign of its code, and revert messages are
  valid UTF-8, as `exit` enforces.
- RC laws are claimed for RC limits within int64 and as long as refunds fit the 64-bit
  session counter; the code narrows silently beyond that. Narrowing a 128-bit product
  below the int64 range clamps. Exhaustion is claimed for remaining compute within int64.
- The disk figure of a receipt is off by the clamping of `disk_storage_used`; by how
  much, and when it is right, is proved.
- Disk use without a modulus is claimed as long as remaining disk stays within int64;
  the code reads the counter as a signed number.
- The compute registry does not change within a block; it is the set `priced`.
- The block store answers the indexer with exactly the heights asked for up to the
  target, or with an error. Heights stay more than 1001 below 2^64, so that
  `last_height + batch_size` does not wrap.

Where the code does less than one would expect, a lemma says so:

- A tick report beyond the remaining budget does not always throw, because
  `remaining_rc` hides refund credit (`HiddenCreditExample`, with the exact condition in
  `ExhaustionIsExact`).
- A user contract that calls `apply_transaction` adds a receipt to its block, and one
  that calls `apply_block` wipes those before its own (`ForgedReceipt`, `WipedReceipts`,
  with the exact condition in `ReceiptsGenuineExactly`).
- A block whose compute registry lacks a price for `apply_transaction` succeeds without
  transaction receipts (`ApplyBlock`).
- The disk figure of a receipt is right only if both readings clamp alike
  (`FiguresAreUse`).
- Racing runs can put a module twice and make the cache evict early
  (`RacingPutsEvictEarly`, `PutTidyExactly`, `TidyThroughoutExactly`).
- The indexer can starve after its last block (`StarvedRun`, `DoomedExactly`) and can use
  its promise after a reset (`DanglingRun`, `DanglingExactly`).
- A throw of `get_head_info` on the parent of a submitted block leaves the new node in the
  tree for good (`FailureLeavesNoNodeExactly`).
- The early return for the current LIB in `submit_block` is never reached (`LookUp`).

## Model

| member | source | states |
|---|---|---|
| `Metering.SessionAccounting` | libraries/chain/resource_meter.cpp:44-150 | over any sequence of charges and refunds under a session on fresh limits: block counters fall by exactly what was accepted, `end_rc` is `begin_rc` minus the summed cost times use and never negative, and the RC reported used is at most what the session began with (whenever every refund fits the 64-bit session counter) |
| `Metering.RunKeepsBalance` | libraries/chain/resource_meter.cpp:44-150 | the same as an invariant from any balanced meter, for every sequence of charges, rejected ones changing nothing |
| `Metering.UseKeepsBalance` | libraries/chain/resource_meter.cpp:44-150 | one accepted charge keeps limit = remaining + system use + session use, and the RC law of the live session |
| `Metering.DiskKeepsBalance` | libraries/chain/resource_meter.cpp:44-63 | a signed disk charge or refund keeps the balance, disk modulo 2^64, through the int64 and uint64 casts |
| `Metering.NetworkKeepsBalance` | libraries/chain/resource_meter.cpp:91-108 | a network charge, checked first as uint64 and then as int64, keeps the balance |
| `Metering.ComputeKeepsBalance` | libraries/chain/resource_meter.cpp:133-150 | a compute charge keeps the balance |
| `Metering.DiskLimitExactly` | libraries/chain/resource_meter.cpp:44-63 | with remaining disk within int64: a charge is refused with the disk limit error if and only if it exceeds what remains, accepted if and only if it does not and the session can pay, and then the counter moves by exactly its amount |
| `Metering.NetworkLimitExactly` | libraries/chain/resource_meter.cpp:91-108 | the same of network, for any counter; a negative charge is refused |
| `Metering.ComputeLimitExactly` | libraries/chain/resource_meter.cpp:133-150 | the same of compute |
| `Metering.DiskWithinLimit` | libraries/chain/resource_meter.cpp:44-63 | over any run of charges and refunds, as long as remaining disk stays within int64, the fall of the counter is the net use, which never exceeds what there was |
| `Metering.SessionKeepsBalance` | libraries/chain/session.cpp:9-13 | billing a session either keeps `end_rc = begin_rc - price >= 0` or is refused exactly because the price exceeds `end_rc` |
| `Metering.UsedRcIsPrice` | libraries/chain/session.cpp:20-26 | `used_rc` is the price of what was used, zero after net refunds, and at most `begin_rc` |
| `Metering.TicksWithinBudget` | libraries/chain/host_api.cpp:165-176 | ticks within the reported remaining budget are always accepted and charged exactly |
| `Metering.ExhaustionIsExact` | libraries/chain/host_api.cpp:165-176 | a report above the remaining budget throws if and only if the remaining budget is all that can be paid for (`remaining_rc` hides refund credit); a throw leaves a remaining budget of zero; otherwise one tick more than the remaining budget is charged |
| `Metering.HiddenCreditExample` | libraries/chain/session.cpp:15-18 | a session with refund credit for which an exhausted budget does not throw |
| `Metering.TicksKeepBalance` | libraries/chain/host_api.cpp:165-176 | whatever a tick report does, partial charge before a throw included, the ledger that books the fall of the counter balances |
| `MeterObjects.Session.constructor` | libraries/chain/session.cpp:6 | a session begins and ends at the same RC |
| `MeterObjects.Session.UseRc` | libraries/chain/session.cpp:9-13 | refines the charge; a refused charge leaves the session unchanged |
| `MeterObjects.Session.RemainingRc` | libraries/chain/session.cpp:15-18 | the smaller of begin and end |
| `MeterObjects.ResourceMeter.constructor` | libraries/chain/resource_meter.cpp:15-24 | unlimited resources, no costs |
| `MeterObjects.ResourceMeter.SetResourceLimitData` | libraries/chain/resource_meter.cpp:28-37 | counters reset to the limits, system use to zero, session kept |
| `MeterObjects.ResourceMeter.Bill` | libraries/chain/resource_meter.cpp:48-57 | bills the live session through the 128-bit product, or leaves meter and session unchanged |
| `MeterObjects.ResourceMeter.UseDiskStorage` | libraries/chain/resource_meter.cpp:44-63 | refines the disk charge, whose limit is proved exact; a rejected one changes neither meter nor session |
| `MeterObjects.ResourceMeter.UseNetworkBandwidth` | libraries/chain/resource_meter.cpp:91-108 | refines the network charge; a rejected one changes neither meter nor session |
| `MeterObjects.ResourceMeter.UseComputeBandwidth` | libraries/chain/resource_meter.cpp:133-150 | refines the compute charge; a rejected one changes neither meter nor session |
| `MeterObjects.ResourceMeter.ComputeBandwidthRemaining` | libraries/chain/resource_meter.cpp:157-168 | the smaller of what the session can pay for and what the block has left |
| `MeterObjects.ResourceMeter.ReportTicks` | libraries/chain/host_api.cpp:165-176 | refines the tick report whose exactness is proved above |
| `MeterObjects.Chronicler.PushEvent` | libraries/chain/chronicler.cpp:10-19 | events get consecutive 32-bit sequence numbers and go to the live session as well |
| `MeterObjects.Chronicler.PushLog` | libraries/chain/chronicler.cpp:21-27 | a live session takes the log entry instead of the chronicler |
| `Journal.TicksChargedOnce` | libraries/vm_manager/fizzy/fizzy_vm_backend.cpp:168-290 | every tick is charged once: in any journal, since its limits were set, the compute counter has lost what the VM burned plus what native code charged, less what is still owed and what was forgiven |
| `Journal.WithinForgivesNothing` | libraries/chain/host_api.cpp:165-176 | nothing is forgiven but by a report that exceeds the remaining budget or is refused |
| `Journal.SessionUse` | libraries/chain/session.cpp:6-26 | what a session used is what the ledger gained between its open and its close |
| `Journal.ExactExactly` | libraries/chain/resource_meter.cpp:44-63 | the RC law of a session holds exactly as long as its limit and every disk refund under it fit the 64-bit counter |
| `Journal.AuditIsSound` | libraries/chain/resource_meter.cpp:28-150 | every journal of burns, reports, charges and sessions conserves all three resources and keeps the RC law of its live session |
| `Journal.DiskNeverExceeded` | libraries/chain/resource_meter.cpp:28-63 | over any journal since limits were set, as long as remaining disk stays within int64: what the system and the transactions used on balance is limit minus remaining, without a modulus, and never exceeds the limit |
| `Journal.ContinuationKeepsSession` | libraries/chain/resource_meter.cpp:44-150 | what is charged while a session is live is the session's, and otherwise the system's |
| `Journal.ReportKeepsSound` | libraries/chain/host_api.cpp:165-176 | a tick report, accepted, overrunning or refused, keeps the law of ticks |
| `Receipts.ReceiptsGenuineExactly` | libraries/chain/system_calls.cpp:204-261 | a block receipt lists its transactions' own receipts, one each and in order, if and only if no contract called `apply_block` or `apply_transaction`, unless all such calls came before the first receipt and the last of them was `apply_block` |
| `Receipts.BlockHolds` | libraries/chain/system_calls.cpp:328-330 | a block receipt lists exactly what was posted since it was last begun |
| `Receipts.ForgedReceipt` | libraries/chain/system_calls.cpp:666-686 | a contract's call of `apply_transaction` leaves one receipt too many |
| `Receipts.WipedReceipts` | libraries/chain/system_calls.cpp:328-335 | a contract's call of `apply_block` wipes the receipts of earlier transactions |
| `Receipts.IntrusionsKeepBlock` | libraries/chain/system_calls.cpp:328-335 | neither takes the block receipt away |
| `State.OverlayCommitIsDirect` | libraries/chain/system_calls.cpp:568-570 | writing through an anonymous node and committing it equals writing directly |
| `State.ForkEnds` | libraries/chain/system_calls.cpp:565-625 | a fork that is merged leaves its writes, one that is dropped leaves nothing |
| `State.TrxLeaves` | libraries/chain/system_calls.cpp:565-646 | of the history of a transaction a commit leaves every write, a reversion those before the fork and after its end |
| `State.ReplayConcat` | libraries/chain/system_calls.cpp:594-594 | the replay of a history goes on where the replay of its beginning ended |
| `State.ReplayFrame` | libraries/chain/system_calls.cpp:1022-1046 | an object no write names keeps its value |
| `Context.ZoneIsolation` | libraries/chain/state.cpp:94-105 | zone isolation on the state, across any user-only execution: an object changes only if kernel code itself named it, or it lies outside the system spaces in the zone of a contract that ran |
| `Context.DormantZone` | libraries/chain/state.cpp:94-105 | what a caller can check: the objects of a zone without bytecode stay as they are, unless bytecode is written for it |
| `Context.UserWorldIsUserOnly` | libraries/chain/execution_context.cpp:334-341 | with no override in the parent state and no system contract in the state, execution is user only and stays so |
| `Context.SafeTrans` | libraries/chain/execution_context.cpp:334-341 | execution leaves user mode only where the parent state has an override or the state a system contract |
| `Context.CalmTrans` | libraries/chain/system_calls.cpp:1022-1046 | confinement composes; what comes after user-only execution may rely on that |
| `Context.CodedTrans` | libraries/chain/system_calls.cpp:1261-1267 | a contract that runs had its bytecode in the state before, or it was written by name |
| `Context.ConfinedTrans` | libraries/chain/system_calls.cpp:1022-1046 | writes of consecutive pieces of execution stay in the zones of the contracts that ran |
| `Context.ConfinedFrame` | libraries/chain/state.cpp:94-105 | an object outside what may be written keeps its value |
| `Context.WriteServes` | libraries/chain/state.cpp:94-105 | a permitted write by user code is in its own zone, by kernel code on the object it named; a refused one throws and writes nothing |
| `Context.StrodeThen` | libraries/chain/system_calls.cpp:565-625 | the same where nodes are forked, merged and dropped in between |
| `Context.TurnStrode` | libraries/chain/system_calls.cpp:568-570 | forking and merging change no object |
| `Context.DropStrode` | libraries/chain/system_calls.cpp:600-625 | dropping a fork brings back the node it was forked from, while charges, events and what ran stay on record |
| `Context.MovedThen` | libraries/chain/include/koinos/chain/execution_context.hpp:182-232 | what every piece of execution keeps composes, re-entry included |
| `Context.StepTrans` | libraries/chain/include/koinos/chain/execution_context.hpp:182-232 | stack, privileges, parent node, limits, histories and read-only state are kept over consecutive steps |
| `Context.Restacked` | libraries/chain/include/koinos/chain/execution_context.hpp:182-232 | execution on a stack with a frame pushed or a privilege lowered leaves the stack below as it was |
| `Context.ProgramWent` | libraries/chain/system_calls.cpp:1276-1291 | a contract that ran may have written its own zone, and ran in kernel mode only if the state makes it a system contract |
| `Context.RunEndIs` | libraries/vm_manager/fizzy/fizzy_vm_backend.cpp:262-290 | the end of a VM run as the journal has it: the error of its last report if the meter refuses it, or else what was thrown into it, or else a reversion for a trap, and a return only without all three |
| `Context.ServedBalks` | libraries/chain/host_api.cpp:76-90 | a result that does not fit the buffer leaves what was done, and is thrown as a reversion on record |
| `Context.RoutedAlike` | libraries/chain/execution_context.cpp:322-383 | where a call goes depends on the parent state, not on stack or cache |
| `Context.CallServes` | libraries/chain/system_calls.cpp:1261-1310 | `call` returns only after its contract ran to a good end, and throws only for a reason: the meter or a limit, a missing price, a contract that cannot be called, or how its run ended |
| `Context.DenialIsFailureExactly` | libraries/chain/resource_meter.cpp:44-150 | a refused charge is a failure, which ends the block, if and only if it exceeds what the block has left, and otherwise a reversion |
| `Context.OverrideTakesEffect` | libraries/chain/execution_context.cpp:235-281 | what set_system_call stores is what the call goes to once that is the parent state: the thunk, or the contract with its metadata, or nothing if that contract is missing |
| `Context.TruthfulEarlier` | libraries/chain/include/koinos/chain/thunk_utils.hpp:239-300 | answers and excuses stay true when nothing but charges came before the call |
| `Verdicts.TrailThen` | libraries/chain/system_calls.cpp:488-594 | steps taken one after the other are the steps of one plan, each after the one before it passed |
| `Verdicts.TrailStops` | libraries/chain/system_calls.cpp:488-594 | the first step that does not pass is the last, and its outcome is the outcome |
| `Verdicts.SwallowsNext` | libraries/chain/system_calls.cpp:396-404 | one more transaction: the block goes on after a return or a reversion and ends with anything else |
| `Context.JournalChargesOnce` | libraries/vm_manager/fizzy/fizzy_vm_backend.cpp:168-290 | between any two points at which nothing is owed, the compute counter lost what was burned and charged less what was forgiven, and nothing was forgiven if every report in between was within the budget |
| `Context.ReportKeepsCore` | libraries/chain/host_api.cpp:165-176 | a report of what is owed, accepted, leaves nothing owed; refused, it leaves all of it |
| `Context.WriteIsStep` | libraries/chain/system_calls.cpp:1022-1046 | a write outside read-only intent keeps the invariant |
| `Execution.ExecutionContext.constructor` | libraries/chain/execution_context.cpp:10-14 | a fresh context: one frame, an empty cache, nothing charged, no receipt |
| `Execution.ExecutionContext.PushFrame` | libraries/chain/execution_context.cpp:106-110 | refused at 256 frames, otherwise pushed |
| `Execution.ExecutionContext.PopFrame` | libraries/chain/execution_context.cpp:112-118 | pops the top frame |
| `Execution.ExecutionContext.GetContractId` | libraries/chain/execution_context.cpp:156-165 | the innermost frame with a contract id |
| `Execution.ExecutionContext.SetStateNode` | libraries/chain/execution_context.cpp:21-30 | an explicit parent wins, otherwise the node's own; what was done to the node is recorded |
| `Execution.ExecutionContext.ResetCache` | libraries/chain/execution_context.cpp:294-300 | empties the dispatch table and keeps the invariant |
| `Execution.ExecutionContext.CacheSystemCall` | libraries/chain/execution_context.cpp:235-281 | a cached dispatch always equals the uncached lookup in the parent state, so an override written in a block does not change dispatch inside it |
| `Execution.ExecutionContext.SetTransaction` | libraries/chain/execution_context.cpp:64-67 | sets the current transaction, nothing else |
| `Execution.ExecutionContext.SetLimits` | libraries/chain/resource_meter.cpp:28-37 | new limits, entered in the journal; a live session stays |
| `Execution.ExecutionContext.OpenSession` | libraries/chain/execution_context.cpp:182-188 | a session over the RC limit, narrowed to int64, entered in the journal |
| `Execution.ExecutionContext.CloseSession` | libraries/chain/system_calls.cpp:636 | the session ends, entered in the journal |
| `Execution.ExecutionContext.ChargeCompute` | libraries/chain/resource_meter.cpp:133-150 | any compute charge by native code leaves the meter as the journal says; it throws only the error of a charge the meter refuses, which is then on record |
| `Execution.ExecutionContext.ChargeThunk` | libraries/chain/execution_context.cpp:302-312 | a thunk without a price reverts without effect; one with a price throws only what the meter refused |
| `Execution.ExecutionContext.ChargeDisk` | libraries/chain/resource_meter.cpp:44-63 | any disk charge or refund leaves the meter as the journal says; it throws only what the meter refused |
| `Execution.ExecutionContext.ChargeNetwork` | libraries/chain/resource_meter.cpp:91-108 | a network charge leaves the counter by exactly its amount, or is refused by the meter and changes no counter |
| `Execution.ExecutionContext.ReportTicks` | libraries/chain/host_api.cpp:165-176 | a report of exactly what is owed is entered, with the outcome and the charge of `use_meter_ticks` |
| `Execution.ExecutionContext.SystemCall` | libraries/chain/include/koinos/chain/thunk_utils.hpp:239-300 | over every call tree below a native system call that kernel code does not re-enter: stack and privileges restored, depth at most 256, read-only state untouched, nothing done to the node but writes, cache equal to the parent lookup, resources conserved, every tick charged once; the call goes where the parent state sends it; if it was user only, writes are confined, kernel callers get true answers, and reads, writes, nonces and contract calls throw only for a reason a caller can check, a refused charge, or how the contract ended; it stops being user only at nothing but an override of the parent state or a system contract of the state |
| `Execution.ExecutionContext.Enter` | libraries/chain/host_api.cpp:66-103 | the same for both wrappers; the frame around a dispatched call is popped however the call ends |
| `Execution.ExecutionContext.NoRoom` | libraries/chain/execution_context.cpp:106-110 | at 256 frames a call reverts, on record, and does nothing else |
| `Execution.ExecutionContext.Dispatched` | libraries/chain/execution_context.cpp:322-383 | by the lookup in the parent state alone: a call that a contract overrides launches that contract at its entry point, in the mode of its metadata, and nothing before it, and yields what its run yields; a call that another thunk overrides is served by that thunk; a missing contract reverts, and so does a thunk that is no genesis thunk |
| `Execution.ExecutionContext.Resolved` | libraries/chain/execution_context.cpp:322-383 | the same, for a call that has been looked up |
| `Execution.ExecutionContext.Redirected` | libraries/chain/execution_context.cpp:322-352 | a contract runs in place of the call: the launches begin with the override and that contract, and the outcome is that of its run |
| `Execution.ExecutionContext.Translated` | libraries/chain/execution_context.cpp:373-376 | another thunk serves the caller in place of the call's own |
| `Execution.ExecutionContext.Delivered` | libraries/chain/host_api.cpp:76-90 | a result that does not fit the host API's buffer becomes a reversion |
| `Execution.ExecutionContext.ChargedThunk` | libraries/chain/host_api.cpp:92-99 | without a price the thunk has no effect; with one it throws what the charge or the thunk throws |
| `Execution.ExecutionContext.RunOverride` | libraries/chain/execution_context.cpp:322-352 | what an override yields is what its run ended in: its exception unless that is success, then for native code a nonzero result code, then the result that was set |
| `Execution.ExecutionContext.RunInFrame` | libraries/chain/system_calls.cpp:1276-1291 | a contract run in its own frame is launched first and at its entry point, leaves the stack as it was, and ends as its run does; without room it does not run; a user program's writes are in the zones of contracts that ran |
| `Execution.ExecutionContext.RunVm` | libraries/vm_manager/fizzy/fizzy_vm_backend.cpp:262-290 | over any interleaving of VM burns and host calls, nested runs included, compute charged equals ticks burned plus host charges less what was forgiven, and nothing is forgiven as long as every report in the run is within the budget, whatever happened before it; it returns if and only if its last report was accepted and nothing was thrown and nothing trapped, and otherwise ends in the error of that report, or else in what was thrown, or else in a reversion |
| `Execution.ExecutionContext.EndRun` | libraries/vm_manager/fizzy/fizzy_vm_backend.cpp:277-289 | the last report, and how the run ends by the journal |
| `Execution.ExecutionContext.VmStep` | libraries/vm_manager/fizzy/fizzy_vm_backend.cpp:168-260 | the tick hand-over: what was burned and not reported is owed to the tick, the grant never exceeds the remaining budget, and a host call refused before its charge point stays owed until the end; a trap or an exception is the last entry of the journal |
| `Execution.ExecutionContext.HostStep` | libraries/vm_manager/fizzy/fizzy_vm_backend.cpp:236-251 | the ticks burned are reported first, and after the call the VM is granted what the meter has left; a refused report or an exception brings the run down, on record |
| `Execution.ExecutionContext.Grant` | libraries/chain/host_api.cpp:153-163 | a VM that resumes owes nothing and has at most the remaining budget; one that was thrown into does not resume |
| `Execution.ExecutionContext.HostInvoke` | libraries/vm_manager/fizzy/fizzy_vm_backend.cpp:168-260 | any host call with any arguments keeps what call trees keep; what the VM sees of it is decided by how the call came out, and what is thrown into the VM is on record |
| `Execution.ExecutionContext.InvokeThunk` | libraries/chain/host_api.cpp:19-64 | refused to user code without any effect; to kernel code the thunk's outcome is returned as a code, and `exit` never returns |
| `Execution.ExecutionContext.InvokeSystemCall` | libraries/chain/host_api.cpp:105-151 | the call serves its caller; a reversion is thrown on into user code and returned to kernel code, a failure is returned to both, `exit` never returns, and the code the contract sees is the call's |
| `Execution.ExecutionContext.CallThunk` | libraries/chain/host_api.cpp:92-99 | every thunk serves its caller |
| `Execution.ExecutionContext.ApplyBlockCalled` | libraries/chain/system_calls.cpp:328-335 | `apply_block` called from within an execution: the block receipt is begun anew, then a user caller is refused |
| `Execution.ExecutionContext.ApplyTransactionCalled` | libraries/chain/system_calls.cpp:462-477 | `apply_transaction` called from within an execution: a user caller is refused, and a blank receipt for its transaction is added to the block receipt |
| `Execution.ExecutionContext.AddReceipt` | libraries/chain/system_calls.cpp:648-664 | a receipt is added to the block receipt, which must be one |
| `Execution.ExecutionContext.ResetReceipt` | libraries/chain/system_calls.cpp:330 | a new block receipt |
| `Execution.ExecutionContext.PutObject` | libraries/chain/system_calls.cpp:1022-1034 | a write that returns was permitted and not read-only, and is then readable; one that is permitted and not read-only throws only a refused charge |
| `Execution.ExecutionContext.RemoveObject` | libraries/chain/system_calls.cpp:1036-1046 | a removal that returns was permitted and not read-only, and the object is gone; one that is permitted and not read-only throws only a refused charge |
| `Execution.ExecutionContext.WriteObject` | libraries/chain/system_calls.cpp:1022-1034 | writes exactly when the caller is permitted, even if the charge that follows fails; a permitted one throws only that |
| `Execution.ExecutionContext.PutDirect` | libraries/chain/system_calls.cpp:392-394 | the unmetered write of the head block |
| `Execution.ExecutionContext.GetObject` | libraries/chain/system_calls.cpp:1048-1068 | returns the stored object to permitted callers, changes no state, and throws to them only a refused charge |
| `Execution.ExecutionContext.CallContract` | libraries/chain/system_calls.cpp:1261-1310 | in user-only execution the first thing launched is the contract at its entry point, in user mode since its metadata says so, or nothing is and the call throws; as long as `get_object` is not overridden, the first launch is the contract in the mode of its metadata; the call returns only if the run ended well, with the result last set and code zero, and otherwise throws what the run threw or the result code; the authorize entry point does not return to user code |
| `Execution.ExecutionContext.RunCalled` | libraries/chain/system_calls.cpp:1274-1310 | the run of a called contract and what its caller sees of it |
| `Execution.ExecutionContext.ReadContract` | libraries/chain/system_calls.cpp:1261-1270 | metadata as stored, of a contract that has bytecode; reading runs no contract; it throws only if one of the two is missing, or for the meter, a limit or a missing price |
| `Execution.ExecutionContext.ReadObject` | libraries/chain/system_calls.cpp:1264-1267 | the stored object, and no contract is run |
| `Execution.ExecutionContext.Exit` | libraries/chain/system_calls.cpp:1312-1338 | always throws, and the code becomes the result: the code itself with a valid error message, success for zero, and a reversion for any other code without one |
| `Execution.ExecutionContext.GetCaller` | libraries/chain/system_calls.cpp:1355-1380 | pops two frames and puts both back: the whole context is unchanged |
| `Execution.ExecutionContext.CheckAuthority` | libraries/chain/system_calls.cpp:1382-1444 | refused without effect when read-only; to kernel code: if the account's metadata delegates, the account's contract is the first thing run, at its authorize entry point, and the answer is the one it gave; otherwise a positive answer means a signature by the account was recovered; a positive answer is on record |
| `Execution.ExecutionContext.Authorize` | libraries/chain/system_calls.cpp:1409-1444 | with delegation the contract's answer is taken; without it a positive answer means a signature by the account; without a transaction as well it reverts and does nothing |
| `Execution.ExecutionContext.AnySigner` | libraries/chain/system_calls.cpp:1429-1438 | goes through signatures up to one by the account; a positive answer means one was recovered |
| `Execution.ExecutionContext.CheckSystemAuthority` | libraries/chain/system_calls.cpp:942-964 | to kernel code a positive answer means a signature by the stored genesis key was recovered, and is on record |
| `Execution.ExecutionContext.RequireSystemAuthority` | libraries/chain/system_calls.cpp:744-744 | returns only with the genesis key's authority |
| `Execution.ExecutionContext.AnyHelpers` | libraries/chain/system_calls.cpp:800-883 | any number of read-only system calls, overridden or not, keeps what call trees keep |
| `Execution.ExecutionContext.Helper` | libraries/chain/system_calls.cpp:800-883 | computing and reading thunks keep what call trees keep |
| `Execution.ExecutionContext.Trivial` | libraries/chain/system_calls.cpp:992-997 | RC consumption agrees and records account and amount; a log entry is taken or reverts |
| `Execution.ExecutionContext.EmitEvent` | libraries/chain/system_calls.cpp:1124-1151 | appends one event whose source is the caller; writes nothing |
| `Execution.ExecutionContext.PushEvent` | libraries/chain/chronicler.cpp:10-19 | session events stay exactly the chronicler's events since the session opened, and the journal counts them |
| `Execution.ExecutionContext.GetAccountNonce` | libraries/chain/system_calls.cpp:885-903 | to kernel code, the stored nonce or zero |
| `Execution.ExecutionContext.VerifyAccountNonce` | libraries/chain/system_calls.cpp:905-926 | to kernel code, true exactly for the stored nonce plus one modulo 2^64 |
| `Execution.ExecutionContext.SetAccountNonce` | libraries/chain/system_calls.cpp:928-940 | user code is refused without effect; for kernel code the nonce is stored, guarded against read-only intent inside the write |
| `Execution.ExecutionContext.GetAccountRc` | libraries/chain/system_calls.cpp:981-990 | to kernel code, the stored maximum of account resources |
| `Execution.ExecutionContext.ApplyUploadContract` | libraries/chain/system_calls.cpp:695-716 | writes bytecode and metadata of the named contract, on its account's authority, keeps its system flag, and names nothing else; refused without effect to user code and when read-only |
| `Execution.ExecutionContext.StoreContract` | libraries/chain/system_calls.cpp:695-716 | both objects are stored, with the system flag that was there |
| `Execution.ExecutionContext.StoreBoth` | libraries/chain/system_calls.cpp:695-716 | both objects are stored, with the given flag |
| `Execution.ExecutionContext.ApplyCallContract` | libraries/chain/system_calls.cpp:718-738 | runs the contract with the frame lowered to user mode, restores the frame, and never lets a failure out; to kernel code in user-only execution, it returns only after the named contract ran at the named entry point to a good end, and throws only for a reason |
| `Execution.ExecutionContext.ApplySetSystemCall` | libraries/chain/system_calls.cpp:740-775 | names only the dispatch entry, which then holds the target; the target was eligible, and the genesis key authorized it |
| `Execution.ExecutionContext.CheckTarget` | libraries/chain/system_calls.cpp:746-767 | `call` is never overridden by a contract, a contract target is a system contract with bytecode, a thunk target exists |
| `Execution.ExecutionContext.ApplySetSystemContract` | libraries/chain/system_calls.cpp:777-798 | names only the metadata of the contract, which then has the flag and is otherwise as it was; the contract exists, and the genesis key authorized it |
| `Execution.ExecutionContext.SetSystemFlag` | libraries/chain/system_calls.cpp:777-798 | the metadata of an existing contract is rewritten with nothing but the flag changed; clearing the flag makes no contract a system contract |
| `Apply.Preamble` | libraries/chain/system_calls.cpp:498-563 | before the operations the one system object written is the nonce of the nonce account; on success it is the next nonce, the payer authorized the transaction, and the payee too if its nonce counts, and the RC limit is within the payer's stored resources; it takes the steps of the source in order and ends at the first that does not pass, with that step's outcome |
| `Apply.CheckTransaction` | libraries/chain/system_calls.cpp:499-538 | names no system object; the payer's resources are as stored and cover the limit; payer and, if its nonce counts, payee authorized the transaction |
| `Apply.AdvanceNonce` | libraries/chain/system_calls.cpp:540-548 | the nonce is checked against the stored one and then stored |
| `Apply.Operations` | libraries/chain/system_calls.cpp:572-594 | the system objects written are those the operations name; when all are applied each shows in the state, unless a later one is about the same objects; the contract of each call operation was launched, in order; uploads and changes to the system were authorized; the transaction's size was charged as network use; it takes callback, charge, each operation and callback in order and ends at the first that does not pass |
| `Apply.ApplyAll` | libraries/chain/system_calls.cpp:576-590 | the operations in order, up to the first that does not return |
| `Apply.ApplyOperation` | libraries/chain/system_calls.cpp:576-590 | one operation writes the system objects it names, and shows in them; a call operation that returns has first launched its contract, which ended well, and one that throws has a reason; an unknown operation reverts without effect |
| `Apply.Demand` | libraries/chain/system_calls.cpp:532-548 | a system call that answers no becomes an exception of the given code, and anything else it throws is passed on |
| `Apply.OneMoreRan` | libraries/chain/system_calls.cpp:576-590 | the call operations' contracts stay launched in order, and the other operations authorized, as operations are added |
| `Apply.OneMoreShown` | libraries/chain/system_calls.cpp:576-590 | what earlier operations left stays unless the next is about the same objects |
| `Apply.OperationsAreNotReserved` | libraries/chain/system_calls.cpp:695-798 | no operation names a nonce or chain metadata |
| `Apply.RunOverlay` | libraries/chain/system_calls.cpp:565-625 | the history gains a fork, writes, and a merge or a drop; merged, every operation shows in the block node and every call operation's contract was launched; dropped, the block node is as it was |
| `Apply.NodeOfTrx` | libraries/chain/system_calls.cpp:565-646 | the block node is exactly what a transaction's part of the history leaves of its writes |
| `Apply.FiguresAreUse` | libraries/chain/system_calls.cpp:632-634 | the unsigned differences of meter readings are the session's use; the disk reading clamps, and its difference is right if and only if both readings clamp by the same excess |
| `Apply.TallyIsTrue` | libraries/chain/system_calls.cpp:627-634 | what the meter, the session and the chronicler show at the end of a session is what a receipt should report of it |
| `Apply.Tally` | libraries/chain/system_calls.cpp:627-636 | the receipt reports the session that was opened at its place in the journal, which is then closed |
| `Apply.RcIsFigures` | libraries/chain/system_calls.cpp:627-634 | the RC of a receipt is its three figures times their costs when nothing clamps and disk was not refunded on balance |
| `Apply.UnderSession` | libraries/chain/system_calls.cpp:498-625 | the history gains the preamble's writes, a fork, the operations' writes, and a merge or a drop; a reverted transaction leaves no system object changed but the nonce, another shows every operation; it ends as the preamble did, its reversions made failures, or else as the operations did |
| `Apply.Settle` | libraries/chain/system_calls.cpp:627-646 | closing the session, consuming exactly the RC of the receipt from the payer, and the end the transaction comes to by how that came out; consumption by the default thunk emits no event |
| `Apply.NonceAdvances` | libraries/chain/system_calls.cpp:540-570 | preamble and operations together step one nonce and keep the other nonces and metadata |
| `Apply.ApplyTransaction` | libraries/chain/system_calls.cpp:462-693 | atomicity: exactly one end, decided by the recorded steps: a failure if the preamble does not pass or an operation fails, unsettled if consuming RC reverts, otherwise committed or reverted as the operations were; the history gains preamble writes, a fork, operation writes, a merge if and only if it is not reverted and a drop otherwise, consumption writes, and the node is what that leaves; if it was user only, a committed transaction shows every operation and launched the contract of each call operation in order, a reverted one changed no system object but the nonce, which in both steps to the transaction's, and payer and payee authorized it; the receipt, posted in every case, reports the one session of its part of the journal: figures, of which network covers the size of a committed transaction, price within `rc_limit`, and events up to its close, which if it was user only are all; that RC is what is consumed; every tick is charged once; writes are confined |
| `Apply.Conduct` | libraries/chain/system_calls.cpp:479-646 | the same for an unrefused transaction, up to the receipt |
| `Apply.Conclude` | libraries/chain/system_calls.cpp:625-646 | the same from the end of the operations on |
| `Apply.Concluded` | libraries/chain/system_calls.cpp:625-646 | the parts of an accepted transaction put together |
| `Apply.NetworkFigure` | libraries/chain/system_calls.cpp:632-634 | the network figure of a receipt is the fall of the counter under its session |
| `Apply.ToldOutcomes` | libraries/chain/system_calls.cpp:462-693 | the steps of a transaction say how it ended, and are no verdict on a transaction themselves |
| `Blocks.CallApplyTransaction` | libraries/chain/system_calls.cpp:396-404 | the call a block applies a transaction through, and where its session lies in the block's journal; how the transaction ended is the one verdict on it; without a price in the compute registry it has no effect |
| `Blocks.ApplyTransactions` | libraries/chain/system_calls.cpp:396-404 | the transactions are tried in order; every one that returns or reverts is followed by the next, the first that does neither ends the block with its own outcome, and the block gets past them if and only if there is none such; one receipt of its own per transaction, in order |
| `Blocks.TraceExtend` | libraries/chain/system_calls.cpp:396-404 | each accepted transaction extends the block's trace of receipts, uses, events and states |
| `Blocks.EventsPartition` | libraries/chain/system_calls.cpp:221-254 | every event of a block belongs to no transaction and no receipt, or to exactly one transaction, is listed by at most its receipt and at its place, and is unlisted only after a reversion or after that transaction's session closed |
| `Blocks.ReceiptsTotal` | libraries/chain/system_calls.cpp:244-251 | receipt figures for compute, network and disk add up to the uses, disk modulo 2^64 and up to the clamping of readings |
| `Blocks.BlockConserves` | libraries/chain/resource_meter.cpp:28-63 | limit minus remaining equals system use plus the receipts' figures, reverted transactions included; for disk, modulo 2^64, if and only if the clamping at the opens and closes of the sessions cancels, in particular when none clamps |
| `Blocks.ReceiptsListed` | libraries/chain/system_calls.cpp:204-261 | what the block receipt lists, and when that is one receipt per transaction in order |
| `Blocks.SetBlockLimits` | libraries/chain/system_calls.cpp:339 | the accounts of the block start with the limits |
| `Blocks.HeaderCharged` | libraries/chain/system_calls.cpp:374-374 | the network use of the header is the system's |
| `Blocks.Prepare` | libraries/chain/system_calls.cpp:341-394 | the block is stored as its own head block, the one system object written; the header's size is charged as network use; the steps are taken in order up to the first that does not pass |
| `Blocks.Finish` | libraries/chain/system_calls.cpp:406-439 | names no system object; callback, the producer's RC and the block's resources are taken in order, and each must agree |
| `Blocks.RunKeepsHead` | libraries/chain/system_calls.cpp:392-404 | no transaction touches the head block object |
| `Blocks.BlockKeepsMetadata` | libraries/chain/system_calls.cpp:339-439 | outside the transactions no nonce moves, and the head block object is the block's |
| `Blocks.ApplyBlock` | libraries/chain/system_calls.cpp:328-460 | how a block ends is decided by its recorded steps: opening, transactions, of which a reverted one is swallowed and anything worse ends the block, and closing; a successful block: every transaction has its session in the block's journal, in order, and its receipt, which reports it, posted in order and listed as `ReceiptsGenuineExactly` says (none if transactions have no price); conservation, with the header's size within the system's network use; writes confined to what the block names and to zones of contracts that ran; if it was user only, the block is stored as head block, nonces step only by its transactions, and receipts of unreverted transactions list all their events; refused to other intents and user callers, with no effect but a new receipt |
| `Nonces.BranchIsRun` | libraries/chain/system_calls.cpp:540-570 | the accepted transactions of a branch form one run of nonce steps, however they fall into blocks |
| `Nonces.NonceAfter` | libraries/chain/system_calls.cpp:905-940 | the stored nonce is that of any earlier use plus the uses since |
| `Nonces.NonceDiscipline` | libraries/chain/system_calls.cpp:481-486 | two accepted transactions of an account differ in nonce by exactly the number of its transactions between them, reverted ones included; neighbours are consecutive; no pair repeats within 2^64 |
| `Nonces.ChainIsBranch` | libraries/chain/system_calls.cpp:540-570 | successful user-only blocks, each on the nonces the one before it left, form such a branch |
| `Nonces.ChainDiscipline` | libraries/chain/system_calls.cpp:481-486 | nonce discipline of applied blocks |
| `Queries.ReadContract` | libraries/chain/controller.cpp:771-817 | whatever a read contract calls, overrides and system contracts included, its overlay stays empty, the stack returns to one frame and compute stays within the read limit |
| `MerkleCost.CountIsLevels` | libraries/chain/system_calls.cpp:263-273 | for every uint64: 1 for at most one leaf, otherwise the level-by-level sum, between n - 1 and n - 1 + ceil(log2 n) |
| `MerkleCost.AndPredecessor` | libraries/chain/system_calls.cpp:269 | the bit test holds exactly of powers of two |
| `MerkleCost.LevelsBounds` | libraries/chain/system_calls.cpp:263-273 | bounds of the level-by-level sum |
| `MerkleCost.TopCase` | libraries/chain/system_calls.cpp:268-270 | at 2^64 - 1 the rounding wraps and the answer is still right |
| `ModuleCaching.AnyRunIsSound` | libraries/vm_manager/fizzy/module_cache.cpp:14-48 | under any interleaving of puts and gets, duplicate puts included: every map entry points to a live node of its own id, the list stays within capacity, a hit returns the last module put |
| `ModuleCaching.CacheIsLru` | libraries/vm_manager/fizzy/module_cache.cpp:14-48 | when puts follow misses the residents are exactly the capacity-many most recently used ids in order |
| `ModuleCaching.GetKeepsSound` | libraries/vm_manager/fizzy/module_cache.cpp:14-29 | a get keeps every iterator live |
| `ModuleCaching.PutKeepsSound` | libraries/vm_manager/fizzy/module_cache.cpp:31-48 | a put keeps every iterator live |
| `ModuleCaching.TidyThroughoutExactly` | libraries/vm_manager/fizzy/module_cache.cpp:14-48 | over a whole run, one node per resident id all along if and only if every put followed a miss or evicted the id itself |
| `ModuleCaching.PutTidyExactly` | libraries/vm_manager/fizzy/module_cache.cpp:31-48 | a put keeps one node per id if and only if the id missed or is the one evicted |
| `ModuleCaching.RacingPutsEvictEarly` | libraries/vm_manager/fizzy/fizzy_vm_backend.cpp:296-304 | two racing runs that both missed make the cache evict a recent id |
| `ModuleCaching.ModuleCache.constructor` | libraries/vm_manager/fizzy/module_cache.cpp:6 | an empty cache |
| `ModuleCaching.ModuleCache.EraseNode` | libraries/vm_manager/fizzy/module_cache.cpp:23 | erasing through an iterator |
| `ModuleCaching.ModuleCache.GetModule` | libraries/vm_manager/fizzy/module_cache.cpp:14-29 | refines the abstract get |
| `ModuleCaching.ModuleCache.PutModule` | libraries/vm_manager/fizzy/module_cache.cpp:31-48 | refines the abstract put |
| `ModuleCaching.ModuleCache.Load` | libraries/vm_manager/fizzy/fizzy_vm_backend.cpp:292-308 | after a run's lookup its module is resident, most recent, and the one it runs; an empty id bypasses the cache |
| `Forks.RunIsSafe` | libraries/chain/controller.cpp:377-410 | over every interleaving of submissions, forged ones included, the root's revision never falls, every node and the head descend from the root, the head is at most 60 above it, and the cached head block is the head's |
| `Forks.StepMovesRoot` | libraries/chain/controller.cpp:400-404 | the root moves only to a strictly higher descendant of itself, an ancestor of a block that has just become head |
| `Forks.LibNeedsNewHead` | libraries/chain/controller.cpp:377-404 | a LIB above the root implies a block above the head |
| `Forks.StepKeepsInv` | libraries/chain/controller.cpp:257-410 | every step of every submission keeps the tree and job invariant |
| `Forks.FinalizeKeepsTree` | libraries/chain/controller.cpp:388-404 | the atomic section keeps the tree |
| `Forks.AdvanceKeepsTree` | libraries/chain/controller.cpp:400-404 | committing the LIB prunes to a tree rooted at it |
| `Forks.AncestorAt` | libraries/chain/controller.cpp:402 | the ancestor at a revision exists and has it |
| `Forks.PathsRise` | libraries/chain/controller.cpp:286-337 | along every path heights are revisions, one per block, and timestamps strictly increase |
| `Forks.FailureIsLocal` | libraries/chain/controller.cpp:464-511 | a submission that creates its node and fails inside the code's failure handling leaves no trace, whatever others did in between: root, head, cached head block and finalized nodes as they were, its own node gone and no other |
| `Forks.FailureLeavesNoNodeExactly` | libraries/chain/controller.cpp:284-305 | a failed submission leaves no node if and only if it failed inside the code's failure handling; a throw of `get_head_info` before it leaves the node, and the block cannot be submitted again |
| `Forks.WhileApplying` | libraries/chain/controller.cpp:284-377 | while a block is being applied nothing is finalized |
| `Forks.ResubmissionIsNoOp` | libraries/chain/controller.cpp:266 | submitting a known block changes nothing |
| `Forks.SubmittedAlone` | libraries/chain/controller.cpp:255-410 | a new block on a finalized parent, submitted alone: if it follows its parent it becomes a finalized node, the head if it is higher, and moves the root to 60 below it if that is higher; otherwise nothing is left of it |
| `Forks.OpenedIsValid` | libraries/chain/controller.cpp:140-202 | a freshly opened database satisfies the invariant |
| `Forks.Controller.constructor` | libraries/chain/controller.cpp:140-202 | one finalized node that is root and head |
| `Forks.Controller.LookUp` | libraries/chain/controller.cpp:255-275 | the reply for each case; the reply for the current LIB without parent is never reached |
| `Forks.Controller.CreateWritableNode` | libraries/chain/controller.cpp:284-313 | a node under a finalized parent, for one of several racing submissions |
| `Forks.Controller.ApplyOrDiscard` | libraries/chain/controller.cpp:286-377 | applied if and only if it follows its parent and passes `apply_block`; otherwise its node alone is discarded |
| `Forks.Controller.FinalizeSection` | libraries/chain/controller.cpp:388-404 | the atomic section refines its step; the root moves only for a new head, whose block is then cached |
| `Indexing.IndexingIsSafe` | libraries/chain/indexer.cpp:112-226 | over every interleaving, interrupts and errors included: blocks are submitted in ascending order exactly once, success implies every height up to the target was submitted, requests tile the heights above the start, at most (target - start) / 50 + 1 of them |
| `Indexing.TilesPartition` | libraries/chain/indexer.cpp:112-140 | every height in the tiled range is asked for exactly once, any other never |
| `Indexing.StepKeepsInv` | libraries/chain/indexer.cpp:112-226 | each step of either chain keeps the pipeline invariant |
| `Indexing.RequestStepKeepsInv` | libraries/chain/indexer.cpp:112-200 | the request chain keeps it |
| `Indexing.FeederStepKeepsInv` | libraries/chain/indexer.cpp:202-226 | the block chain keeps it |
| `Indexing.RestIsComplete` | libraries/chain/indexer.cpp:202-226 | an undisturbed run at rest has submitted everything, and has signalled success unless the block chain starves |
| `Indexing.IndexingCompletes` | libraries/chain/indexer.cpp:112-226 | from the prepared state the request chain ends after finitely many steps, and then the block chain, with every block submitted and success signalled |
| `Indexing.RequestProgress` | libraries/chain/indexer.cpp:112-200 | every step of the undisturbed request chain brings it closer to its end |
| `Indexing.FeederProgress` | libraries/chain/indexer.cpp:202-226 | every step of the undisturbed block chain does, once all is queued and unless it starves |
| `Indexing.StarvedRun` | libraries/chain/indexer.cpp:209-221 | a run that starves |
| `Indexing.DoomedStays` | libraries/chain/indexer.cpp:209-221 | once starving, neither chain ever signals success |
| `Indexing.DoomedExactly` | libraries/chain/indexer.cpp:209-221 | starvation begins exactly when the flag is found down after the last block |
| `Indexing.DanglingRun` | libraries/chain/indexer.cpp:209-215 | a run in which that happens |
| `Indexing.DanglingExactly` | libraries/chain/indexer.cpp:209-215 | the promise is used after its reset exactly when a stop falls between the last check and the signal |
| `Indexing.PreparedIsValid` | libraries/chain/indexer.cpp:89-100 | the pipeline starts in the invariant, or is complete at once |
| `Indexing.Indexer.constructor` | libraries/chain/indexer.cpp:89-100 | prepare_index |
| `Indexing.Indexer.SendRequests` | libraries/chain/indexer.cpp:119-140 | refines the request step |
| `Indexing.Indexer.ProcessRequests` | libraries/chain/indexer.cpp:163-181 | refines the request step |
| `Indexing.Indexer.QueueBlock` | libraries/chain/indexer.cpp:183-186 | refines the request step; batches double up to 1000 |
| `Indexing.Indexer.ProcessBlock` | libraries/chain/indexer.cpp:206-225 | refines the block step |
| `Indexing.Indexer.HandleError` | libraries/chain/indexer.cpp:39-51 | stops the pipeline; success was not and will not be signalled |

## Left out

- Re-entry by kernel code: what a system contract or override that calls `apply_block` or `apply_transaction` does from there on; such a run ends in the outcome `Reentered`.
- Stored bytes: it is not claimed that every stored byte is charged, since `put_object` writes before it charges.
- Call results: it is not claimed that a callee ending without `exit` returns an empty result, since the last result is not cleared.
- Logs: the log buffers are modelled in the chronicler but not carried through the execution context or receipts.
- State delta entries in receipts, and the block receipt's own list of events outside transactions.
- `get_fork_data`: sorting the fork heads by height; its loop that should put the head first on ties never advances.
- Helper thunks (hashing, signatures, VRF, Merkle proofs, object iteration, block and transaction field access, callbacks) are over-approximated by `Helper`: any charge, any read-only system calls, any result.
- The amounts passed to `consume_account_rc` for the block producer and to `consume_block_resources`: the default thunks ignore them.
- `submit_transaction` and the other read-only queries of the controller: they enter the same execution as the parts modelled.
- The `pob` and `block_time` head comparators: they belong to the state database; fork results are for height-first choice.
- The indexer's `handle_error` and signal handler are single steps; their own races on the promise are not modelled.
- Field validation, protobuf reflection, the WebAssembly interpreter, RPC, broadcasts, logging and program options.
- Blocks.ApplyBlock: disk conservation is modulo 2^64, because the source's counter is; `DiskNeverExceeded` is without it while remaining disk stays within int64.
- Execution.ExecutionContext.CheckAuthority: which addresses the signatures recover to, and what the contract answers, is left open; that a signature by the account is always found is not claimed.
- Execution.ExecutionContext.RunVm: whether a module loads is left open; one that does not reverts.
- The authorization flags an upload sets are left open.
