# Ethernet ring protection: the node state machine and the ring it protects

A Dafny model of the ITU-T G.8032 ring protection implementation in `subsys/net/l2/ethernet/erps`,
with proofs about single nodes, whole runs of a node, and rings of any size.

Verify with `dafny verify dfyconfig.toml`. Several proofs narrow what the solver sees
with `hide`; no definition is opaque.

## How the model is built

- `Requests`, `NodeIds`, `Raps`: the request alphabet with its priority order, node identifiers
  compared as `memcmp` does, the PDU and its bit fields.
- `NodeModel`, `Fsm`, `Events`: a node as a value, and what one event does to it. Every foreign call
  (interface lookup, driver port control, VLAN lookup, timer and transmit rescheduling, database flush,
  address lookup, taking the mutex, sending a frame) ends as an arbitrary `Env` says, so any combination
  of failures is covered. A step ends as `Done`, as `Failed` at the call that failed, or as `Trap` where
  the C code would hit an assertion, a null PDU or code marked unreachable. The counter `doubleStarts`,
  which the C code does not have, records starts of a timer that is already running.
- `RingNode`: the class `Node`, whose methods do what the C functions do, statement by statement and in
  place on two ports, including the re-entrant post made while a timer is started. Each method is proved
  to produce exactly the state and return value of the corresponding function, for every `Env`.
- `Table`, `TableFacts`: the same state machine without failures, as one row per state and request. The
  rows say what the code does, in the form of Table 10-2; they are not taken from the recommendation.
- `Refinement`: a post that reports success did what that table says, one that fails returns the code of
  a call that failed, and with working foreign calls every post succeeds.
- `Priority`, `Effects`, `Reception`: an independent account of the priority logic by name, of each state and
  request by what can be observed afterwards, and of received frames by their octets.
- `Robustness`, `Failures`, `Stages`, `Runs`: what no failure can break, what a failed handler leaves and in
  which order it makes its calls, and what holds on every run.
- `Safety`, `SafeRuns`, `Persistence`, `Retransmission`, `Backing`: invariants of one node with working foreign calls.
- `Ring`, `Reversion`, `Convergence`, `Election`: rings of nodes. A ring step is an event at a node or the
  delivery of the current PDU of a node that is sending to any node, dropped while its guard timer runs.
- `Loops`, `Lapses`: runs of freshly started nodes in which the exceptions to those properties happen.
- `Frames`, `Roles`: bytes on the wire, the transmission schedule, and the choice of the RPL before start.

"Foreign calls succeed" below is `env.Succeeds()`; interfaces may still be up or down. `env.Audible()`
says that moreover some interface is up. One post is atomic (the mutex), and a timer firing and its post
are one step.

## What the proofs show about the code

- Loop freedom holds for every ring and every interleaving in which two local events are avoided at a
  node that has no port blocked: CLEAR_SF in PROTECTION (row 20 schedules R-APS(NR) without looking at
  the ports) and the interface-up callback (it re-arms the old PDU even after transmission was stopped).
  These are exactly the steps that break the invariant (`Ring.RingStepKeepsSafe`). Clearing a signal
  failure only while it is latched is always safe (`Ring.TidyLoopFreedom`).
  `Loops.LoopWhenExposed` is a seven-step run of a two-node ring in which either event leads to no port
  being blocked, and `SafeRuns.StepKeepsSafe` shows that no other event makes a node speak unblocked,
  apart from R-APS(NR,RB) heard by its own sender, which a ring cannot produce.
- The same callback makes an owner send R-APS(NR,RB) in PROTECTION (`Lapses.RbBitLies`), and another node
  R-APS(SF) in FORCED_SWITCH (`Lapses.SfOutlivesFailure`). Otherwise nodes that are not the owner send
  R-APS(SF) and (FS) only while the request is latched (`Backing.StepKeepsBacked`); the owner does not
  keep to this, as it accepts CLEAR in PROTECTION without leaving it (`Lapses.OwnerSendsUnlatchedSf`).
- A revertive owner can be left in PENDING with no timer running by exactly two events
  (`Persistence.StepKeepsRevert`): CLEAR of a switch that blocked nothing at this node, and R-APS(NR,RB)
  heard in PROTECTION, MANUAL_SWITCH or FORCED_SWITCH. Both happen to any freshly started owner
  (`Lapses.StrandedByClear`, `Lapses.StrandedByNrRb`); in a ring with one owner only the first can
  (`Reversion.RingStepKeepsReversion`).
- When foreign calls fail, a revertive owner that waits in PENDING loses its timer if and only if the event
  that failed is CLEAR, MS or the expiry itself (`Failures.FailedEventKeepsWaiting`), since only these stop
  the timers before doing anything that can fail; a refused MS even stays latched in PENDING
  (`Lapses.StrandedByFailure`). No local event opens the last blocked port, whatever fails
  (`Ring.LocalEventKeepsLastBlocked`).
- Repeated R-APS(MS) settles except at a revertive owner with a port both failed and blocked, where
  rows 36 and 64 alternate for ever (`Retransmission.RepeatedMs`). The `failed` flag is cleared only
  when a port is unblocked, so such a port survives CLEAR_SF and the return to IDLE: one failure and
  recovery of the RPL is enough (`Lapses.OwnerSwaysForEver`).
- Election leaves two speakers when the owner speaks and waits to revert: its latched WTR or WTB makes it
  ignore R-APS(NR), whatever the identifier of the sender (`Election.HighestIdWins`,
  `Lapses.TwoSpeakersAtRest`).
- While a ring settles, a frame of a node other than the owner does harm if and only if it is an R-APS(MS)
  heard by a node in IDLE or PENDING (`Convergence.SettlingStep`). Such frames exist: CLEAR_SF un-latches a
  manual switch without ending it, and the R-APS(MS) of that node then pulls the owner out of IDLE
  (`Lapses.MsPullsOwner`).
- In `erps_local_clear_valid` the comment promises that CLEAR is never valid while R-APS(MS) or R-APS(FS)
  is the top request. The code takes the minimum with CLEAR, the smallest value, so that branch never
  fires; the model follows the code (`Refinement.PriorityRefines`).
- The end TLV of a sent PDU is not written by `erps_raps_create`; the round trip holds for any value.

## Model

| member | source | states |
|---|---|---|
| NodeIds.MemcmpOrdersByValue | subsys/net/l2/ethernet/erps/erps-fsm-common.c:91-94 | the byte-wise comparison of node identifiers is the numeric order of the addresses, and zero only for equal ones |
| RingNode.Node.BlockLink | subsys/net/l2/ethernet/erps/erps.c:333-374 | in-place blocking with every failure: an already blocked port is left alone, the flag changes only after the driver accepted, a missing VLAN interface is an error although the port is blocked |
| RingNode.Node.UnblockLink | subsys/net/l2/ethernet/erps/erps.c:376-412 | in-place unblocking with every failure; the failed flag is cleared even when nothing else happens |
| RingNode.Node.UnblockLinkForce | subsys/net/l2/ethernet/erps/erps.c:414-418 | unblocking reaches the driver whatever the cached flag says |
| RingNode.Node.UnblockAllLinks | subsys/net/l2/ethernet/erps/erps.c:420-432 | both ports in order, stopping at the first failure |
| RingNode.Node.UnblockNonFailedLinks | subsys/net/l2/ethernet/erps/erps.c:434-448 | only ports not marked failed, in order, stopping at the first failure |
| RingNode.Node.ReplacePdu | subsys/net/l2/ethernet/erps/erps.c:477-487 | a burst is asked for exactly when request, subcode or status differ from the last PDU |
| RingNode.Node.ArmTransmitters | subsys/net/l2/ethernet/erps/erps.c:504-518 | both transmitters in order, skipping interfaces that are down and stopping at a failure |
| RingNode.Node.ScheduleTx | subsys/net/l2/ethernet/erps/erps.c:450-521 | the whole scheduling, with the rejection of invalid request/state and subcode |
| RingNode.Node.StopTransmission | subsys/net/l2/ethernet/erps/erps.c:794-799 | both transmitters are off and nothing else changes |
| RingNode.Node.StartTimer | subsys/net/l2/ethernet/erps/erps.c:737-779 | starting WTR or WTB, with the nested post; termination of the recursion is proved with the request kind as measure |
| Fsm.NestedPostOnlyLatches | subsys/net/l2/ethernet/erps/erps.c:763-774 | the nested post succeeds in every state, UNINIT included, starts no timer and changes nothing but the latched request, and that only to raise its priority |
| RingNode.Node.ResolveRequestPriority | subsys/net/l2/ethernet/erps/erps.c:594-631 | which requests are ignored and what is latched, updated in place |
| Refinement.PriorityRefines | subsys/net/l2/ethernet/erps/erps.c:569-631 | accepted means of at least the priority of the latched request; CLEAR needs a local FS or MS or the owner role; CLEAR_SF always passes a latched SF |
| Priority.PriorityByName | subsys/net/l2/ethernet/erps/erps-internal.h:25-69 | by name: under FS only FS passes, under SF only FS, R-APS(FS), SF and CLEAR_SF, under MS also R-APS(SF), R-APS(MS) and MS, under a running timer all but the lower ones; CLEAR only at the owner or under FS or MS; and what is latched |
| Priority.PostByName | subsys/net/l2/ethernet/erps/erps.c:633-697 | a post that succeeds latches by that rule, marks the port of a signal failure as failed in every state, ignores CLEAR_SF of the RPL outside PROTECTION, and applies the row of the state |
| Priority.InvalidIsRefused | subsys/net/l2/ethernet/erps/erps-fsm-idle.c:118-156 | the number that stands for no request is refused in every state |
| Priority.MsYieldsToRapsMs | subsys/net/l2/ethernet/erps/erps-fsm-manual-switch.c:71-101 | R-APS(MS) un-latches a manual switch of the node, replaces its R-APS(MS) by R-APS(NR) and starts the guard timer |
| Priority.SfInForcedSwitch | subsys/net/l2/ethernet/erps/erps.c:654-657 | a signal failure in FORCED_SWITCH marks exactly its port and blocks nothing, and is ignored under a forced switch of this node |
| RingNode.Node.FsSfMs | subsys/net/l2/ethernet/erps/erps-fsm-common.c:25-53 | the common FS, SF and MS sequence, stopping at the first failing call |
| TableFacts.SwitchToBlocksOne | subsys/net/l2/ethernet/erps/erps-fsm-common.c:25-53 | exactly the given port ends up blocked; others are told not to flush exactly when this node did not flush |
| RingNode.Node.UnblockAndStop | subsys/net/l2/ethernet/erps/erps-fsm-common.c:55-74 | the common R-APS(FS/SF/MS) sequence |
| TableFacts.OpenAndMuteOpensAll | subsys/net/l2/ethernet/erps/erps-fsm.h:153-156 | R-APS(FS) leaves nothing blocked, nothing failed, and silence |
| TableFacts.OpenSoundKeepsFailed | subsys/net/l2/ethernet/erps/erps-fsm.h:163-176 | R-APS(SF) and R-APS(MS) leave blocked exactly the ports that were blocked and failed, and silence |
| RingNode.Node.MaybeUnblockAndStop | subsys/net/l2/ethernet/erps/erps-fsm-common.c:76-102 | yielding to a higher node identifier |
| RingNode.Node.ClearCommon | subsys/net/l2/ethernet/erps/erps-fsm-common.c:104-126 | CLEAR of a manual or forced switch |
| TableFacts.ReleaseArmsTimers | subsys/net/l2/ethernet/erps/erps.c:251-255 | a revertive owner that clears a switch arms guard and WTB, the WTB five seconds longer |
| Effects.IdleEffects | subsys/net/l2/ethernet/erps/erps-fsm-idle.c:118-156 | what each request does in state A: next state, blocked and failed ports, PDU by octet, transmission, flush, timers |
| Effects.ProtectionEffects | subsys/net/l2/ethernet/erps/erps-fsm-protection.c:92-128 | the same for state B, with the duration of WTR |
| Effects.ManualSwitchEffects | subsys/net/l2/ethernet/erps/erps-fsm-manual-switch.c:125-164 | the same for state C, with the duration of WTB |
| Effects.ForcedSwitchEffects | subsys/net/l2/ethernet/erps/erps-fsm-forced-switch.c:69-102 | the same for state D |
| Effects.PendingSwitchEffects | subsys/net/l2/ethernet/erps/erps-fsm-pending.c:62-173 | FS, SF, MS and their remote forms in state E, with the timers stopped |
| Effects.PendingEffects | subsys/net/l2/ethernet/erps/erps-fsm-pending.c:17-60 | CLEAR, expiries and R-APS(NR) in state E: reversion to the RPL, or yielding, with the timers stopped or kept |
| Effects.PendingNrRbEffects | subsys/net/l2/ethernet/erps/erps-fsm-pending.c:246-296 | R-APS(NR,RB) in state E by role |
| RingNode.Node.PostIdle | subsys/net/l2/ethernet/erps/erps-fsm-idle.c:118-156 | state A dispatcher |
| RingNode.Node.RapsNrRbIdle | subsys/net/l2/ethernet/erps/erps-fsm-idle.c:75-97 | R-APS(NR,RB) in IDLE |
| RingNode.Node.PostProtection | subsys/net/l2/ethernet/erps/erps-fsm-protection.c:92-128 | state B dispatcher |
| RingNode.Node.ClearSfProtection | subsys/net/l2/ethernet/erps/erps-fsm-protection.c:48-68 | CLEAR_SF in PROTECTION |
| RingNode.Node.RapsNrProtection | subsys/net/l2/ethernet/erps/erps-fsm-protection.c:70-90 | R-APS(NR) and (NR,RB) in PROTECTION |
| RingNode.Node.PostManualSwitch | subsys/net/l2/ethernet/erps/erps-fsm-manual-switch.c:125-164 | state C dispatcher |
| RingNode.Node.RapsMsManualSwitch | subsys/net/l2/ethernet/erps/erps-fsm-manual-switch.c:71-101 | R-APS(MS) in MANUAL_SWITCH; only a revertive owner leaves the state |
| RingNode.Node.PostForcedSwitch | subsys/net/l2/ethernet/erps/erps-fsm-forced-switch.c:69-102 | state D dispatcher |
| RingNode.Node.FsForcedSwitch | subsys/net/l2/ethernet/erps/erps-fsm-forced-switch.c:26-43 | a second forced switch |
| RingNode.Node.RapsNrSwitched | subsys/net/l2/ethernet/erps/erps-fsm-forced-switch.c:45-67 | R-APS(NR) and (NR,RB) while switched |
| RingNode.Node.PostPending | subsys/net/l2/ethernet/erps/erps-fsm-pending.c:310-351 | state E dispatcher, with the wrappers that stop the timers |
| RingNode.Node.ClearPending | subsys/net/l2/ethernet/erps/erps-fsm-pending.c:17-60 | CLEAR in PENDING |
| RingNode.Node.BlockRplAndAnnounce | subsys/net/l2/ethernet/erps/erps-fsm-pending.c:175-208 | the sequence that blocks the RPL and announces it; its assertions hold |
| TableFacts.RevertBlocksRpl | subsys/net/l2/ethernet/erps/erps-fsm-pending.c:175-208 | reversion leaves exactly the RPL blocked and R-APS(NR,RB) being sent |
| RingNode.Node.ExpiresPending | subsys/net/l2/ethernet/erps/erps-fsm-pending.c:210-244 | expiry of WTR or WTB in PENDING |
| RingNode.Node.RapsNrRbPending | subsys/net/l2/ethernet/erps/erps-fsm-pending.c:246-296 | R-APS(NR,RB) in PENDING by role; the unreachable case is not reached |
| RingNode.Node.PostLocked | subsys/net/l2/ethernet/erps/erps.c:633-697 | one locked post, including the ignored CLEAR_SF on the RPL after the priority logic has run |
| RingNode.Node.PostRequest | subsys/net/l2/ethernet/erps/erps.c:699-716 | a post that does not get the lock reports the error and changes nothing; any other is one locked post, and keeps an initialized node valid whatever fails |
| RingNode.Node.Control | subsys/net/l2/ethernet/erps/erps-ctl.c:13-38 | the five management events |
| RingNode.Node.LinkDownWork | subsys/net/l2/ethernet/erps/erps.c:1477-1497 | an interface that does not come up counts as a signal failure, unless its device is not found |
| RingNode.Node.WtrWork | subsys/net/l2/ethernet/erps/erps.c:1249-1264 | WTR handler |
| RingNode.Node.WtbWork | subsys/net/l2/ethernet/erps/erps.c:1266-1281 | WTB handler |
| RingNode.Node.TxWork | subsys/net/l2/ethernet/erps/erps.c:1182-1247 | the transmit handler sends the current PDU if the interface is found, up and able to send, and tries to re-arm itself whatever became of the frame |
| RingNode.Node.Receive | subsys/net/l2/ethernet/erps/erps.c:905-971 | reception: own frames, wrong opcode, unsupported requests and guarded frames change nothing, and a frame is consumed exactly when it is heard or flushes and that succeeds |
| RingNode.Node.constructor | subsys/net/l2/ethernet/erps/erps.c:1781-1800 | a node as described by the devicetree is ready for configuration and start |
| RingNode.Node.FindPort | subsys/net/l2/ethernet/erps/erps.c:229-249 | the first port on a device |
| RingNode.Node.SetAsRpl | subsys/net/l2/ethernet/erps/erps.c:1394-1431 | choosing the RPL, swapping the ports so that it has index 1 |
| RingNode.Node.UnsetRpl | subsys/net/l2/ethernet/erps/erps.c:1433-1456 | clearing the RPL role: a null interface is an error, a link that is not the RPL is left alone, and nothing changes after initialization |
| RingNode.Node.DisableAllPorts | subsys/net/l2/ethernet/erps/erps.c:1683-1701 | disabling both ports in the driver leaves the cached flags alone |
| RingNode.Node.InitializeFsm | subsys/net/l2/ethernet/erps/erps.c:1499-1536 | initialization by role; the node is in PENDING even when it fails |
| RingNode.Node.Start | subsys/net/l2/ethernet/erps/erps.c:1804-1840 | a successful start leaves a valid node with one port blocked |
| Refinement.PostRefinesTable | subsys/net/l2/ethernet/erps/erps.c:633-697 | whatever fails: a post that reports success is exactly one row of the table that sums up the five dispatchers, a post that fails returns the code of a call that failed, no post hits an assertion; with working foreign calls no post fails |
| Runs.BootLeaves | subsys/net/l2/ethernet/erps/erps.c:1499-1536 | what a successful start leaves: the RPL (or port 0) blocked, the other port open, flags and driver in agreement, R-APS(NR) scheduled, WTR running exactly at a revertive owner |
| Runs.StartIsExact | subsys/net/l2/ethernet/erps/erps.c:1499-1536 | a successful start leaves exactly one state, with R-APS(NR) armed every five seconds on each interface that is up; a failed one returns the code of a failed call; with working calls a start succeeds |
| Runs.AllPortsAreDisabled | subsys/net/l2/ethernet/erps/erps.c:1683-1701 | before initialization both ports are disabled in the driver, and nothing else changes |
| Runs.InitEndsPending | subsys/net/l2/ethernet/erps/erps.c:1534-1535 | the initialization ends in PENDING whatever fails |
| Robustness.StepKeepsRobust | subsys/net/l2/ethernet/erps/erps.c:333-418 | any event with any failing calls keeps flags and driver in agreement, the timer and role discipline, a legal PDU and burst counter, starts no running timer and hits no assertion |
| Runs.EveryRunIsRobust | subsys/net/l2/ethernet/erps/erps.c:737-811 | the same over every run after a successful start, whatever fails: WTR or WTB runs only at a revertive owner in PENDING, never both, and no start ever takes the branch for a timer already running |
| Failures.BlockEnds | subsys/net/l2/ethernet/erps/erps.c:333-374 | blocking by its outcome: flag and driver change together or not at all, and which error is returned |
| Failures.UnblockEnds | subsys/net/l2/ethernet/erps/erps.c:376-412 | unblocking by its outcome, the failed mark being removed in every case |
| Stages.SwitchStages | subsys/net/l2/ethernet/erps/erps-fsm-common.c:25-53 | block, announce, open, flush: what has been done and which code is returned for the first call that fails |
| Stages.RevertStages | subsys/net/l2/ethernet/erps/erps-fsm-pending.c:175-208 | the same for reversion |
| Stages.OpenStages | subsys/net/l2/ethernet/erps/erps-fsm-common.c:55-74 | ports are opened in order, and transmission stops only after both |
| Stages.YieldStages | subsys/net/l2/ethernet/erps/erps-fsm-common.c:76-102 | yielding in the same order, and not at all without the own address or to a lower identifier |
| Stages.NrRbStages | subsys/net/l2/ethernet/erps/erps-fsm-idle.c:75-97 | R-APS(NR,RB) silences a node only after its ports are open |
| Stages.NrStages | subsys/net/l2/ethernet/erps/erps-fsm-protection.c:70-90 | R-APS(NR) leaves a state only when the timer it has to start runs |
| Stages.NeighbourStages | subsys/net/l2/ethernet/erps/erps-fsm-pending.c:246-296 | the neighbour blocks the RPL before it opens its other port |
| Stages.ClearSfStages | subsys/net/l2/ethernet/erps/erps-fsm-protection.c:48-68 | guard timer, announcement, WTR, state |
| Stages.ReleaseStages | subsys/net/l2/ethernet/erps/erps-fsm-common.c:104-126 | guard timer, announcement, WTB, state; R-APS(MS) in MANUAL_SWITCH likewise |
| Stages.SecondSwitchStages | subsys/net/l2/ethernet/erps/erps-fsm-forced-switch.c:26-43 | block, announce, flush |
| Stages.InitStages | subsys/net/l2/ethernet/erps/erps.c:1499-1536 | at the start one port is blocked before the other is opened and R-APS(NR) sent |
| Failures.PostFailsCleanly | subsys/net/l2/ethernet/erps/erps-fsm-pending.c:62-173 | a request that fails halfway leaves the state and what it latched; only in PENDING, and only for CLEAR, MS and expiries, the timers are gone |
| Failures.NothingIsPosted | subsys/net/l2/ethernet/erps/erps.c:699-716 | without the lock, or without the interface of a link-down timer, nothing is posted |
| Failures.FailedEventKeepsWaiting | subsys/net/l2/ethernet/erps/erps-fsm-pending.c:62-173 | a waiting revertive owner keeps its timer across an event that failed if and only if that is not CLEAR, MS or the expiry |
| Lapses.StrandedByFailure | subsys/net/l2/ethernet/erps/erps-fsm-pending.c:157-173 | a manual switch that the driver refuses leaves a freshly started revertive owner in PENDING with MS latched and no timer |
| SafeRuns.BootedIsSafe | subsys/net/l2/ethernet/erps/erps.c:1499-1536 | a freshly started node meets every node invariant, so the run lemmas speak of all reachable states |
| Persistence.BootedWillRevert | subsys/net/l2/ethernet/erps/erps.c:1520-1522 | a freshly started revertive owner is waiting for WTR |
| Convergence.BootedRingIsSteady | subsys/net/l2/ethernet/erps/erps.c:1499-1536 | a ring of freshly started nodes meets the ring invariant |
| Election.BootedRingContests | subsys/net/l2/ethernet/erps/erps.c:1499-1536 | a ring of freshly started nodes, owner included, is in the R-APS(NR) exchange |
| Election.ClearedContests | subsys/net/l2/ethernet/erps/erps-fsm-protection.c:48-68 | so is a node whose own signal failure has cleared, revertive owner or not |
| Election.FollowerContests | subsys/net/l2/ethernet/erps/erps-fsm-protection.c:70-90 | so is every idle node that heard of a failure and of its end, the owner with its old R-APS(NR,RB) PDU included |
| Safety.ReactKeeps | subsys/net/l2/ethernet/erps/erps.c:594-697 | one request keeps latch, RB, IDLE and speaking invariants, the last one exactly unless the request exposes the node |
| SafeRuns.StepIsReact | subsys/net/l2/ethernet/erps/erps.c:905-971 | every event that posts a request acts as the table says |
| Reception.HeardByValue | subsys/net/l2/ethernet/erps/erps.c:905-971 | which frames are heard as which request, by octets: own, guarded, foreign opcode, RB bit, version |
| Reception.OtherFramesOnlyFlush | subsys/net/l2/ethernet/erps/erps.c:881-951 | a flush request flushes once and changes nothing else, guarded or not; own frames and frames that are not understood change nothing |
| Reception.RequestIsPosted | subsys/net/l2/ethernet/erps/erps.c:953-971 | any other frame is posted as what it asks |
| SafeRuns.StepKeepsSafe | subsys/net/l2/ethernet/erps/erps-fsm-protection.c:48-68 | a node starts to speak unblocked if and only if the event is one of three; the RB bit lies if and only if the interface-up callback repeats a stale PDU |
| Lapses.RbBitLies | subsys/net/l2/ethernet/erps/erps.c:1283-1320 | a freshly started owner that reverts, hears R-APS(SF) and has an interface come up sends R-APS(NR,RB) in PROTECTION |
| Backing.StepKeepsBacked | subsys/net/l2/ethernet/erps/erps-fsm-common.c:25-53 | a node that is not the owner sends R-APS(SF) only with SF latched in PROTECTION and R-APS(FS) only with FS latched in FORCED_SWITCH; only the interface-up callback breaks this, and only with a stale PDU |
| Lapses.SfOutlivesFailure | subsys/net/l2/ethernet/erps/erps.c:1283-1320 | a freshly started node that fails, hears R-APS(FS) and has an interface come up sends R-APS(SF) in FORCED_SWITCH |
| Lapses.OwnerSendsUnlatchedSf | subsys/net/l2/ethernet/erps/erps.c:569-592 | a freshly started owner that fails and is given CLEAR stays in PROTECTION sending R-APS(SF) with nothing latched |
| SafeRuns.HonestRunsKeepRb | subsys/net/l2/ethernet/erps/erps-fsm-pending.c:175-208 | over runs: the latched request is one of six and fits the state; only the owner ever has RB in its PDU, and while it is sent the node is IDLE with exactly the RPL blocked |
| SafeRuns.CarefulRunsKeepSpeak | subsys/net/l2/ethernet/erps/erps-fsm-common.c:55-126 | over runs: only a blocked node speaks |
| SafeRuns.CalmRunsKeepIdle | subsys/net/l2/ethernet/erps/erps-fsm-idle.c:75-116 | over runs: IDLE means no port blocked and silence, or exactly the RPL blocked, silent at the neighbour and with RB at the owner |
| SafeRuns.UpRunsKeepOwnerSpeaking | subsys/net/l2/ethernet/erps/erps-fsm-pending.c:175-208 | over runs in which some interface is always up: an idle owner is sending R-APS(NR,RB) |
| Persistence.ExpiryReverts | subsys/net/l2/ethernet/erps/erps-fsm-pending.c:210-244 | the expiry of a running timer always passes the priority logic and ends in IDLE with exactly the RPL blocked and R-APS(NR,RB) scheduled |
| Persistence.StepKeepsRevert | subsys/net/l2/ethernet/erps/erps-fsm-common.c:104-126 | a revertive owner in PENDING loses its last timer, or never gets one, if and only if the event is one of two |
| Persistence.RunsKeepRevert | subsys/net/l2/ethernet/erps/erps-fsm-protection.c:70-90 | over runs without those two events reversion is never lost |
| Lapses.StrandedByClear | subsys/net/l2/ethernet/erps/erps-fsm-common.c:104-126 | R-APS(FS) and then CLEAR leave any freshly started revertive owner in PENDING with nothing blocked and no timer |
| Lapses.StrandedByNrRb | subsys/net/l2/ethernet/erps/erps-fsm-protection.c:70-90 | R-APS(SF) and then R-APS(NR,RB) leave any freshly started revertive owner in PENDING with no timer |
| Reversion.RingStepKeepsReversion | subsys/net/l2/ethernet/erps/erps-fsm-common.c:104-126 | in a ring with one owner a step strands a revertive owner if and only if it is a CLEAR of a switch given to an owner with nothing blocked |
| Reversion.ReversionIsNeverLost | subsys/net/l2/ethernet/erps/erps-fsm-pending.c:210-244 | on every ring run from the start without such a CLEAR a revertive owner in PENDING has a timer running whose expiry takes it to IDLE with exactly the RPL blocked |
| Persistence.FsIsAccepted | subsys/net/l2/ethernet/erps/erps-internal.h:25-37 | a local forced switch is accepted in every state, and sent exactly if an interface is up |
| Persistence.RunsHoldFs | subsys/net/l2/ethernet/erps/erps-fsm-forced-switch.c:26-43 | until the next CLEAR any run keeps FORCED_SWITCH and R-APS(FS) as PDU and opens no blocked port, whatever interfaces are down; transmission goes on as long as one is up |
| Persistence.SfIsAccepted | subsys/net/l2/ethernet/erps/erps.c:654-657 | a signal failure outside FORCED_SWITCH is accepted and leaves exactly its port blocked, although its interface is down |
| Persistence.RunsHoldSf | subsys/net/l2/ethernet/erps/erps.c:606-631 | until CLEAR, FS, R-APS(FS) or CLEAR_SF any run keeps PROTECTION with exactly the port of the latest failure blocked, whatever interfaces are down; transmission goes on as long as one is up |
| Retransmission.HearingSettles | subsys/net/l2/ethernet/erps/erps.c:905-971 | three hearings of one R-APS(FS), (SF), (NR) or (NR,RB) settle any node, two any but the owner |
| Retransmission.RetransmissionSettles | subsys/net/l2/ethernet/erps/erps.c:905-971 | the same for any number of receptions of one frame |
| Retransmission.RepeatedMs | subsys/net/l2/ethernet/erps/erps-fsm-manual-switch.c:71-101 | one R-APS(MS) frame received repeatedly, the guard timer expiring in between, settles if and only if the node is not a revertive owner with a port both failed and blocked |
| Lapses.OwnerSwaysForEver | subsys/net/l2/ethernet/erps/erps-fsm-manual-switch.c:71-101 | after one failure and recovery of the RPL any freshly started revertive owner is changed by every further copy of one R-APS(MS) frame |
| Ring.LocalEventKeepsLastBlocked | subsys/net/l2/ethernet/erps/erps-fsm-common.c:25-53 | no local event opens the last blocked port of a node, whatever foreign calls fail |
| Ring.OwnerHearsNoRb | subsys/net/l2/ethernet/erps/erps.c:538-552 | in a ring with one owner no step makes the owner hear R-APS(NR,RB) |
| Ring.RingStepKeepsSafe | subsys/net/l2/ethernet/erps/erps-fsm-common.c:76-102 | one ring step keeps some port blocked and every sender blocked if and only if it is not one of the two exposing local events; the sender of a delivered frame is itself blocked |
| Ring.LoopFreedom | subsys/net/l2/ethernet/erps/erps-fsm-common.c:25-102 | for every ring size and interleaving, some port of the ring is blocked |
| Ring.TidyLoopFreedom | subsys/net/l2/ethernet/erps/erps.c:600-604 | the same when a signal failure is only cleared while it is latched, as a latched failure in PROTECTION has blocked a port |
| Loops.LoopWhenExposed | subsys/net/l2/ethernet/erps/erps-fsm-protection.c:48-68 | a run of a freshly started two-node ring in which the clearing of a signal failure, or the interface-up callback, at a node with nothing blocked leads to no port being blocked |
| Convergence.RingRunKeepsSteady | subsys/net/l2/ethernet/erps/erps-fsm-pending.c:246-296 | in every reachable ring state IDLE has its role-specific meaning and RB on the wire is true |
| Convergence.HearingNrIsHarmless | subsys/net/l2/ethernet/erps/erps-fsm-idle.c:99-116 | R-APS(NR) takes no node further from IDLE, latches nothing and makes no node send R-APS(MS) |
| Convergence.HearingSwitch | subsys/net/l2/ethernet/erps/erps-fsm-common.c:55-74 | R-APS(MS), (SF) or (FS) takes a node without a request of its own further from IDLE if and only if it is in IDLE or PENDING; an idle owner always leaves IDLE |
| Convergence.SettlingStep | subsys/net/l2/ethernet/erps/erps-fsm-pending.c:246-296 | each unguarded delivery of the owner's frame to a node that is not idle lowers the distance by exactly one; any other step raises it, or takes the owner out of IDLE, if and only if it delivers R-APS(MS) heard by a node, or by the owner, in IDLE or PENDING |
| Convergence.RingConverges | subsys/net/l2/ethernet/erps/erps-fsm-protection.c:70-90 | however the frames of all nodes are delivered, none but the owner sending R-APS(MS) or none such disturbing, the distance falls at least by the number of effective deliveries; at zero every node is IDLE and exactly the RPL ports of owner and neighbour are blocked |
| Convergence.ProgressIsPossible | subsys/net/l2/ethernet/erps/erps.c:958-961 | while a node is not idle an effective delivery to it exists, at the latest after its guard timer expired |
| Convergence.StartupSettles | subsys/net/l2/ethernet/erps/erps-fsm-pending.c:210-244 | in a freshly started ring the expiry of WTR at the revertive owner brings about the situation that the convergence lemmas start from |
| Convergence.StartupConverges | subsys/net/l2/ethernet/erps/erps-fsm-pending.c:246-296 | from the start to rest: after that expiry at most two effective deliveries per node are possible, and when they have happened every node is IDLE with exactly the RPL blocked |
| Lapses.ClearSfUnlatches | subsys/net/l2/ethernet/erps/erps.c:606-631 | CLEAR_SF in MANUAL_SWITCH with MS latched changes nothing but the latched request |
| Lapses.MsPullsOwner | subsys/net/l2/ethernet/erps/erps-fsm-idle.c:118-156 | in any freshly started ring a node whose manual switch was so un-latched takes the settled owner out of IDLE |
| Election.HearingNr | subsys/net/l2/ethernet/erps/erps-fsm-pending.c:298-308 | R-APS(NR) from a higher node silences a pending node that waits for nothing and opens its sound ports; otherwise it changes nothing |
| Election.ContestStep | subsys/net/l2/ethernet/erps/erps-fsm-common.c:76-102 | a speaker falls silent exactly when it waits for nothing and hears a higher node unguarded, and nobody starts to speak; silent nodes may have any PDU left over |
| Election.WaitingIsOwner | subsys/net/l2/ethernet/erps/erps.c:737-779 | at most one speaker waits to revert, the revertive owner |
| Election.ChampionPrevails | subsys/net/l2/ethernet/erps/erps-fsm-common.c:76-102 | the speaker with the greatest identifier keeps speaking with its ports unchanged on every run, and so does an owner that waits to revert |
| Election.HighestIdWins | subsys/net/l2/ethernet/erps/erps-fsm-common.c:76-102 | when the exchange has come to rest the speakers are the one with the greatest identifier and the owner if it was speaking and waiting to revert, and no other |
| Lapses.TwoSpeakersAtRest | subsys/net/l2/ethernet/erps/erps.c:606-631 | two freshly started nodes, the one with the lower identifier waiting to revert, are at rest and both speak |
| Frames.ParseBytes | subsys/net/l2/ethernet/erps/r-aps.h:63-119 | the byte layout of a PDU is read back whatever the end TLV and padding |
| Frames.SendableIsDecoded | subsys/net/l2/ethernet/erps/erps.c:1087-1132 | in every state the frame built from a PDU is decoded to its meaning (FS and MS are dropped by version 1), RB and DNF survive, and BPR is set exactly in PROTECTION with port 1 blocked |
| Frames.ScheduledIsDecoded | subsys/net/l2/ethernet/erps/erps.c:477-487 | what was scheduled is what is heard, right away and in every state entered before something else is scheduled |
| Frames.EveryFrameIsDecoded | subsys/net/l2/ethernet/erps/erps.c:926-956 | the same for every frame of every sender reachable from a successful start, whatever foreign calls failed |
| Frames.HeaderRoundTrip | subsys/net/l2/ethernet/erps/r-aps.h:63-69 | maintenance level and version share the first byte without loss |
| Frames.OctetsOnTheWire | subsys/net/l2/ethernet/erps/erps.c:1087-1120 | every octet of a transmitted frame but the first in numbers: opcode 0x28, flags 0, TLV offset 32, code, status with BPR, identifier, reserved zeros |
| Frames.FirstOctet | subsys/net/l2/ethernet/erps/r-aps.h:63-69 | the first octet carries maintenance level and version |
| Frames.CodesOnTheWire | subsys/net/l2/ethernet/erps/r-aps.h:140-166 | the codes of NR, MS, SF and FS and the RB, DNF and BPR bits |
| Frames.SchedulingIsExact | subsys/net/l2/ethernet/erps/erps.c:450-521 | which scheduling is refused, and otherwise PDU, burst and transmitter of each port for every interface and failure |
| Frames.TransmitterEventsAreExact | subsys/net/l2/ethernet/erps/erps.c:1221-1320 | an interface that comes up arms its own transmitter only, a transmitter that fires counts down its own burst and re-arms itself |
| Frames.BurstSchedule | subsys/net/l2/ethernet/erps/erps.c:1221-1247 | on an interface that is up a changed PDU is sent three times one microsecond apart and then every five seconds, an unchanged one without burst, and all copies are identical |
| Roles.AnyConfigurationIsSound | subsys/net/l2/ethernet/erps/erps.c:1394-1456 | any sequence of role changes on known links keeps the RPL at index 1, owner and neighbour exclusive and tied to it, and the two devices at most exchanged |
| Roles.SetRoleIsExact | subsys/net/l2/ethernet/erps/erps.c:1394-1431 | choosing the RPL: which error in which case with nothing changed, and otherwise the port on the device becomes port 1 and RPL, with the asked role |
| Roles.UnsetRoleIsExact | subsys/net/l2/ethernet/erps/erps.c:1433-1456 | clearing the RPL leaves neither owner, neighbour nor RPL; clearing another link, or after initialization, changes nothing |
| Roles.ConfiguredRunsAreSound | subsys/net/l2/ethernet/erps/erps-fsm-pending.c:257-286 | after any such configuration no run hits an RPL assertion or the unreachable case |

## Left out

- RingNode.Node.BlockLink: does not delete the (node ID, BPR) pairs of the links or take the VLAN interface down; nothing in the state machine reads either.
- RingNode.Node.UnblockLink: does not take the VLAN interface up.
- RingNode.Node.PostLocked: does not cancel the link-down timer on CLEAR_SF; that timer is not part of the state, and an event by which it expires is possible at any time.
- RingNode.Node.Receive: leaves out the (node ID, BPR) flush decision at erps.c:814-870, whose conditions do not match their own comments; it touches no state of the state machine, so its flushes are not counted either.
- RingNode.Node.Start: leaves out link and VLAN initialization before the state machine is initialized, and the final loop of `erps_node_init` that re-arms transmitters of interfaces that came up in the meantime.
- RingNode.Node.UnsetRpl: an interface that belongs to no ring is not allowed, as `net_erps_unset_rpl` tests the interface instead of the link it looked up and then dereferences that link.
- Frames still in flight after their sender changed state: a delivery takes the current PDU of a node that is sending at that moment.
- Deferred transmission on interfaces that are down beyond not arming their transmitter, and memory fences.
- Timer handlers racing with their cancellation, and events before initialization.
- The guard timer as a point in time: it is armed with its duration and expires by an event of its own.
- Stray frames of other rings, VLAN header reading, packet allocation and padding, logging, the shell, devicetree macros.
- Ring.LoopFreedom: about the blocked flags, which agree with the driver by Robustness.StepKeepsRobust; links that are physically down are not counted as blocked.
- Convergence.RingConverges: runs on which an R-APS(MS) disturbs the ring are not claimed to converge.
