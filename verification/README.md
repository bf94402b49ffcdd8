# Verified model of the daxiang VPN hub and egress

The repository is a VPN hub with an egress data plane. This project models the parts of it
that are decided by code rather than by configuration, and proves what they promise over
every input and every run:

- **Proxy admission gate** (`Gate*.dfy`, `ControlProtocol.dfy`, `ControlService.dfy`): sessions
  own a lease, requests take admissions, upstream connections are reserved before they exist,
  and invalidation quarantines everything and reaps it. One transition per critical section,
  in any interleaving. Safety is in `GateTheorems.dfy` and `ControlProtocol.dfy`; that the gate
  serves up to its limits, and what it serves, in `GateAdmission.dfy` and `ControlService.dfy`;
  `GateDrain.dfy` shows that no gate gets stuck, `GateObject.dfy` has the same operations as a
  mutable object with the source's loops.
- **Device authority** (`Prefixes.dfy`, `PeerPlan.dfy`, `Authority*.dfy`, `StoreObject.dfy`):
  desired state in tables, and an executor that brings WireGuard to it in three persistence
  phases with crash points between them. `AuthorityCommands.dfy` says which commands take
  effect, `AuthorityDrain.dfy` that every job can be brought to its end.
- **Signed requests** (`Requests.dfy`, `RequestRuns.dfy`, `RequestAuth.dfy`): a request id is
  spent once, by its mutation or by its cancellation, and only by whoever has proven the key.
- **Proxy convergence** (`Convergence.dfy`, `ConvergenceRuns.dfy`): the whole-fleet proof before
  a grant, and when a device whose job is done passes it.
- **Reverse data plane**: striped transfer (`Stripe*.dfy`), replay of a TLS first flight onto
  redialed targets (`HandshakeRelay.dfy`), and the CONNECT slot pool (`SlotPool.dfy`).
- **Token leases** (`TokenLeases.dfy`), **source policy** (`SourcePolicy.dfy`), **engine event
  log** (`LogSlots.dfy`, `LogRing.dfy`, `LogRetention.dfy`, `EngineLog.dfy`), **update precedence and
  anti-rollback** (`SemVer.dfy`, `Receipts.dfy`).

Conventions. A concurrent component is a state machine: one function per critical section,
transaction or external action, an `Event` or `Step` type, and a `Run` over any sequence of
them. Clocks, random ids, file-system outcomes, read chunk sizes and network failures are
parameters or events. Signatures and digests are predicates or functions given from outside,
JSON encodings are a codec with stated laws, SQL transactions are atomic, and the process
fence is mutual exclusion. Where code that updates in place is modelled as an object or a
loop, its contract ties the new state to the specification function that the lemmas are about.

Four promises turned out to hold only under a condition, which is proved exactly:

- A late `Attach` may invalidate only the activation it was reserved under
  (`write_fence.go:46-63`). Its registration can be released while the call stands between
  its two critical sections, and the gate drained and owned again. `GateDrain.LateAttachExactly`
  and `GateDrain.LateAttachOnce` say from which reachable states some continuation makes the
  pending call close another activation, both ways: exactly when the registration is not
  quarantined, and, if `AttachFenced` is not repeated, holds a plain connection or a fence
  already handed out. `GateDrain.EveryGateDrains` is the half that builds the continuation,
  `GateTheorems.RepeatedAttachCanCloseAnother` one run of it.
- The per-client CONNECT limit does not bind a client whose address has an empty host, since
  the preemption for it may take anybody's slot (`main.go:1975-1977`, `2030`).
  `SlotPool.SessionManager.Acquire` says from the slots before the call when the limit is
  passed, both ways if no two of them are equally idle, and
  `SlotPool.NamelessClientExceedsLimit` is a run.
- A striped transfer whose frames all arrive can still be given up by the reorder window:
  `StripeTransfer.TransferCompletes` says exactly when, and `StripeTransfer.LaggingLaneExceeds`
  that every transfer of at least 514 full chunks over two lanes is, if one lane lags.
- A device whose latest job is done, with its generation applied, need not pass the fleet proof:
  the result marks only the intents of its own fence as verified (`executor.go:306`), while the
  proof counts all of the generation (`proxy_convergence.go:170-177`). An attempt cut short after
  an action leaves an intent that no retry plans again. `ConvergenceRuns.JobConverges` gives the
  exact condition, both ways, and `ConvergenceRuns.CutShortNeverConverges` the failing family.

## Model

| member | source | states |
|---|---|---|
| GateInvariants.RunKeeps | shared/proxygate/gate.go:84-479 | every interleaving of gate and fence steps keeps the gate's invariant: indexes agree, nothing live is left unquarantined under cleanup or without an owner, permit flags match the running operations, and all bounds hold |
| GateInvariants.ApplyKeeps | shared/proxygate/gate.go:84-479 | the same for one arbitrary step from any state with the invariant |
| GateTheorems.ReapedAtOwn | shared/proxygate/gate.go:454-466 | when a session may become owner, every registration is released and was aborted unmade or closed with no permit in flight; a plain connection no cleanup took is as closed as its caller's Release rule makes it |
| GateTheorems.ReapedBeforeOwnership | shared/proxygate/gate.go:326-407 | over every run, ownership is given only after everything reserved under earlier activations has been reaped in that sense |
| GateTheorems.LiveBlocksOwnership | shared/proxygate/gate.go:454-466 | one live registration makes every ownership attempt fail with the cleanup-unknown error |
| GateTheorems.InvalidateRaisesBarrier | shared/proxygate/gate.go:326-355 | an invalidation that applies puts a barrier over the current activation and all before it |
| GateTheorems.BarrierHolds | shared/proxygate/gate.go:326-355 | such a barrier holds in every later state |
| GateTheorems.NoPermitAfterInvalidation | shared/proxygate/write_fence.go:80-103 | after an invalidation no write or deadline permit is ever granted again on a connection of that activation or an earlier one |
| GateTheorems.ApplyOnward | shared/proxygate/gate.go:84-479 | no step ever takes a registration back: flags stay set, a fenced close never regresses, activations only grow |
| GateTheorems.ClosedIsQuiet | shared/proxygate/write_fence.go:196-215 | once a fenced Close has drained, no operation runs on the connection or can start, in any later state |
| GateTheorems.CutDeadlinesStayPast | shared/proxygate/write_fence.go:136-184 | once Close has passed the deadline mutex, both deadlines stay in the past whatever updates were racing |
| GateTheorems.OnePermitPerKind | shared/proxygate/write_fence.go:86-118 | at most one operation of each kind holds a permit on a connection |
| GateDrain.EveryGateDrains | shared/proxygate/gate.go:315-466 | from every reachable gate, finishing what is pending, with nobody admitted and nothing attached, granted or started, ends in a gate any session may own |
| GateDrain.FinishOperations | shared/proxygate/write_fence.go:86-184 | whatever operations are in flight can run to their end without moving any close |
| GateDrain.ReapAll | shared/proxygate/gate.go:359-407 | on a closed gate with no operation in flight every live registration can be readied, closed and released by its worker |
| GateDrain.ReachableSound | shared/proxygate/gate.go:84-479 | in every run a released admission that holds nothing is tracked only while a cleanup runs |
| GateDrain.LateAttachOnce | shared/proxygate/write_fence.go:46-63 | without a repeated AttachFenced, a pending late call can come to close another activation if and only if its registration is not quarantined and holds a plain connection or a handed-out fence |
| GateDrain.LateAttachExactly | shared/proxygate/write_fence.go:19-63 | with it, if and only if the registration is not quarantined |
| GateDrain.RunPinned | shared/proxygate/write_fence.go:19-63 | a late call whose registration is quarantined, or whose fence nobody else holds, stays so until it ends |
| GateTheorems.LateFencedReachesOwnActivation | shared/proxygate/write_fence.go:19-63 | a late AttachFenced whose connection was not handed out meanwhile reaches only its own activation |
| GateTheorems.RepeatedAttachCanCloseAnother | shared/proxygate/write_fence.go:19-63 | a concrete run in which a second AttachFenced on one registration closes a later activation |
| GateTheorems.ReadyClosedOnce | shared/proxygate/gate.go:161-237 | in every run a registration's ready signal is closed at most once |
| GateTheorems.BatchBounded | shared/proxygate/gate.go:326-355 | no cleanup batch exceeds the admission limit times the per-admission limit |
| GateAdmission.AdmitsUpToLimit | shared/proxygate/gate.go:84-120 | from every reachable gate with a running lease, fresh requests are all admitted up to exactly 4096 in flight, each adding one admission with one unattached client and nothing else; the next closes the gate on everybody |
| GateAdmission.ReservesUpToLimit | shared/proxygate/gate.go:126-150 | a live request gets every upstream up to exactly four resources, each adding one reservation and nothing else; the next closes the gate on everybody |
| GateAdmission.RequestIsServed | shared/proxygate/gate.go:84-213 | with a running lease and room, every call of a request on its way to a fenced upstream is accepted and ends with a connection that takes a write or a deadline |
| GateAdmission.AttachesExactly | shared/proxygate/gate.go:161-213 | in every run a connection that comes for its reservation is taken into service if and only if its request is live and the lease runs; a late one is kept for the cleanup and, unless quarantined already, closes the gate |
| GateAdmission.LeaseRunsUntil | shared/proxygate/gate.go:467-479 | a lease of at most five seconds serves exactly until its deadline, and changes nothing but that |
| GateAdmission.GateServesAgain | shared/proxygate/gate.go:315-479 | after any history the gate can be wound down, owned, granted, and then serves with its whole capacity |
| GateAdmission.WriteGivesPermitBack | shared/proxygate/write_fence.go:86-126 | a permitted write ends with the gate exactly as it was |
| GateAdmission.DeadlineTakesEffect | shared/proxygate/write_fence.go:136-194 | an undisturbed deadline update sets exactly the deadline asked for on the side asked for, and gives permit and mutex back |
| GateAdmission.UpdateEndsSafely | shared/proxygate/write_fence.go:136-184 | an update leaves the mutex with its connection live or with both deadlines forced into the past |
| GateAdmission.RevocationTakesEffect | shared/proxygate/write_fence.go:136-184 | a past deadline needs no live scope: until Close has begun it is set exactly as asked, and the permit given back |
| GateAdmission.NothingAfterRelease | shared/proxygate/gate.go:282-313 | once a request is released, no write, deadline or reservation of it is accepted in any later state |
| GateAdmission.FinishedCleanupIsEmpty | shared/proxygate/gate.go:359-407 | in every run the last section of a cleanup leaves a gate without a single request, which any session may own |
| GateAdmission.SessionsDoNotOverlap | shared/proxygate/gate.go:454-466 | over every run, another session owns the gate only after it has been without an owner |
| GateObject.Gate.LaterValid | shared/proxygate/gate.go:84-479 | the object's invariant, which every section below keeps, survives the time between two calls |
| GateObject.Gate.QuarantineAll | shared/proxygate/gate.go:337-348 | the loop over one admission's registrations queues exactly those not yet released |
| GateObject.Gate.BeginInvalidate | shared/proxygate/gate.go:326-355 | the nested loops leave the gate exactly as the invalidation transition says, and do nothing for a session that is not the owner; the whole invariant is kept |
| GateObject.Gate.AcquireSource | shared/proxygate/gate.go:84-120 | the critical section is the admission transition, whose outcome AdmitsUpToLimit and RequestIsServed give from the lease, the limit and the ids alone; the whole invariant is kept |
| GateObject.Gate.ReserveFor | shared/proxygate/gate.go:126-150 | the critical section is the reservation transition, whose outcome ReservesUpToLimit gives; the whole invariant is kept |
| GateObject.Gate.AttachUpstream | shared/proxygate/write_fence.go:19-53 | the first section of AttachFenced: live publishes the fence, late starts the closing path, and the invariant is kept |
| GateObject.Gate.AbortRegistration | shared/proxygate/gate.go:215-237 | an abort releases only what was never attached; the whole invariant is kept |
| GateObject.Gate.ReleaseRegistration | shared/proxygate/gate.go:239-259 | a release keeps what is queued for cleanup; the whole invariant is kept |
| GateObject.Gate.ReleaseRequest | shared/proxygate/gate.go:282-313 | a finished request leaves unless it still has something quarantined; the whole invariant is kept |
| GateObject.Gate.CompleteCleanup | shared/proxygate/gate.go:359-407 | the retiring loop frees exactly the admissions whose registrations are all reaped; the whole invariant is kept |
| GateObject.Gate.TakeOwnership | shared/proxygate/gate.go:454-466 | ownership changes the state only when nothing is left over; the whole invariant is kept |
| GateObject.Gate.GrantLease | shared/proxygate/gate.go:467-479 | a lease is set only for the owner, in the future and within the maximum; the whole invariant is kept |
| GateObject.Gate.BeginOperation | shared/proxygate/write_fence.go:86-103 | a permit is taken exactly when the connection is live and the kind is free; the whole invariant is kept |
| ControlProtocol.AdmittedOnlyUnderGrant | shared/proxygate/control.go:161-224 | in any run with replayed, dropped or reordered frames, a managed source is admitted only if the current session accepted, after its CLOSED answer and with no invalidation since, a grant that has not run out |
| ControlProtocol.LeaseHasGrant | shared/proxygate/control.go:201-218 | every running lease goes back to one accepted grant that still stands |
| ControlProtocol.AckedWasClosed | shared/proxygate/control.go:191-200 | a session that acknowledged CLOSED did await the closed gate under that very session |
| ControlProtocol.ClosedAfterReaping | shared/proxygate/control.go:191-200 | a CLOSED answer never precedes the reaping of every registration, in the sense of ReapedAtOwn |
| ControlProtocol.SequenceGrows | shared/proxygate/control.go:181-216 | within a session the accepted command numbers never fall, and an old session never returns |
| ControlProtocol.NumbersTakeEffectOnce | shared/proxygate/control.go:181-216 | two effects of one session carry strictly increasing numbers |
| ControlProtocol.FramesTakeEffectOnce | shared/proxygate/control.go:161-224 | with fresh session ids and nonces no frame takes effect twice, in the same session or another |
| ControlProtocol.EffectsAreBound | shared/proxygate/control.go:181-216 | over every run a frame that takes effect carries the policy binding, the session, its nonce and its next number, and its effect is the one it names: closed, or open until its deadline |
| ControlService.FramesExactly | shared/proxygate/control.go:181-205 | a session goes on if and only if the frame is in time, healthy, bound, addressed, next in number, and a CLOSED without or, after an acknowledged CLOSED, a grant with a deadline |
| ControlService.GrantOpens | shared/proxygate/control.go:201-218 | in every run an acknowledged session that is sent its next grant ends with the gate open until exactly that deadline if the gate is still its own and the deadline at most five seconds ahead; otherwise with the session gone and the gate closed |
| ControlService.ExitCloses | shared/proxygate/control.go:174-224 | a session that leaves closes what it owned, for everything in flight |
| ControlService.ClosedCanBeAcked | shared/proxygate/control.go:191-200 | in every run a CLOSED can be acknowledged: what is in flight can be finished, with nobody newly admitted, so that the session owns a closed gate |
| ControlService.WaitingIsRewarded | shared/proxygate/gate.go:421-453 | in every run a session that waits for the cleanup of its CLOSED waits exactly while it runs and, unless its time is up, then owns the vacant gate |
| ControlService.FailureCloses | shared/proxygate/control.go:196-222 | a session whose time is up while it waits, or whose answer does not get through, leaves the gate closed for everything in flight |
| PeerPlan.AllowedAddresses | hub/internal/deviceauth/executor.go:55-68 | a peer's list is accepted if and only if all its prefixes parse and none repeats, and becomes the set of them |
| PeerPlan.RuntimeMap | hub/internal/deviceauth/executor.go:43-72 | the snapshot is accepted if and only if it is within limits and without repeats, and becomes the map of exactly its peers |
| PeerPlan.FindOccupied | hub/internal/deviceauth/executor.go:113-127 | finds out whether a peer that is not an old one of this device overlaps the wanted address |
| PeerPlan.PlanPeers | hub/internal/deviceauth/executor.go:74-133 | the planning loops return the specified plan or the refusal for every history and interface; AuthorityDrain.PlansExactly says when there is a plan without naming the loops, PlanRuns and PlanVerifies what it achieves |
| PeerPlan.VerifyPeers | hub/internal/deviceauth/executor.go:365-393 | the verification loop succeeds if and only if revoked keys are gone, the current key has exactly its address and all foreign peers are unchanged |
| PeerPlan.PlanRuns | hub/internal/deviceauth/executor.go:74-133 | executed in order, where applying an address takes it from others, a plan removes the retired keys, sets the current one and leaves every other peer as it was |
| PeerPlan.PlanVerifies | hub/internal/deviceauth/executor.go:365-393 | a completed plan always passes verification and never changes a peer outside the device's history |
| PeerPlan.PlanResumes | hub/internal/deviceauth/executor.go:221-260 | after a crash behind any action the retried plan, with the durable intents, is exactly the remaining actions |
| PeerPlan.PlanTouchesOwnPeers | hub/internal/deviceauth/executor.go:74-133 | every planned removal hits a peer recorded as applied or intended at its own address, and an addition never overwrites a present peer |
| StoreObject.Store.SubmitChecked | hub/internal/deviceauth/store.go:300-510 | from the address check on, the checks in their order and the table writes amount to the submission transition, for every command and state; AuthorityCommands.AcceptedExactly says which commands are committed, CommandTakesEffect with what effect |
| StoreObject.Store.Apply | hub/internal/deviceauth/store.go:426-482 | the sequence of statements of an accepted command leaves all tables as the commit transition says |
| StoreObject.Store.PrepareIntents | hub/internal/deviceauth/executor.go:223-233 | the insert loop records one unverified intent per planned action |
| StoreObject.PreparedIsIntended | hub/internal/deviceauth/executor.go:221-233 | those are exactly the intents of the executor's second phase |
| StoreObject.Store.RecordResult | hub/internal/deviceauth/executor.go:279-321 | the result is written only while generation and fence still hold, and the statements in their order amount to the record transition |
| AuthorityInvariants.SubmitKeeps | hub/internal/deviceauth/store.go:332-492 | every submission, accepted or refused, keeps the table invariant |
| AuthorityInvariants.CommitKeeps | hub/internal/deviceauth/store.go:402-482 | an accepted command keeps it: one current key, tombstones at exactly the revoking generation, one operation per generation, open work only at the latest |
| AuthorityInvariants.ExpireKeeps | hub/internal/deviceauth/executor.go:332-351 | so does an observed expiry |
| AuthorityInvariants.EnrollKeeps | hub/internal/deviceauth/store.go:262-286 | so does an enrolment |
| AuthorityInvariants.RecordTables | hub/internal/deviceauth/executor.go:279-321 | so does a recorded result |
| AuthorityRuns.ApplyGood | hub/internal/deviceauth/executor.go:139-326 | every transaction, external action, crash and foreign change keeps tables, fence and peer ownership in order, and takes nothing back |
| AuthorityRuns.ReachableTables | hub/internal/deviceauth/store.go:332-492 | every reachable state satisfies the whole invariant |
| AuthorityRuns.OneCurrentKey | hub/internal/deviceauth/store.go:446-470 | in every reachable state a device has at most one unrevoked key, and only while active |
| AuthorityRuns.NothingComesBack | hub/internal/deviceauth/store.go:446-470 | over any continuation bindings are never rebound or unrevoked, revoked devices stay revoked and inactive ones never become active |
| AuthorityRuns.RevokedStaysOut | hub/internal/deviceauth/executor.go:139-326 | once a run is recorded as done, each key revoked by then is absent from the interface and stays absent over all later submissions, expiries, retries and crashes |
| AuthorityRuns.ActsOnOwnPeersOnly | hub/internal/deviceauth/executor.go:237-260 | in every run the executor removes or re-applies only peers it put there itself |
| AuthorityRuns.OneOperationPerExpectation | hub/internal/deviceauth/store.go:394-400 | over every run, no two operations of a device were accepted on the same expected generation, and each raised it by one |
| AuthorityCommands.AcceptedExactly | hub/internal/deviceauth/store.go:332-492 | a command is committed if and only if owner, generation, validity, quota, overdue work, policy, key and address allow it, each condition said on its own |
| AuthorityCommands.CommandTakesEffect | hub/internal/deviceauth/store.go:402-482 | over every run an acceptable command has its whole effect at once: standing, generation, the one new key, revoked predecessors with tombstones, superseded work, the new job, and no other device touched |
| AuthorityCommands.RefusedOnlyMarks | hub/internal/deviceauth/store.go:493-505 | a refused command changes nothing, unless it would have assigned a key to a device that is behind: then exactly that device's open jobs are marked degraded |
| AuthorityCommands.EnrolmentStartsClean | hub/internal/deviceauth/store.go:262-286 | over every run an enrolment with time left makes an unknown device active with no key and no operation to its name, and any other one changes nothing |
| AuthorityCommands.RefreshMarksOverdue | hub/internal/deviceauth/store.go:511-532 | the sweep marks every open job past its deadline or behind an unverified revocation, and only jobs of devices that are behind |
| AuthorityCommands.ExpiryIsNoticed | hub/internal/deviceauth/executor.go:332-347 | in every run whoever comes upon a device past its validity, sweep, claim or holder, lets it lapse: expired one generation on, its keys revoked, the expiry's job the only open one and degraded |
| AuthorityCommands.AppliesInTime | hub/internal/deviceauth/executor.go:237-260 | in every run a key is put on the interface only as the current key of an active device, on its address, before the end of its validity |
| AuthorityCommands.CertifiedIsTrue | hub/internal/deviceauth/executor.go:261-278 | in every run what is certified is true at that moment and in time: old keys off the interface, the current one exactly on its address |
| AuthorityCommands.GivenUpIsMarked | hub/internal/deviceauth/executor.go:395-416 | in every run a holder that gives up leaves its job degraded and nothing else changed; a finished one has its generation applied |
| AuthorityCommands.RepeatIsIdempotent | hub/internal/deviceauth/store.go:376-393 | a repeated command is answered with its first operation and changes nothing; another one under its request key is a conflict |
| AuthorityCommands.RevokedDeviceLeaves | hub/internal/deviceauth/executor.go:139-326 | in any reachable state an owner's revocation is accepted, one fault-free Process finishes it, and no key of the device is on the interface then or in any later state |
| AuthorityCommands.ProtectedNeverBound | hub/internal/deviceauth/store.go:176-209 | over every run every binding is within the pools and clear of protected keys and addresses, and no protected key is ever put on the interface |
| AuthorityDrain.ReachableSound | hub/internal/deviceauth/executor.go:139-326 | in every run whatever the executor applied has a durable intent, a fresh claim has read them all, and its fence is newer than every one |
| AuthorityDrain.PlansExactly | hub/internal/deviceauth/executor.go:74-133 | a claimed job is planned if and only if the device's keys are within policy and on the interface only as this executor put them there, and nobody but its revoked keys sits on the wanted address |
| AuthorityDrain.ClaimedJobLands | hub/internal/deviceauth/executor.go:195-326 | and from there a run with every report good ends finished: old keys off the interface, the current one exactly on its address, every other peer untouched, removals, tombstones and the needed intents verified |
| AuthorityDrain.EveryJobLands | hub/internal/deviceauth/executor.go:139-326 | from every reachable state, whatever was going on, a crash and one fault-free Process do that for a device's latest job |
| Convergence.Prove | hub/internal/deviceauth/proxy_convergence.go:121-308 | the loops reach the grant only for a converged fleet, always do for one whose tables are in order, and compute the earliest expiry |
| Convergence.CheckBindings | hub/internal/deviceauth/proxy_convergence.go:180-232 | a device's history passes if and only if each binding is properly removed or properly current, and yields its expected peers |
| Convergence.CheckCredentials | hub/internal/deviceauth/proxy_convergence.go:241-269 | passes if and only if there is at most one live credential and none has run out; the deadline is lowered to it |
| Convergence.CheckRuntime | hub/internal/deviceauth/proxy_convergence.go:274-295 | passes if and only if the expected peers are there exactly and nothing else touches the scope |
| Convergence.ScopeIsExact | hub/internal/deviceauth/proxy_convergence.go:274-295 | every interface prefix overlapping the scope is the current, applied, untombstoned address of one active unexpired device |
| Convergence.SourcesIdentify | hub/internal/deviceauth/proxy_convergence.go:280-295 | different peers there belong to different devices and their addresses do not overlap |
| Convergence.GrantUntil | hub/internal/deviceapi/proxy_gate.go:63-80 | a grant ends at the earlier of two seconds ahead and the proof's deadline, and is refused if and only if that leaves less than a tenth of a second |
| Convergence.GrantWithinValidity | hub/internal/deviceapi/proxy_gate.go:63-80 | so no grant outlives an active device or a live credential of a device with a key |
| ConvergenceRuns.ReachableStands | hub/internal/deviceauth/store.go:402-482 | over every run a device is active exactly while its latest operation assigned a key, and a current key is of the latest generation |
| ConvergenceRuns.ConvergedHasNoWork | hub/internal/deviceauth/proxy_convergence.go:137-232 | with tables in order a converged device has no open job, its latest operation carried out under a fence, every key it ever had gone as of the latest generation or in place, and no intent in doubt |
| ConvergenceRuns.JobConverges | hub/internal/deviceauth/proxy_convergence.go:137-273 | from every reachable state, a crash and one fault-free Process of a device's latest job make the fleet proof accept the device if and only if no attempt was cut short between an action and its result, the history is within bounds and device and credential are still valid |
| ConvergenceRuns.CutShortNeverConverges | hub/internal/deviceauth/executor.go:223-309 | from every reachable state with something to do and nothing in the way: cut short after its actions and processed again, the job is done and applied, and yet the fleet proof refuses the device at any time with any credentials |
| RequestRuns.NextOk | hub/internal/deviceauth/credentials.go:321-530 | every transaction keeps requests and cancellations apart, each accepted request with its one result, and removes nothing; who may make it is RequestAuth.OnlyProvenAct and the exact lemmas there |
| RequestRuns.ReachableOk | hub/internal/deviceauth/credentials.go:321-365 | so it is in every reachable state |
| RequestRuns.CancelledNeverLands | hub/internal/deviceauth/resolve.go:136-172 | after a cancellation the request is never accepted and never has a receipt, in any later state |
| RequestRuns.CommitsOnce | hub/internal/deviceauth/credentials.go:329-357 | an accepted request id is never accepted again and its receipts never change |
| RequestRuns.ResolveSays | hub/internal/deviceauth/resolve.go:76-175 | an answer names what the tables hold, for the principal that asked |
| RequestRuns.AnswersAgree | hub/internal/deviceauth/resolve.go:76-175 | any two answers about one principal's request, however far apart, name the same credential or operation or both say cancelled |
| RequestAuth.OnlyProvenAct | hub/internal/deviceauth/credentials.go:321-364 | over every run, whatever changes requests, receipts, credentials or cancellations is a request signed by the key it acts for, in time, against a challenge that an earlier step issued for that key, purpose, digest, device and credential |
| RequestAuth.ChangesAreAuthentic | hub/internal/deviceauth/credentials.go:321-530 | a signed step changes nothing at all, operations included, unless its principal has proven itself so |
| RequestAuth.ChallengesWereIssued | hub/internal/deviceauth/credentials.go:174-318 | in every run each challenge on file is as one earlier step issued it, but for being spent |
| RequestAuth.AcceptedSpends | hub/internal/deviceauth/credentials.go:321-345 | an accepted request spends exactly its challenge, a refused one spends none |
| RequestAuth.SpentOnce | hub/internal/deviceauth/credentials.go:321-345 | over every continuation an accepted request is refused when sent again, and so is any other on the same issue of the challenge |
| RequestAuth.ActivatedExactly | hub/internal/deviceauth/credentials.go:366-420 | an activation is accepted if and only if its material is pending, the key it binds has signed for it, and its request, device, credential and key are unused |
| RequestAuth.RotatedExactly | hub/internal/deviceauth/credentials.go:485-530 | a rotation is accepted if and only if both keys have signed, the credential is in good standing and the new key is another and unused |
| RequestAuth.SubmittedExactly | hub/internal/deviceauth/credentials.go:421-446 | a signed command is accepted if and only if its credential is in good standing and has signed it, its request id is unspent, and the authority accepts it as the device's own |
| RequestAuth.AnsweredExactly | hub/internal/deviceauth/resolve.go:76-175 | a question is answered if and only if its principal has proven itself: with the result if the request was committed as named, cancelled if and only if it was not and still can be |
| RequestAuth.ActivationBinds | hub/internal/deviceauth/credentials.go:366-420 | an accepted activation enrols one device for the activation's owner and time, with one credential on the key that signed, and uses the material up; nothing else changes |
| RequestAuth.RotationMoves | hub/internal/deviceauth/credentials.go:485-530 | an accepted rotation moves the device to the new key with the same end and revokes the old credential; nothing else changes |
| RequestAuth.ActivationOnce | hub/internal/deviceauth/credentials.go:366-420 | activation material accepted once is refused ever after |
| RequestAuth.RotatedNeverActs | hub/internal/deviceauth/credentials.go:161-172 | a rotated credential is refused ever after |
| StripeCodec.CutLane | egress/reverse/main.go:1595-1627 | a lane cut at any byte is read as exactly the frames that fit, then an end of file unless the end marker got through |
| StripeCodec.RoundTrip | egress/reverse/main.go:1595-1627 | concatenated frames decode back to themselves |
| StripeCodec.ReadFrames | egress/reverse/main.go:1514-1527 | a lane reader's loop reports what frame-by-frame reading says |
| Stripe.SendChunks | egress/reverse/main.go:2915-2927 | the loop deals every non-empty read to the lanes in turn, numbered in order |
| Stripe.Send | egress/reverse/main.go:2895-2934 | the sender's lanes hold exactly their share of the chunks and one end marker |
| Stripe.DeliverFaithful | egress/reverse/main.go:1489-1502 | every schedule of the readers delivers each chunk at most once and unaltered |
| Stripe.CutLaneOk | egress/reverse/main.go:1514-1527 | however a lane is cut, its reader reports only that lane's chunks, in order |
| StripeReceiver.WriteOrdered | egress/reverse/main.go:1531-1593 | the reorder loop computes the specified outcome for every sequence of arrivals and every failing write |
| StripeReceiver.DrainTracks | egress/reverse/main.go:1569-1588 | draining writes exactly the unbroken run of chunks and keeps the byte count equal to what is buffered |
| StripeReceiver.ReceivesPrefix | egress/reverse/main.go:1536-1593 | the client always gets a prefix of the stream, and the whole of it when no error is returned |
| StripeReceiver.SucceedsExactly | egress/reverse/main.go:1536-1593 | without write failures and with clean ends, success comes if and only if everything arrives and the window is never exceeded; with everything there the window is the only error |
| StripeReceiver.ShortFits | egress/reverse/main.go:1562-1565 | a stream no longer than the window never exceeds it |
| StripeReceiver.FailedLaneIsReported | egress/reverse/main.go:1536-1593 | a transfer that still lacks data when a lane fails, with lanes left, ends with that lane's error and what the client has by then, whatever else may come |
| StripeTransfer.TransferIsPrefix | egress/reverse/main.go:1534-1627 | end to end: for every chunking, every cut of every lane, every schedule and every client failure, a prefix, and the stream if no error |
| StripeTransfer.TransferCompletes | egress/reverse/main.go:1534-1627 | when all lanes are read to their end, no error if and only if the window is never exceeded, else the window error; always no error for streams within it |
| StripeTransfer.LaggingLaneExceeds | egress/reverse/main.go:1561-1566 | any transfer of at least 514 full chunks over two lanes, lane 1 read before lane 0, ends with the window error though every frame is read |
| StripeTransfer.WindowCanBeExceeded | egress/reverse/main.go:1561-1566 | a concrete transfer that does |
| HandshakeRelay.Relay.BeginWrite | egress/reverse/main.go:2968-2999 | a closed relay refuses; otherwise the payload joins the stream, and the replay buffer is the whole stream or replay is over for good |
| HandshakeRelay.Relay.EndWrite | egress/reverse/main.go:3013-3020 | the client loop survives a failed write only while the buffer holds every byte handed on, the failed ones included; never once replay is over |
| HandshakeRelay.Relay.Settle | egress/reverse/main.go:3023-3030 | after an answer no redial, no forgiven failure and no swap is possible |
| HandshakeRelay.Relay.Disarm | egress/reverse/main.go:3040-3051 | giving up keeps the target and ends replay, at most once; otherwise nothing changes |
| HandshakeRelay.ForgivenIsBuffered | egress/reverse/main.go:3013-3020 | in every run, a failed write the client carries on from is the tail of a buffer that holds the whole stream; when it carries on is exact |
| HandshakeRelay.OverForGood | egress/reverse/main.go:2968-3066 | once replay is over no other target is ever switched to, and at most the dial under way is completed |
| HandshakeRelay.DisarmedForGood | egress/reverse/main.go:3040-3051 | after a disarm the client keeps its target in every continuation, with no further dial |
| HandshakeRelay.Relay.BeginSwap | egress/reverse/main.go:3053-3066 | the new connection is given the whole stream so far, or none of it when replay is over |
| HandshakeRelay.RunInv | egress/reverse/main.go:2968-3185 | every interleaving of the two loops and closing keeps the relay's invariant |
| HandshakeRelay.TargetsReceivePrefixes | egress/reverse/main.go:3097-3185 | each target dialed has received a prefix of the client's stream from byte zero, the one in use all of it unless a write failed; at most three dials; a second dial only after a ClientHello |
| HandshakeRelay.AnsweredForGood | egress/reverse/main.go:3144-3182 | once a target answered there is no further dial or switch, so the client hears one target only |
| HandshakeRelay.ReplayIsTheStream | egress/reverse/main.go:3053-3084 | a completed replay has sent exactly the client's stream so far, before any target byte was passed on |
| HandshakeRelay.SilentTargetIsReplaced | egress/reverse/main.go:3097-3185 | in every run without a disarm, a target that fails or stays silent after a first flight is replaced while fewer than three were dialed: the next is switched to and has been sent the whole stream |
| SlotPool.SessionManager.ReleaseLocked | egress/reverse/main.go:2002-2015 | releasing once or again leaves the pool without the slot and the counters equal to the slots |
| SlotPool.SessionManager.FindVictim | egress/reverse/main.go:2027-2041 | the scan returns a longest-idle eligible slot, or none if and only if there is none |
| SlotPool.SessionManager.Preempt | egress/reverse/main.go:2021-2048 | a slot is taken away if and only if preemption is on and one is eligible, and it is a longest-idle one |
| SlotPool.SessionManager.Acquire | egress/reverse/main.go:1966-2000 | refusals, victims, the new slot and the client's new count are determined exactly; counters stay equal to the slots and both limits hold, save for the nameless client, where the slots before the call decide |
| SlotPool.SessionManager.NamelessDecided | egress/reverse/main.go:1966-2041 | that client ends beyond its limit exactly when it was beyond, or at it while only other clients' slots are longest idle, provided no two slots are equally idle |
| SlotPool.NamelessClientExceedsLimit | egress/reverse/main.go:1975-1977 | a run in which a client with an empty host name holds two slots under a limit of one |
| TokenLeases.Server.ClaimReceipt | hub/internal/auth/server.go:695-716 | a claim is refused if and only if a different source holds a fresh lease by the latest claim that has not failed; otherwise it becomes the latest |
| TokenLeases.Server.Rollback | hub/internal/auth/server.go:718-742 | a pending claim fails, and the lease map is again the latest claim that has not failed, or nothing |
| TokenLeases.Server.Commit | hub/internal/auth/server.go:744-760 | a pending claim is committed; every token keeps its winning claim and its holder, time and version in the map |
| TokenLeases.Server.Predecessor | hub/internal/auth/server.go:730-733 | the walk along the linked history ends at the highest earlier claim that has not failed |
| TokenLeases.FailKeeps | hub/internal/auth/server.go:718-742 | failing a claim in any order leaves all other tokens' lookups and the whole linked history right |
| TokenLeases.CommitKeeps | hub/internal/auth/server.go:744-760 | dropping a committed claim's history loses no lookup |
| TokenLeases.VerdictsLast | hub/internal/auth/server.go:718-760 | over any later claims and verdicts a committed claim yields only to a newer one and a failed one never holds the token |
| SourcePolicy.Validate | shared/proxygate/policy.go:64-88 | accepts if and only if all sources are canonical masked IPv4 prefixes in bounds and pairwise disjoint |
| SourcePolicy.ManagedIsExclusive | shared/proxygate/policy.go:64-88 | under a valid policy a managed address is a proper IPv4 address, neither unspecified nor multicast, in exactly one managed source and in no retained one |
| SourcePolicy.IsManaged | shared/proxygate/policy.go:124-132 | true if and only if some managed source contains the unmapped address |
| SourcePolicy.Sweep | shared/proxygate/policy.go:150-164 | the sweep over sorted intervals is true if and only if every address of the target is in one of them |
| SourcePolicy.Covers | shared/proxygate/policy.go:135-165 | true if and only if policy and prefix are valid and IsManaged holds for every address of the prefix; the 64-bit arithmetic cannot overflow |
| LogSlots.ReadSlotFile | shared/proxy/engine_log.go:343-373 | the reader's loops return the specified content, size and last sequence |
| LogSlots.SlotReadBack | shared/proxy/engine_log.go:343-373 | a written slot with any torn line behind it is read back with every complete record |
| LogSlots.SlotIsWritten | shared/proxy/engine_log.go:343-373 | conversely, whatever is accepted was written so, torn tail aside |
| LogSlots.LawfulCodecExists | shared/proxy/engine_log.go:343-373 | an encoding with the assumed laws exists, and one that admits every payload |
| LogRing.AppendedOk | shared/proxy/engine_log.go:425-506 | an append, with or without rotation, keeps the ring the unbroken end of the history and every slot within its budget |
| LogRing.OpenOk | shared/proxy/engine_log.go:264-330 | reopening after a torn line finds the same slots, the same sequence and the right current slot |
| LogRing.NextSound | shared/proxy/engine_log.go:213-506 | every append, failure at any byte, kill and reopen keeps disk and log in step |
| LogRing.RetainedIsContiguous | shared/proxy/engine_log.go:425-506 | in every run the retained records are consecutive in ring order up to the last one, below the next sequence |
| LogRing.ReopenLosesNothing | shared/proxy/engine_log.go:264-330 | a reopen is refused exactly for a slot without a header and otherwise brings back every complete record |
| LogRing.WithinBudget | shared/proxy/engine_log.go:19-26 | in every state each slot is within 256 KiB less 64 bytes and the namespace within one MiB |
| LogRetention.AppendDrops | shared/proxy/engine_log.go:437-506 | an append drops nothing if its line fits the current slot, and otherwise exactly the records of the oldest one |
| LogRetention.RecordsExactly | shared/proxy/engine_log.go:425-461 | a live writer records an event, as the newest one, if and only if it is recordable; otherwise it stops and the disk stays as it was |
| LogRetention.RetainsTwoSlots | shared/proxy/engine_log.go:462-491 | in every run nothing is dropped before two slots' worth of later records is held |
| EngineLog.FirstFailureKept | shared/proxy/engine_log.go:393-410 | over any reports, the published health is the first one and never changes or clears |
| EngineLog.Writer.Append | shared/proxy/engine_log.go:425-506 | whatever the file system does, the writer moves as the ring's next world, and a failed writer changes nothing |
| EngineLog.Writer.Rotate | shared/proxy/engine_log.go:462-491 | the rotation leaves the next slot's file as its failing step says |
| EngineLog.OpenFiles | shared/proxy/engine_log.go:263-330 | opening succeeds if and only if all four slots are readable, trims only torn tails and picks the slot with the highest sequence |
| SemVer.ParseVersion | shared/updateverify/semver.go:16-47 | the parsing loop computes the parse that RenderParses and ParseRenders characterise |
| SemVer.ParseGivesParsed | shared/updateverify/semver.go:16-47 | numeric pre-release identifiers of a parsed version have no leading zero |
| SemVer.RenderParses | shared/updateverify/semver.go:16-47 | every well-formed version, rendered with any build metadata within the length bound, parses back to itself |
| SemVer.ParseRenders | shared/updateverify/semver.go:16-47 | conversely, a string that parses is such a rendering: nothing else is accepted |
| SemVer.ComparedIsOrder | shared/updateverify/semver.go:98-116 | for identifiers of any length, length then text is numeric order |
| SemVer.Compare | shared/updateverify/semver.go:82-125 | the comparison loops compute the precedence of section 11 of Semantic Versioning 2.0.0 |
| SemVer.PrecedenceOrder | shared/updateverify/semver.go:82-125 | that precedence is a total preorder |
| SemVer.EqualPrecedence | shared/updateverify/semver.go:82-125 | parsed versions of equal precedence are equal |
| SemVer.HigherCoreIsNewer | shared/updateverify/semver.go:80-88 | a higher major, then minor, then patch number outranks everything behind it |
| SemVer.PreReleaseIsOlder | shared/updateverify/semver.go:89-97 | every pre-release is older than its release |
| SemVer.FirstDifferenceDecides | shared/updateverify/semver.go:98-125 | pre-releases compare by their first difference: smaller number, number before text, earlier text, shorter list |
| Receipts.ValidatePolicy | shared/updateverify/verify.go:87-113 | the key loop succeeds if and only if all keys are valid and no id or public key repeats, and yields exactly their table |
| Receipts.Verify | shared/updateverify/verify.go:150-221 | verification with the key table and the three-way comparison gives the verdict that VerifiedExactly takes apart |
| Receipts.VerifiedExactly | shared/updateverify/verify.go:150-221 | verification succeeds if and only if a policy key of the named id signed the metadata within its time and sequence ranges, the metadata meets the policy now, follows the previous receipt and is the artifact's; the receipt says exactly that |
| Receipts.ReceiptsWereSigned | shared/updateverify/verify.go:150-221 | every receipt of every chain was signed, over exactly its metadata, by the one key of its name in that call's policy, valid then and for that sequence |
| Receipts.ReceiptsAreLimited | shared/updateverify/verify.go:75-113 | every receipt of every chain was verified in time, for at most 30 days, over the call's very artifact, within the policy's floors, never a pre-release on the stable channel, and under keys that live five years at most |
| Receipts.ChainNeverGoesBack | shared/updateverify/verify.go:186-208 | along any chain of receipts sequence, version, security version, floor and time never decrease, and an equal sequence has the same digest and key |
| Receipts.NoEquivocation | shared/updateverify/verify.go:194-200 | with collision-free digests an equal sequence has the very same metadata |
| Receipts.ReceiptsCarryOn | shared/updateverify/verify.go:117-128 | a receipt is always acceptable as the previous one later, and verifying the same envelope again is idempotent |

## Left out

- HTTP handlers, command-line flags, configuration defaults, metrics, audit rows and logging: plumbing without a hard invariant.
- File systems, ACLs, path pinning, process supervision and the Windows and Unix files: foreign calls; the fence is mutual exclusion.
- Cryptography, JSON and SQL engines: signatures and digests are parameters, encodings a codec with laws, transactions atomic.
- `hub/internal/deviceauth/restore.go`: not part of this model; a snapshot taken in mid-reconciliation is rightly refused.
- Roles, `managed_by` and epoch columns of the authority's tables: constant in the model, as the schema and the policy check keep them.
- Wall-clock behaviour of timers: time is a number that does not fall, and goroutines are steps in any order.
- Netip parsing and canonical spelling: prefixes are given by the addresses they span, a source text by what it parses to.
- The quotas of the nonce table in `Challenge`: nonce rows appear with any content and a fresh id, which only adds runs.
- Peak counters and the preemption count of the slot pool, the byte counters of a transfer, and what a job's attempt count says: metrics.
- The event rules and hexadecimal checks of log records: a predicate of the codec.
- LogRing.RetainedIsContiguous: stated for live logs only, because a rotation killed between truncating a slot and writing its header leaves a file that a reopen refuses (`engine_log.go:279-283`).
- StoreObject.Store.SubmitChecked: the syntax of identifiers, keys and the reason (`store.go:301-311`) and the caller's check and completion callbacks are not modelled; commands are already well formed.
- GateTheorems.ReapedAtOwn: a plain connection released by its caller is not known to be closed, because Release only asks its callers to close first (`gate.go:236-239`).
- StripeTransfer.TransferIsPrefix: assumes fewer than 2^64 chunks, so that frame numbers do not wrap.
- HandshakeRelay.TargetsReceivePrefixes: assumes that a connection whose write failed accepts no later write.
- TokenLeases.Server.ClaimReceipt: versions are unbounded, so the 64-bit counter's wrap-around is not modelled.
- AuthorityRuns.RevokedStaysOut: assumes that only the fenced executor changes peers whose keys the authority has bound.
