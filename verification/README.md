# Crash-safe messaging and orchestration: a verified model

The modelled client promises things about whole runs: effects happen at most once, evidence is durable before
it is acknowledged, budgets are conserved, and a crash at any point loses nothing. This project models
its hardest components as state machines over durable records and proves those promises for every run.

How the models are built:

- A file operation, a store write or a network request is one step. Most operations are specified as the
  sequence of durable states they go through (`Trace`), so a crash is a prefix; the concurrent ones
  (`Sessions`, `SignedSend`, `RuntimeLock`) are machines of single steps, so a run is any interleaving.
- The code that changes records step by step is modelled by classes whose methods change fields in the same
  order. Each method is proved to go through exactly its specified states or steps, recorded in a ghost
  `history` or `log`; the theorems are then proved about the specification.
- Identifiers that the source derives by hashing are modelled by the values hashed. An encrypted file opens
  exactly under its own passphrase and when intact. Clocks, providers, servers and operators are parameters
  that may behave in any way.

| module | what it holds |
|---|---|
| `Numerals`, `Base58`, `Decimals` | positional numerals; base58 and did:key; fixed-point amounts |
| `Dag` | depth-first validation of the task graph |
| `RuntimeLock` | the process lock with its guard file, takeover and unguarded release |
| `Migration`, `MigrationOutcomes` | plaintext to encrypted identity, restartable after any crash; what each run ends in |
| `Sessions`, `SessionSafety`, `SessionSteps`, `SessionRuns`, `SessionGraph` | the session machine, its invariant, one lemma per action, theorems over runs |
| `SessionAnswers` | what the network answered and what was read decide every effect, over runs |
| `SessionReopen`, `Supervisor`, `SupervisorSafety` | the supervisor's methods, proved to take steps of that machine and to end as they should |
| `SupervisorOutcomes`, `SupervisorProgress` | what flows, offers and reopening lead to; every open job comes to its end when nothing goes wrong |
| `Transport`, `Approvals`, `SignedSend`, `Bridge` | the POST loop, the approval and nonce stores, all senders interleaved, the signing path |
| `Ledger`, `LedgerSafety` | inference reservations and charges |
| `Bootstrap`, `BootstrapSafety`, `BootstrapOutcomes` | the external bootstrap lifecycle |
| `Rehearsal`, `RehearsalSafety`, `RehearsalOutcomes`, `RehearsalProgress` | the eight-step relay and its two repairs |
| `Intake`, `IntakeSafety` | inbox intake through task store, journal and cursor |

One promise does not hold as it stands. The journal appends after whatever the file ends with, so after a crash that
wrote a whole line but not its newline, the next line runs into it and neither can be read, while the cursor may move past
both (`IntakeSafety.CutNewlineLosesLines`). Every acknowledged message has its task and its line after a run exactly when
every ingest of the run was safe (`IntakeSafety.EveryAcknowledgedMessageIsKept`). An ingest is safe when it starts on a journal
that ends in a newline, or cannot be read; or has no line to write; or is cut off before that line; or wrote it over a line not
yet acknowledged and did not get to move the cursor. For an ingest that completes this comes down to a check before the
call (`IntakeSafety.IngestKeepsIff`): the file does not end in an unended line, or every message to be read has its line.

## Model

| member | source | states |
|---|---|---|
| Base58.Base58Encode | src/protocol.ts:68-80 | The division loop and the count of leading zero bytes produce the unique base-58 spelling: one `1` per leading zero byte, then the minimal digits of the number |
| Base58.Base58Decode | src/protocol.ts:82-95 | Refuses exactly the strings with a character outside the alphabet; otherwise yields the bytes whose spelling the string is, through hexadecimal of even length |
| Base58.DecodeInvertsEncode | src/protocol.ts:68-95 | Decoding an encoding gives back every byte string, including empty and all-zero ones |
| Base58.EncodeInvertsDecode | src/protocol.ts:68-95 | Encoding a decoding gives back every string over the alphabet |
| Base58.PublicKeyBytesToDid | src/protocol.ts:97-102 | Refuses every length but 32; otherwise the DID is the prefix and the encoding of the multicodec bytes and the key |
| Base58.DidToPublicKeyBytes | src/protocol.ts:104-116 | Accepts exactly the DIDs of 32-byte keys and returns that key |
| Base58.DidOfKeyIsAccepted | src/protocol.ts:97-116 | The DID of a key is accepted and gives the key back |
| Base58.AcceptedDidIsDidOfKey | src/protocol.ts:97-116 | An accepted DID is the DID of the key it yields, so no two spellings of one key are accepted |
| Base58.DidEqualityIsKeyEquality | src/protocol.ts:97-116 | Accepted DID strings are equal exactly when their keys are |
| Decimals.UnitsOfDecimal | src/agent/inference-accounting.ts:79-88 | Parsing a printed amount gives the amount back for every value below 10^42, and exactly those print to text the grammar accepts |
| Decimals.DecimalOfUnits | src/agent/inference-accounting.ts:79-88 | Printing a parsed amount gives its text without trailing fractional zeros |
| Decimals.UnitsAreExact | src/agent/inference-accounting.ts:80-84 | The integer units are the denoted rational times 10^18, with no rounding |
| Decimals.ComparisonIsExact | src/agent/inference-accounting.ts:80-84 | Comparing units is comparing the denoted rational numbers |
| Dag.Validation.Visit | src/swarm/session-state.ts:63-70 | One depth-first visit: accepts only into a consistent `visited` set, reports a cycle only when there is one and a bad record only when there is one |
| Dag.Validation.Run | src/swarm/session-state.ts:61-72 | Terminates on every graph and accepts it exactly when every named id is well formed and resolves to its own record with distinct dependencies, and the graph is acyclic |
| Dag.FreshNodeKeepsValid | src/swarm/session-state.ts:61-72 | Adding a node over existing ones keeps a valid graph valid exactly when its id is well formed and its dependencies are distinct |
| RuntimeLock.MutualExclusion | src/agent/runtime-lock.ts:71-112 | Over all interleavings of guard, read, liveness check, takeover, create, write and unguarded release, with deaths anywhere: at most one live unreleased holder, and the file is its own |
| RuntimeLock.RemovalSparesLiveOwners | src/agent/runtime-lock.ts:88-112 | Release removes only its own file; takeover removes only a file whose owner is dead |
| RuntimeLock.TakeoverSucceeds | src/agent/runtime-lock.ts:71-101 | Left alone, an attempt facing no file or a dead owner's whole file ends up holding |
| RuntimeLock.LockDirectory.Acquire | src/agent/runtime-lock.ts:48-101 | Polls for the guard at most 200 times, inspects and takes over under it, with others interleaving between any two file operations; holds exactly when the guard came free, it then found no lock or a dead owner's whole one that was still there to remove, and its own file was written and synced |
| RuntimeLock.LockDirectory.Release | src/agent/runtime-lock.ts:103-112 | Removes its own lock although it takes no guard; a second release does nothing |
| Migration.IdentityFiles.RecoverLocked | src/identity.ts:235-337 | Performs exactly the renames and removals of the recovery specification, in order, with its error for every file combination; `MigrationOutcomes` says what those are |
| Migration.IdentityFiles.MigrateIdentity | src/identity.ts:339-469 | Performs exactly the file operations of the migration specification, in order, and returns its result |
| Migration.IdentityFiles.Install | src/identity.ts:437-458 | Marker, move away, marker, install, marker, verify, marker, clean up: one durable state per operation |
| Migration.KeyIsNeverLost | src/identity.ts:235-469 | After any number of runs with any passphrases, each cut off after any operation: the primary or the rollback is the original plaintext, or the primary opens to the original DID under a supplied passphrase |
| Migration.RollbackDroppedOnlyWhenInstalled | src/identity.ts:297-323 | The rollback disappears only by being moved back, or beside an installed file that opens to the original DID under the run's passphrase |
| Migration.StuckBranchesUnreachable | src/identity.ts:301-336 | No rerun meets conflicting files, an unrecoverable or missing primary, an invalid rollback or candidate, or an occupied rename target |
| Migration.MigrateConverges | src/identity.ts:339-469 | An uninterrupted rerun succeeds exactly when the passphrase opens what is staged or installed and the backup is there when needed and opens; and then leaves exactly the encrypted primary and backup with the original DID |
| Migration.SomeEarlierRequestConverges | src/identity.ts:339-469 | Once a sealed file is staged or installed, one of the requests already made, repeated, converges |
| Migration.SteadyOperatorConverges | src/identity.ts:339-469 | An operator who always gives the same passphrase and the same new backup path always converges from any crash state |
| MigrationOutcomes.WrongPassphraseDecides | src/identity.ts:250-298 | A passphrase that does not open the installed file touches nothing, unless the backup at the given path opens under it to the original DID and the name for the set-aside file is free; each refusal has its own error, exactly in its case |
| MigrationOutcomes.PlaintextReturnsIff | src/identity.ts:262-298 | Over an installed sealed file the plaintext ever returns exactly when the passphrase does not open that file and does open the backup to the original DID |
| MigrationOutcomes.InstalledDecides | src/identity.ts:299-325 | With the installed file open only leftovers are removed, and the run succeeds exactly when the backup at the given path opens to the same DID |
| MigrationOutcomes.MovedDecides | src/identity.ts:301-336 | With the original moved away: a candidate that opens is installed, one that does not is refused with nothing touched, and without one the original comes back |
| MigrationOutcomes.PlainDecides | src/identity.ts:339-469 | From a plaintext primary the original is moved exactly when both encrypted copies open; an existing copy is never replaced, and a refusal leaves the original in place |
| MigrationOutcomes.MarkerTellsHowFar | src/identity.ts:437-458 | While installing, what the marker names has happened, and the original is kept until the installed file was verified |
| MigrationOutcomes.RefusalPreserves | src/identity.ts:235-337 | A recovery that refuses has performed no file operation, except the one that put the plaintext back |
| SessionRuns.PostedAtMostOnce | src/swarm/supervisor.ts:279-298 | Over every run with crashes between any two writes and any number of offline reopens, no effect reaches the transport twice, and posts never exceed the outbound budget, which never exceeds its limit |
| SessionRuns.NothingIsSentForADeadProcess | src/swarm/supervisor.ts:163-170 | Once a process has died, no effect it left on disk is ever handed to the transport, again or for the first time |
| SessionRuns.NeverPreparedAgain | src/swarm/supervisor.ts:279-298 | An effect that left `send-prepared` on disk never returns to it, in memory or on disk; a received one stays received |
| SessionRuns.PostsAreRecordedAndAllowed | src/swarm/supervisor.ts:258-298 | Every posted effect has its recorded intent on disk, goes where the policy and the job's scope allow, and carries the text its node and finished dependencies determine |
| SessionRuns.CheckpointOnlyMovesForward | src/swarm/session-state.ts:48-54 | Along every run statuses, results, runtime tasks, task lists and budgets on disk only move forward |
| SessionRuns.DependenciesComeFirst | src/swarm/supervisor.ts:555-576 | Any node that is accepted, running or result-ready has every dependency result-ready with a settled delivery, and one fixed runtime task |
| SessionRuns.CausalityIsStable | src/swarm/supervisor.ts:163-190 | Later steps, crashes and reopens keep those dependencies ready, their evidence and the runtime task |
| SessionRuns.AuthorityIsNeverWidened | src/swarm/supervisor.ts:245-257 | Every node is a capable member's allowed workload; every parent-child pair is allowed by policy and scope, at parent depth plus one within the limit; external jobs stay within their workloads and task limit |
| SessionRuns.BudgetsAreExact | src/swarm/supervisor.ts:211-214 | The task budget is the number of nodes, the outbound budget the number of recorded intents, and no budget exceeds its limit |
| SessionRuns.RestoreSettlesEverything | src/swarm/supervisor.ts:163-190 | After a reopen every effect is received, failed or ambiguous, nothing is running, no root is planned, and a node with an unreceived effect is never scheduled to send again |
| SessionAnswers.EffectsEndAsAnswered | src/swarm/supervisor.ts:279-298 | Over every run with crashes and reopens, in memory and on disk: a posted effect is failed only if the network refused it, has a sequence number only if its receipt gave that one, and is received only from its own message with its number and nonce |
| SessionAnswers.NothingIsMistaken | src/swarm/supervisor.ts:290-297 | An effect the network refused or did not answer is never taken for sent, and one with a receipt or no answer never for failed |
| SessionGraph.ReachableGraphIsValid | src/swarm/supervisor.ts:103 | The graph validation on reopen accepts every reachable session, under any names that are well formed and distinct within the session |
| SessionGraph.ReachableGraphIsNamed | src/swarm/session-policy.ts:83-87 | Such names exist for every reachable session of a policy within the admissible task limit, and its graph is then valid |
| Supervisor.Supervisor.Begin | src/swarm/supervisor.ts:88-101 | A first start holds the empty session the machine starts from, with nothing lost and nothing sent |
| Supervisor.Supervisor.Resume | src/swarm/supervisor.ts:101-110 | A reopened process holds the checkpoint in `starting` and treats the rooms of all its effects as lost |
| Supervisor.Supervisor.RootTask | src/swarm/supervisor.ts:309-326 | Takes exactly the listed steps: node and job saved before the runtime enqueues; ends with exactly that root accepted, or failed and its job blocked; refuses exactly when authority, budget or the job id do, and then nothing changes |
| Supervisor.Supervisor.DelegateOwned | src/swarm/supervisor.ts:357-371 | Adds exactly the described child, planned, one deeper and last of its job, exactly when parent, dependencies, scope, authority, budgets and graph allow; a repeated request only names the existing node |
| Supervisor.Supervisor.SendEffect | src/swarm/supervisor.ts:395-430 | Prepares, sends and settles one effect: at most one post, none when the effect already exists or the room is lost; ends left to the operator, not begun, or prepared and then as dispatch and task ended, with exactly those fields changed |
| Supervisor.Supervisor.Dispatch | src/swarm/supervisor.ts:279-298 | A post only behind a saved intent and a second authority check; ends sent with the receipt's own number exactly for a saved receipt, failed exactly for a refusal, ambiguous exactly when authority was lost, no answer came or the receipt could not be saved; anything but sent halts |
| Supervisor.Supervisor.ReceiveOwned | src/swarm/supervisor.ts:433-461 | One bounded read: when it happens in time, every message is right and nothing is missing, everything expected is received and the session stays active; otherwise it halts with all that was not received ambiguous |
| Supervisor.Supervisor.TakeMessage | src/swarm/supervisor.ts:462-525 | Completes an effect exactly when peers, text, sequence number, nonce and authority match; records, repeats or contradicts outside proposals |
| Supervisor.Supervisor.RunNode | src/swarm/supervisor.ts:569-575 | Runs an accepted node within the inference budget: ready with its result exactly on success, failed exactly on failure, ambiguous otherwise, the last two blocking its job; still running when the runtime throws |
| Supervisor.Supervisor.RestoreOfflineTasks | src/swarm/supervisor.ts:163-190 | The loops over effects, nodes and jobs compute exactly the restored session and save it |
| SessionReopen.RestoreSession | src/swarm/supervisor.ts:163-190 | Effect by effect, node by node, job by job: the three passes add up to the restored session |
| Supervisor.Supervisor.Step | src/swarm/supervisor.ts:546-582 | Advances flows, then serves the first peer in turn that has work, receipts before nodes before scheduled reads; the session ends as that one read, run or send ends, and an exception halts it |
| Supervisor.Supervisor.AdvanceOperatorFlows | src/swarm/supervisor.ts:372-385 | Each flow goes on only from finished, delivered work, and is left to the operator when that failed or cannot be passed on |
| Supervisor.TurnsComeRound | src/swarm/supervisor.ts:551-567 | Serving another peer brings a peer with work strictly closer, so it waits for at most four others |
| Supervisor.Supervisor.StopSession | src/swarm/supervisor.ts:626-640 | Exactly what was being sent or received becomes ambiguous before the final checkpoint; nothing else changes but the lifecycle |
| SupervisorSafety.ProcessPostsAtMostOnce | src/swarm/supervisor.ts:279-298 | Whatever a supervisor process reached through its methods is reachable, so the at-most-once theorems hold of its fields |
| SupervisorOutcomes.FlowDecides | src/swarm/supervisor.ts:372-385 | A flow goes on exactly from finished, delivered work whose input and authority allow it, to the next peer with that role's work; it blocks when that work failed or cannot be passed on, and otherwise waits |
| SupervisorOutcomes.FlowsFollowTheirPlan | src/swarm/supervisor.ts:372-385 | However often flows are advanced: task k is on peer k of the flow with that role's workload, the child of task k-1 and dependent on it alone |
| SupervisorOutcomes.OfferDecides | src/swarm/supervisor.ts:507-523 | The first offer under a key is recorded, the same again changes nothing, a different one rejects both records and blocks only the job made from it |
| SupervisorOutcomes.RestoredNodeDecides | src/swarm/supervisor.ts:163-190 | What a reopen makes of a node: an unaccepted root is in doubt, an accepted or running task is exactly what its runtime says, nothing else is recomputed, and an unreceived effect leaves it to the operator |
| SupervisorProgress.AdvanceGoesOn | src/swarm/supervisor.ts:555-576 | Serving the chosen node, with authority, budget and a network that answers, takes exactly that node one stage on: proposed, computed or answered |
| SupervisorProgress.ReadGoesOn | src/swarm/supervisor.ts:433-461 | Reading a peer's own messages, in any order, receives all of them: exactly their nodes are accepted or delivered |
| SupervisorProgress.QuietMeansDone | src/swarm/supervisor.ts:546-582 | When no peer has work and nothing went wrong, every task is done and delivered, by induction over the task graph, and every job whose flow has run is finished |
| SupervisorProgress.CoursesAreShort | src/swarm/supervisor.ts:546-582 | A course of served choices in which nothing goes wrong ends within five turns for each task |
| Approvals.ActionApprovalStore.Propose | src/agent/approvals.ts:76-90 | In the file of this agent and action: records a new request, returns the same one again, refuses a changed effect |
| Approvals.ActionApprovalStore.Grant | src/agent/approvals.ts:92-102 | Approves exactly a requested record whose alias and exact hash match; otherwise changes nothing |
| Approvals.ActionApprovalStore.Consume | src/agent/approvals.ts:104-114 | Succeeds exactly on an approved record of exactly this effect, and spends it |
| Approvals.ActionApprovalStore.Finish | src/agent/approvals.ts:116-123 | Ends exactly an executing record |
| Approvals.NonceStore.Reserve | src/nonce-store.ts:28-43 | Above every earlier nonce of the key and not below the clock; refused exactly when it would need a twentieth digit |
| SignedSend.ConsumedAtMostOnce | src/agent/approvals.ts:104-114 | However many callers share an action of an agent, at most one ever spends it |
| SignedSend.DispatchesArePaidFor | src/bridge.ts:107-123 | In every interleaving: dispatches <= reservations <= consumptions, each with its own |
| SignedSend.DispatchWasGranted | src/bridge.ts:107-123 | Every dispatch follows a grant of the exact hash and carries the approved DID, room and sanitized text |
| SignedSend.NoncesRise | src/nonce-store.ts:28-43 | Reserved nonces strictly rise per sender and room in order of reservation, under any clock |
| SignedSend.NoncesAreUnique | src/nonce-store.ts:28-43 | No two dispatched messages of one sender in one room carry the same nonce |
| SignedSend.ServerIsNeverAhead | src/mock-transport.ts:45-51 | The server's last nonce never exceeds the store's |
| SignedSend.OutcomesAreSound | src/bridge.ts:121-138 | A confirmed record had a parsed 2xx; a failed one was never dispatched or every reply was a 4xx |
| SignedSend.TaskSendsOnce | src/agent/state-store.ts:365-391 | A task that entered its send keeps that one call and is never queued again, through crashes and recovery |
| SignedSend.SpentIsForEver | src/agent/approvals.ts:104-123 | Along every run a record keeps its effect, a spent one never becomes usable again and an ended one never changes |
| Bridge.Shared.SendSigned | src/bridge.ts:107-139 | With everything else interleaving between its steps: dispatches exactly when its action is not recorded with another effect, is approved when it is spent, its nonce is below the digit bound and it signs; told unapproved exactly when the record is still only requested; after a dispatch delivered, refused and unknown exactly as the last reply says; the record agrees |
| Transport.SendSignedMessage | src/transport.ts:256-311 | At most retries+1 identical posts, repeated only on 429; parsed, refused or unknown is justified by the replies |
| Transport.LoopIsDetermined | src/transport.ts:262-310 | The answers alone decide where the loop stops and what it concludes |
| LedgerSafety.BudgetsHold | src/agent/inference-accounting.ts:268-283 | In every ledger left by any crashes, for every session, agent and job: counted attempts <= maxAttempts, whether or not the budget has unit limits, and the sum of min(charge, reserve) <= max for every limit it has |
| LedgerSafety.OverrunsAreFlagged | src/agent/inference-accounting.ts:231-239 | Full charges exceed a limit by at most the overruns of attempts flagged reservation-exceeded |
| LedgerSafety.OneUnresolvedPerTask | src/agent/inference-accounting.ts:269 | No two attempts share an id, and one task of one agent in a job has at most one unresolved attempt |
| LedgerSafety.EveryAttemptReloads | src/agent/inference-accounting.ts:144-169 | Every written attempt has the history its state demands and amounts that parse, so reading it back does not refuse it for those |
| LedgerSafety.LedgersAreKept | src/agent/inference-accounting.ts:188-201 | Attempts keep place and identity, histories only grow, settled attempts never change, and the policy stays |
| LedgerSafety.AttemptsEndAsReported | src/agent/inference-accounting.ts:303-322 | In every ledger left by any crashes each attempt was asked for under its identifier and provider, and each settled one ended as some report of the run says: succeeded or failed exactly for a clean report of that outcome within every reservation, otherwise ambiguous, with what that report says was used |
| LedgerSafety.AdmissionIsExact | src/agent/inference-accounting.ts:268-283 | One more reservation is granted exactly when, in all three scopes, the attempts not cancelled stay below the count and their weights with the new reservation stay within every limit |
| LedgerSafety.ChargeIsExact | src/agent/inference-accounting.ts:231-239 | What an earlier attempt weighs: its reservation while its cost is not known, the larger of the two while it is not final, and its cost once settled |
| Ledger.InferenceLedger.AdmitAttempt | src/agent/inference-accounting.ts:268-283 | Writes exactly planned, then cancelled, or reserved and running, after summing prior charges in all three scopes; a new attempt carries exactly what was asked for |
| Ledger.InferenceLedger.CompleteAttempt | src/agent/inference-accounting.ts:303-322 | Settles exactly a running attempt: succeeded or failed exactly for a clean report of that outcome within every reservation and of the budgeted asset, otherwise ambiguous, each with its error; a discarded report leaves usage, spend and billing empty |
| Ledger.InferenceLedger.CheckScope | src/agent/inference-accounting.ts:272-275 | The filter and the sums decide exactly whether one more reservation fits the scope |
| Ledger.InferenceLedger.Summary | src/agent/inference-accounting.ts:203-224 | Has a total exactly for what was recorded, and each is the printed exact sum over the selected attempts |
| BootstrapSafety.AtMostOnePostAndOneGet | src/swarm/external-bootstrap.ts:622-690 | However often interrupted and restarted, one bootstrap posts at most once and reads at most once |
| BootstrapSafety.EveryRecordReloads | src/swarm/external-bootstrap.ts:472-486 | Every reachable record satisfies the lifecycle linkage demanded when it is read back |
| BootstrapSafety.OperationSound | src/swarm/external-bootstrap.ts:608-981 | Every write and request of every operation: a post or read only behind its own durable intent, terminal states absorb, the cursor moves only for safe linked evidence, a used challenge stays used |
| BootstrapSafety.SettledStaysSettled | src/swarm/external-bootstrap.ts:906-981 | Over any further runs: terminal states and their evidence stay, the cursor never goes back after the receipt, a linked checkpoint and a used challenge stay as they are |
| BootstrapSafety.NoResponseIsObserved | src/swarm/external-bootstrap.ts:963-980 | No response is concluded only from a linked, complete, gap-free, same-generation window without a matching message |
| BootstrapSafety.CursorIsJustified | src/swarm/external-bootstrap.ts:791-799 | The cursor leaves the sent message only for a safe, durably linked window, and then exactly to its end |
| BootstrapSafety.ReceiveSound | src/swarm/external-bootstrap.ts:906-961 | Receiving never reports a cursor regression, and each of its writes is sound |
| Bootstrap.Coordinator.SendRequest | src/swarm/external-bootstrap.ts:622-690 | Goes through exactly the approval, intent, post, receipt and outcome states of the specification |
| Bootstrap.Coordinator.ReceiveResponse | src/swarm/external-bootstrap.ts:906-961 | Goes through exactly the recovery, read, staging, linking and cursor states of the specification |
| Bootstrap.Coordinator.ProcessCheckpoint | src/swarm/external-bootstrap.ts:824-885 | Links evidence before the cursor; an unsafe window is recorded and moves nothing; a safe one ends as `BootstrapOutcomes.WindowDecides` says |
| Bootstrap.Coordinator.StageCheckpoint | src/swarm/bootstrap-files.ts:54-71 | Candidate created, written, renamed into place; never over existing evidence |
| Bootstrap.Coordinator.RecoverUnlinkedCheckpoint | src/swarm/external-bootstrap.ts:887-904 | Installs and processes a whole staged checkpoint, or gives up on unreadable or conflicting evidence |
| Bootstrap.Coordinator.TimeoutBootstrap | src/swarm/external-bootstrap.ts:963-981 | Concludes no response only with linked evidence after the deadline; without it the delivery is ambiguous |
| Bootstrap.Coordinator.AuthorizeAction | src/swarm/external-bootstrap.ts:608-620 | Grants exactly a requested action of a prepared record, or finishes an interrupted grant |
| Bootstrap.Coordinator.ProposePromotion | src/swarm/external-bootstrap.ts:983-1028 | Only for accepted evidence, after the pending cursor; the file before the record |
| BootstrapOutcomes.WindowDecides | src/swarm/external-bootstrap.ts:824-885 | A usable window: accepted exactly for one message that checks and accepts, rejected exactly for one that declines or does not fit its schema, each with its code and the challenge used; invalid with the challenge unused exactly for one that cannot be verified; an empty one only moves the cursor; each defect has its own refusal |
| BootstrapOutcomes.ReplyDecides | src/swarm/external-bootstrap.ts:622-690 | The request leaves exactly when everything allows it, and then the reply decides: a receipt waits from its own position on, a refusal ends the bootstrap, anything else is ambiguous |
| BootstrapOutcomes.GetLeavesIff | src/swarm/external-bootstrap.ts:906-961 | The one read leaves exactly when the send was confirmed, nothing was read or staged, and the deadline is ahead |
| BootstrapOutcomes.ReadDecides | src/swarm/external-bootstrap.ts:906-961 | What was read is stored exactly as far as its writes went, and otherwise which part failed is recorded |
| BootstrapOutcomes.TimeoutDecides | src/swarm/external-bootstrap.ts:963-981 | After the deadline of a spent read silence is concluded exactly from linked evidence without a failed read; anything less is ambiguous |
| BootstrapOutcomes.AcceptanceWasChecked | src/swarm/external-bootstrap.ts:861-880 | After any runs and crashes, accepted evidence means that some run really read the linked safe window of one message, some run's check accepted it, and it answers the position in a receipt of the one post |
| BootstrapOutcomes.RecordsAreExplained | src/swarm/external-bootstrap.ts:608-981 | After any runs and crashes every receipt, window, refusal and verdict on record was met by some run exactly as it is recorded |
| RehearsalSafety.CountersAreExact | src/rehearsal/runner.ts:144-153 | In every state left by runs, both repairs and crashes: posts = finished steps + [current is post-intent or later], gets = finished steps + [current is get-intent or received], and no more requests were made |
| RehearsalSafety.CompletionMeansEightOfEach | src/rehearsal/runner.ts:382-449 | Completion means exactly eight of each and every step acknowledged, or the first one reconciled |
| RehearsalSafety.BrokenManifestIsUnreachable | src/rehearsal/runner.ts:144-148 | The halts for an unexpected step and for an exhausted budget never happen |
| RehearsalSafety.ProgressIsKept | src/rehearsal/runner.ts:254-380 | Over any further runs counters never fall and finished steps and recorded repairs stay exactly as they are |
| RehearsalSafety.RecoverReadSound | src/rehearsal/recovery.ts:151-187 | The receipt repair replaces the manifest at most once, whole, under a verified transition; not at all when it already did |
| RehearsalSafety.ApplySendSound | src/rehearsal/send-reconciliation.ts:220-266 | The send repair replaces the manifest at most once, whole, after its intent; not at all when it already did |
| RehearsalSafety.ReadRepairHappensOnce | src/rehearsal/recovery.ts:66-78 | Once in the manifest the receipt repair is there for good, and applying it again after later progress never writes the manifest |
| RehearsalSafety.SendRepairHappensOnce | src/rehearsal/send-reconciliation.ts:239-246 | Once in the manifest the send repair is there for good, and applying it again after later progress never writes the manifest |
| RehearsalSafety.ReadRepairResumes | src/rehearsal/recovery.ts:151-187 | Cut off after any write, the receipt repair run again ends in the same files; also when the manifest had already been replaced |
| RehearsalSafety.SendRepairResumes | src/rehearsal/send-reconciliation.ts:247-266 | Cut off after any write, the send repair run again ends in the same files |
| Rehearsal.Relay.SendNext | src/rehearsal/runner.ts:254-295 | Writes exactly the intent, outcome or halt states of the specification, with at most one post; a halt after a failed save carries what was only in memory; `RehearsalProgress.SendDecides` says which |
| Rehearsal.Relay.ReceiveNext | src/rehearsal/runner.ts:297-380 | Writes exactly the intent, receipt, acknowledgement or halt states of the specification, with at most one get; a halt after a failed save carries the intent, the receipt or the advanced index that was only in memory |
| Rehearsal.Relay.PrepareNext | src/rehearsal/runner.ts:214-232 | Creates the manifest if needed and prepares the current step, or halts on a changed text or a spent approval |
| Rehearsal.Relay.OpenManifest | src/rehearsal/runner.ts:125-156 | Refuses or halts exactly the missing, unexpected, halted and interrupted manifests |
| Rehearsal.Relay.WorkNext | src/rehearsal/runner.ts:382-449 | Stores the analysis, its delegation and its evidence in order; completes only after the eighth step |
| Rehearsal.Relay.RecoverReceipt | src/rehearsal/recovery.ts:58-189 | Performs exactly the transition and manifest writes of the receipt repair |
| Rehearsal.Relay.ApplySendRepair | src/rehearsal/send-reconciliation.ts:220-267 | Performs exactly the record and manifest writes of the send repair |
| Rehearsal.Relay.ObserveSend | src/rehearsal/send-reconciliation.ts:184-218 | One attempt behind its own intent; the outcome is recorded as read or failed |
| Rehearsal.MatchSentMessage | src/rehearsal/send-reconciliation.ts:52-81 | Accepts exactly an ordered window with at most one message of the text, sent by the expected sender with a nonce and a fitting frame, and says where it is |
| RehearsalProgress.PrepareDecides | src/rehearsal/runner.ts:214-232 | A step takes its text exactly when it could be built and stored, is the same as before and no approval was spent; a changed text or a spent approval halts |
| RehearsalProgress.SendDecides | src/rehearsal/runner.ts:254-295 | The step is sent at exactly the receipt's number, exactly when the receipt is usable and saved; every other outcome has its own halt, exactly in its case |
| RehearsalProgress.ReceiveDecides | src/rehearsal/runner.ts:297-380 | A step is received exactly at the position after the previous cursor and acknowledged with the task its receipt named; a stale cursor and a failed receipt halt, each exactly in its case |
| RehearsalProgress.ResumeDecides | src/rehearsal/runner.ts:297-380 | A receipt that is already durable is completed without another read |
| RehearsalProgress.WorkDecides | src/rehearsal/runner.ts:382-449 | One analysis per packet, with its evidence exactly after its own success; a changed packet or a failed analysis halts; only the synthesis after the eighth step completes |
| RehearsalProgress.SendRepairDecides | src/rehearsal/send-reconciliation.ts:220-267 | A repaired send continues from the observed position, applied exactly when that is the next one; nothing else of the manifest changes but the halt |
| RehearsalProgress.ReadRepairDecides | src/rehearsal/recovery.ts:58-189 | A repaired receipt is the first step's with the task the evidence names, and the second step is next |
| RehearsalProgress.RelayCompletes | src/rehearsal/runner.ts:214-449 | For any eight texts, receipts and inbound tasks, the uninterrupted relay finishes every step as given, with one post and one get each, and the synthesis completes it |
| RehearsalOutcomes.RecordsAreExplained | src/rehearsal/runner.ts:254-380 | After any runs, repairs and crashes every step carries the number of its own receipt or observation, the task its own receipt or repair named and the text it was prepared with |
| IntakeSafety.EveryAcknowledgedMessageIsKept | src/agent/runtime.ts:656-726 | Over arrivals, crashes between and inside writes, and repeated ingests: every message up to the cursor has exactly one task and one journal line, both of that message, if and only if every ingest was safe with respect to an unended last line |
| IntakeSafety.NothingIsForged | src/agent/runtime.ts:682-718 | Over all those runs, safe or not: every task and every readable line is of a message of the room, none is there twice, and the cursor stays within the room |
| IntakeSafety.IngestKeepsIff | src/agent/journal.ts:154-170 | A completed ingest keeps every acknowledged message exactly when the journal did not end in a line without newline, or every message it read already had its line |
| IntakeSafety.CutNewlineLosesLines | src/agent/journal.ts:154-170 | A concrete reachable run whose second ingest is not safe: the cursor passes two messages whose journal lines ran together |
| IntakeSafety.OverflowLeavesTheCursor | src/agent/runtime.ts:667-675 | A backlog larger than the window is an error and leaves cursor and tasks unmoved in every state |
| IntakeSafety.IngestCatchesUp | src/agent/runtime.ts:656-726 | An uninterrupted ingest succeeds exactly when the backlog fits, the host accepts, no message already has a different task, and the journal's end admits the missing lines: all of them after a newline, only the last message's on an unended line, none on an unreadable file; and then the cursor is at the end of the room |
| IntakeSafety.IngestMakesTasks | src/agent/runtime.ts:682-718 | A successful ingest makes of every message up to the end of the room exactly the task the host and the contacts determine, with its line, and of nothing else |
| IntakeSafety.IngestRefuses | src/agent/runtime.ts:656-726 | Each reason to refuse applies exactly when it is the first that does: a changed epoch, a gap, which is noted, a refusing host, a message that already has a different task |
| Intake.Inbox.EnqueueTask | src/agent/state-store.ts:192-247 | One task per idempotency key: repeated input changes nothing, different input is refused |
| Intake.Inbox.AppendEntry | src/agent/journal.ts:154-170 | Appends exactly once per entry id; an unreadable file refuses |
| Intake.Inbox.AdvanceCursor | src/cursors.ts:28-37 | The cursor becomes the maximum |
| Intake.Inbox.IngestInbox | src/agent/runtime.ts:656-726 | Writes exactly the task, journal and cursor states of the specification, in order, and returns its error |
| Intake.RoomServer.SendSignedMessage | src/mock-transport.ts:31-65 | Accepts exactly a nonce above the sender's last in the room, at the end of the room; everything else stays |
| Intake.RoomServer.ReadRoom | src/mock-transport.ts:16-29 | The newest 200 messages after the cursor, with first and last sequence numbers |
| Intake.ValidatePeerWindow | src/swarm/peer-recovery.ts:7-18 | Accepts exactly a complete, contiguous, bounded window from the cursor to its end |

## Left out

- Command lines, the dashboard, discovery, diagnostics text and metadata validation field by field: I/O and formatting, easy members only.
- Cryptography and key generation: signatures and encryption are abstract; text sanitization is an arbitrary fixed function.
- HTTP sockets and streaming: a reply is a status, whether it is JSON that parses, or a failure before it was complete.
- `withFileLock`: its stealing by age gives no exclusion for long holders, so the bodies it guards are taken as exclusive.
- Outbound external work and external delivery: the same one-shot shape as the bootstrap.
- Reuse of a process id by an unrelated process: the lock's liveness check is taken as exact.
- Tampering with files, and bit rot after a file was written and verified: bindings checked against them are parameters or hold by construction.
- Identity creation, inspection, unlock and restore from backup: each reads or writes one file once.
- The order in which the supervisor's scans meet jobs and nodes of one peer: any order is allowed; fairness is stated between peers.
- The bounded count of scheduled mailbox reads per peer, and the wording of halt reasons.
- Supervisor.Supervisor.DelegateOwned: graph validation inside it is the distinctness of the dependencies, which `Dag.FreshNodeKeepsValid` shows to be the same for a new node over existing ones; ids are always well formed.
- Revocation of an external job's proposal: modelled as it is (a contradiction rejects the record and blocks the job), no theorem about it.
- The bootstrap's stored bindings (hashes of its own request), schemas and routes: one parameter says whether they still hold, another what checking a response finds.
- Legacy staging names of bootstrap checkpoints: one candidate file is modelled.
- LedgerSafety.EveryAttemptReloads: labels, bindings and hashes that loading also checks are not modelled; they hold what the values hashed determine.
- The ledger's bound of 100000 attempts and its label syntax.
- Tasks of the agent state store other than outbound sends and inbound messages; `attempts <= maxAttempts` is not promised by the code.
- The read-only reconciliation that produces the evidence for the receipt repair: only its completed record is used, as input.
- Approvals of the two reconciliation reads: a parameter says whether they were granted and consumed.
