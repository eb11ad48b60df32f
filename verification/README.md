# Verified models of the checker network, terminal broker and trainee journey

This project restates the repository's stateful cores in Dafny and proves what their guards mean over whole
calls and whole runs. `dafny verify dfyconfig.toml` checks everything.

| files | what they model |
|---|---|
| `HelperProtocol`, `HelperTranscript` | H1 frame codec, incremental stream decoder, control channel, independent transcript verifier |
| `HelperKernel`, `HelperCleanup`, `HelperRuntime`, `HelperPolls` | process and descriptor escrow, `cleanup_owned_h1`, the standalone helper, and which polls let it finish |
| `HelperSupervisor`, `HelperKill` | invocation registry, supervisor, and the interleaving of `kill` with dispatch and publication |
| `Installer`, `InstallerOverlap`, `InstallerRuns` | rules installer against a compare-and-apply host, with crashes between any two effects; what overlapping calls keep and lose; concrete runs |
| `Firewall`, `CounterRules`, `CounterEvidence`, `CounterLink` | a chain evaluator, counter instrumentation, the offline counter verifier, and the tie between them |
| `Egress`, `ApprovedRules` | the egress rule compiler, judged by the same evaluator; the approved rules made from it, instrumented, end to end |
| `Utf8`, `JsonText`, `Json`, `JsonGrammar` | strict UTF-8, both bounded JSON parsers (one model with two dialects), exact decimals, and the grammar that the parsers accept exactly |
| `Collector` | mock transport, read-only runner, fenced collector, batch manifest |
| `Broker`, `BrokerCleanup`, `BrokerFrames` | the terminal broker's crash journal, its cleanup and recovery call by call in a moving world, and its incremental frame loop |
| `Journey`, `JourneyAudit`, `JourneyInstances` | trainee stage machine, the separate auditor of its history, and several instances of one row, stale ones included |

Whatever the code cannot control is an arbitrary function: the kernel's answers and exceptions (`Kernel.env`),
frame rewriting (`Channel.transform`), database failures (`Journey.faults`), Docker's faults and lags and whatever
happens before each of its answers (`Keeper.moods`, `Keeper.between`), both clocks, the fate of each installer step
and the moment of a kill (`Transport.cut`). A contract therefore speaks about every behaviour of the
environment. Digests are function parameters. Code that updates fields is a class with the same fields; its
methods are tied to specification functions, and the laws are lemmas about those functions.

Main results:

- **Codec and stream.** `CodecExact` and `ScanExact` are both directions: a frame decodes to a message exactly when
  it is that message's encoding, and the decoder reaches a state exactly when the bytes are the encodings of the
  delivered messages followed by an unfinished frame, in any chunking. The decoder's `MAX_FRAME` buffer guard and
  the channel's byte cap never decide anything.
- **Helper and supervisor.** With an untransformed channel every log the helper writes is accepted by the
  transcript verifier, and no reason is returned exactly when the transcript is complete, and exactly when the kernel
  answered every one of the helper's questions well (`Helper.Run`, with the polls characterised as a whole in
  `PollingExact`). A supervisor publishes a success if and only if it is deserved (`Supervisor.Run`), and any other
  record for the first thing that went wrong. A success implies reaped and closed processes, every descriptor closed
  once under its pinned identity, and a free slot.
- **Kill.** In every interleaving the effects are ordered: exec only after a commit that preceded the cancel, no
  success once a kill has finished, no admission after a kill. A visible terminal is final if and only if the runner has
  left the block that published it (`TerminalIsFinal`).
- **Installer.** The world one call leaves is stated for every pattern of failures, and when it is denied, issued or
  rolled back, as equivalences (`TrustedInstaller.Install`, `AutomaticRollback`). In every serial run with crashes, as long as nothing was left behind, an approval recorded as
  installed owns the host with exactly its rules. For overlapping calls `SettledExact` says exactly when that still
  holds, by what happened between a call's readback and its commit. In every interleaving at all a request is applied
  at most once and a receipt is final, and a pending job is never verified if and only if it is stuck
  (`StaysPendingExact`); while a stuck job exists only rollbacks are dispatched. After a lost acknowledgement nothing
  short of a recovery moves the host, and recovery converges (`LostAckRecovers`, `HostStaysExact`).
- **Firewall.** Instrumentation preserves every verdict except for probe frames, accounts for every packet and
  byte, and `_sample` accepts a single negative probe exactly when no earlier probe is a prefix of it, and the
  permitted exchange through the installed rules exactly when no negative probe is a prefix of its frame and its reply
  arrives unpadded.
- **JSON.** A text is accepted as a value if and only if it denotes that value by a grammar of plain concatenation and
  the value is within the limits (`ParseExact`, over bytes `BoundedJson`). Printing then parsing is the identity on
  every value within the limits, and the node counter equals values plus keys.
- **Collector.** Unless a kill comes, a capture is exactly what the scripts of its plan say (`Capture`): the artifacts of
  the plan if every script is whole, else the first refusal. The batch manifest check never decides.
- **Broker.** No shell runs without a durable record naming its exec, pid and start ticks, across crashes. A record
  disappears only in a cleanup that had seen its exec quiet, with everything else free to act between the sight and
  the unlink, and its exec never becomes a shell. Cleanup and recovery come back with exactly what Docker's answers
  settle (`Keeper.Cleanup`, `Keeper.Recover`).
- **Journey.** Whatever any instance holds, a permitted call keeps row and history sound if and only if it fits the row
  it meets (`FitsExact`), and in lives whose calls fit a recorded result is final if and only if no call overrules it
  (`ResultFinalExact`). Lives
  whose calls fit, and so all lives in which every call's instance equals its row, have a history the auditor accepts.

Where the code does less than its surroundings suggest, the model follows the code and states the exact condition:

- `recover` stores the generation in the trace even when that is older than the stored one; the rollback that
  follows succeeds if and only if the trace's generation is the host's (`RecoveryExact`).
  A run reaching the branch that cannot converge is `RecoveryCannotConverge`.
- If installer calls overlap, a closed circuit can be wrong in exactly two ways: a change of the other mode reaches the
  host between a call's readback and its commit (`WrongMode`), or `recover` there writes an overtaken call's older
  generation (`WrongGeneration`); `SettledExact` proves that nothing else can do it.
- A quarantine is not always permanent: `recover` accepts a job whose call is still running, and that call may then
  commit it, after which new installs are dispatched (`QuarantineUndone`). It is permanent in serial runs
  (`SerialQuarantine`) and, in general, exactly for stuck jobs.
- A call that raises after its receipt is committed still runs its handler: the job stays verified and its approval is
  blocked (`LateQuarantine`, `TrustedInstaller.Deliver`).
- An interrupt between setting the supervisor's terminal and leaving the protected block puts the fallback over it, even
  over a success that was already admitted (`AdmittedThenOverturned`).
- A cleanup's proof can be stale: an exec seen never started may begin booting before its record is unlinked
  (`RemovalMayBeOvertaken`). `ProofStandsExact` says which proofs last; no stale one lets a shell run.
- Probe matches test a prefix of the frame, so a probe that extends an earlier one is counted there as well
  (`NegativeProbeExact`, with three such frames in `NestedProbesMiscount`).
- The guards of a journey's calls read the instance, which requests load without a lock. Two requests that loaded the
  same row can both complete it: the second result replaces the first, and a history row may end before it starts
  (`StaleCompletion`). `Fits` and `Overrules` are the conditions on the row under which that cannot happen; an instance
  that equals its row always meets them (`CurrentLife`).
- A session whose unlink raises ends with its record possibly kept and the broker still admitting; the next recovery
  clears it (`EndSession`).
- A verdict recorded on a journey already in a final stage passes validation but fails the auditor's
  completion-date check unless it carries the stage's date (`CompletionDateExact`, `LateVerdict`).

## Model

| member | source | states |
|---|---|---|
| HelperProtocol.KindCode | trusted_checker_network/native_v2_helper_protocol.py:25-32 | every message kind has a distinct wire code from 1 up that reads back as that kind |
| HelperProtocol.HeaderExact | trusted_checker_network/native_v2_helper_protocol.py:176-183 | twelve bytes are the header of (kind, sequence, size) if and only if the reader's checks pass and it reads those three back |
| HelperProtocol.CodecExact | trusted_checker_network/native_v2_helper_protocol.py:171-187 | decoding yields message m if and only if m is valid and the bytes are exactly its encoding |
| HelperProtocol.ForeignFrameRefused | trusted_checker_network/native_v2_helper_protocol.py:180-187 | a frame made under one binding is refused as a binding mismatch under every other binding |
| HelperProtocol.PushAllSplits | trusted_checker_network/native_v2_helper_protocol.py:196-212 | scanning a concatenation is scanning the first part and then the second: chunk boundaries do not matter |
| HelperProtocol.ScanSound | trusted_checker_network/native_v2_helper_protocol.py:196-212 | whatever bytes arrive without failure are the encodings of the delivered messages plus a strict prefix of one frame |
| HelperProtocol.ScanComplete | trusted_checker_network/native_v2_helper_protocol.py:196-212 | the encodings of any list of at most 4096 valid messages are delivered, in order, with an empty buffer |
| HelperProtocol.ScanExact | trusted_checker_network/native_v2_helper_protocol.py:196-212 | the scanner is at (buffer, messages) if and only if the bytes are those messages' encodings followed by that unfinished frame |
| HelperProtocol.BufferGuardNeverFires | trusted_checker_network/native_v2_helper_protocol.py:196-212 | after any bytes the buffer is shorter than MAX_FRAME, so the buffer guard never decides |
| HelperProtocol.DeliveryOnlyGrows | trusted_checker_network/native_v2_helper_protocol.py:196-212 | more bytes only extend what was delivered, and a failure is permanent: frames before it are a prefix of the byte-at-a-time result |
| HelperProtocol.StreamDecoder.Feed | trusted_checker_network/native_v2_helper_protocol.py:196-212 | a feed succeeds exactly when the decoder is live, the chunk is within MAX_FRAME and the scan of all bytes so far does not break; it returns exactly the newly completed messages, and failure is sticky and returns none |
| HelperProtocol.StreamDecoder.Finish | trusted_checker_network/native_v2_helper_protocol.py:214-218 | finish succeeds if and only if no failure happened and the consumed bytes are exactly the encodings of the delivered messages |
| HelperKernel.Act | trusted_checker_network/native_v2_helper_fake.py:185-211 | an owned process becomes closed only through close, only after a reap, and close answers true exactly when it did; asking whether it runs changes nothing |
| HelperKernel.AttemptIsAccounted | trusted_checker_network/native_v2_helper_fake.py:218-228 | adding a close attempt on an unclosed descriptor keeps the accounting: closed set equals successful attempts, none twice, the failure latch records every failed one |
| HelperKernel.Kernel.TransferReceipt | trusted_checker_network/native_v2_helper_fake.py:75-80 | a receipt is answered exactly when nothing raises, and is the whole catalog; the first claim pins every identity as it is at that call, and pins once taken never change |
| HelperKernel.Kernel.PollChild | trusted_checker_network/native_v2_helper_fake.py:177-183 | a poll is returned exactly when nothing raises and the child is open; exactly the returned polls enter the history, and only a reported exit stops the child |
| HelperKernel.Kernel.Reserve | trusted_checker_network/native_v2_helper_fake.py:152-157 | a role is created, running and open, exactly when the call reaches an escrowed role without an object; a late exception loses the answer only |
| HelperKernel.Kernel.RecoverOwned | trusted_checker_network/native_v2_helper_fake.py:145-150 | recovery finds an owned reference exactly when the role exists and is not both reaped and closed |
| HelperKernel.Kernel.Secure | trusted_checker_network/native_v2_helper_runtime.py:453-455 | prepare, register and recover meet the first trouble in that order, and the process exists exactly when the first two calls got through |
| HelperKernel.Kernel.Drive | trusted_checker_network/native_v2_helper_fake.py:185-211 | each process call is recorded with its answer, touches only its own role, acts exactly when it finds an open object, and a true close leaves the role gone |
| HelperKernel.Kernel.CloseTransferred | trusted_checker_network/native_v2_helper_fake.py:213-228 | every attempt is accounted for and pinned identities stay the only ones closed; for open descriptors the answer is true exactly when each close is answered under its pin |
| HelperKernel.Kernel.CloseControl | trusted_checker_network/native_v2_helper_fake.py:230-237 | true means every control descriptor of the catalog is closed, and if they are all closed anything but true means that some close was refused |
| HelperKernel.Kernel.CloseRemaining | trusted_checker_network/native_v2_helper_fake.py:239-244 | true if and only if every catalogued descriptor is closed and no close ever failed |
| HelperCleanup.TidyClock | trusted_checker_network/native_v2_helper_runtime.py:316-338 | one more clock reading keeps the readings monotone exactly when it is not before the last one in both clocks |
| HelperCleanup.DisorderStays | trusted_checker_network/native_v2_helper_runtime.py:339-353 | no later call repairs a disorderly history: a fallback never erases a failure |
| HelperCleanup.OrderlyClose | trusted_checker_network/native_v2_helper_runtime.py:348-352 | after the close call the history is orderly exactly when it was before and close answered true |
| HelperCleanup.DrainRound | trusted_checker_network/native_v2_helper_runtime.py:324-332 | one round makes at most three calls, adds at most one chunk, and fails exactly into the refused state |
| HelperCleanup.Terminating | trusted_checker_network/native_v2_helper_runtime.py:321-333 | termination is asked for exactly once, success leaves the process not running, at most 51 calls, at most 65536 bytes kept, clock order kept, against any kernel |
| HelperCleanup.Stop | trusted_checker_network/native_v2_helper_runtime.py:315-338 | the guarded part succeeds exactly when every call so far was orderly, reaped once and asked once to terminate unless the exit was normal; on the normal path exactly when the clock, the reap and the clock after it are answered well |
| HelperCleanup.BestEffort | trusted_checker_network/native_v2_helper_runtime.py:339-347 | the fallback makes three calls, attempts reap, drains nothing and cannot make the history orderly |
| HelperCleanup.Cleanup | trusted_checker_network/native_v2_helper_runtime.py:308-354 | at most 58 kernel calls and 65536 drained bytes, reap attempted once or twice, close called exactly once, and safe if and only if no call raised, reap and close answered true and every clock reading was monotone and in time; safe implies the role is gone |
| HelperCleanup.RecoverCleanup | trusted_checker_network/native_v2_helper_runtime.py:297-305 | clean implies the role is absent or gone and found tells which; the kernel's failure latch is set exactly when not clean; on the normal path clean is an equivalence over the five answers |
| HelperTranscript.Channel.Send | trusted_checker_network/native_v2_helper_runtime.py:28-34 | a frame is appended exactly when the channel is open, the message is valid, fewer than 4096 frames exist and the possibly rewritten frame is within MAX_FRAME, and a refusal names the first of these that fails; the byte cap never decides |
| HelperTranscript.StepMeans | trusted_checker_network/native_v2_helper_runtime.py:77-107 | an accepted message has the next sequence number, adds its payload to its own stream only, and completes only with the receipt of exactly the bytes heard |
| HelperTranscript.HeardMeans | trusted_checker_network/native_v2_helper_runtime.py:71-107 | every accepted log has consecutive sequence numbers, its outputs are the concatenated payloads, and complete means its last frame is the receipt of those outputs |
| HelperTranscript.HearOneMore | trusted_checker_network/native_v2_helper_runtime.py:71-80 | hearing one more encoded valid message is exactly one verifier step |
| HelperTranscript.Verifier.AcceptFrame | trusted_checker_network/native_v2_helper_runtime.py:71-75 | a frame is accepted exactly when no failure came before and the log with it is accepted as a whole, else refused for what its step refuses; failure is sticky |
| HelperTranscript.Verifier.Finish | trusted_checker_network/native_v2_helper_runtime.py:109-112 | finish passes exactly when nothing failed and the transcript is complete or ended in an error frame |
| HelperRuntime.Helper.Fence | trusted_checker_network/native_v2_helper_runtime.py:169-178 | passes if and only if the clock reads, neither measure went back, the deadline and the command's wall-clock limit hold, a watched parent is alive and no cancellation was received; otherwise the first of these that fails is the reason |
| HelperRuntime.Helper.Begin | trusted_checker_network/native_v2_helper_runtime.py:180-197 | succeeds exactly when receipt, rows, invoke frame, seven descriptor checks, fence and identity are all answered well, and fails for the first that is not; success pins the catalog |
| HelperRuntime.Helper.Enter | trusted_checker_network/native_v2_helper_runtime.py:198-202 | over an untransformed channel succeeds exactly when executable, namespace, fence and identity are answered well, and fails for the first that is not; success brings the verifier past two phases |
| HelperRuntime.Helper.DropCredentials | trusted_checker_network/native_v2_helper_runtime.py:203-205 | the same for the drop and the second look; success brings the verifier past the credentials phase |
| HelperRuntime.Helper.Launch | trusted_checker_network/native_v2_helper_runtime.py:206-215 | the same for descriptors, fence, the child's three calls, the last fence, the dispatch commit and the exec; success means the child runs and the verifier is past the last phase |
| HelperRuntime.Helper.TakeChunk | trusted_checker_network/native_v2_helper_runtime.py:221-227 | a chunk goes to its own stream only and the verifier hears exactly it; it is refused exactly for an ended stream, its cap, the aggregate cap or a full channel, in that order |
| HelperRuntime.Helper.TakePoll | trusted_checker_network/native_v2_helper_runtime.py:221-229 | a poll appends, per stream, its chunks in order and then the ends it reports; refused for the first chunk that is, or for want of room |
| HelperRuntime.Helper.PollToEnd | trusted_checker_network/native_v2_helper_runtime.py:216-233 | over an untransformed channel the result is exactly what the rounds meet first; success means both streams ended, each output is the concatenation of its chunks, some poll reported an exit and every exit reported is zero |
| HelperRuntime.Helper.Conclude | trusted_checker_network/native_v2_helper_runtime.py:233-236 | succeeds exactly when fence, identity and executable are answered well and there is room for the exit frame; only the completion is then missing |
| HelperRuntime.Helper.Settle | trusted_checker_network/native_v2_helper_runtime.py:239-255 | no reason is left exactly when the child stops in order, the fence still holds and every descriptor but the control ones closes under its pin; an unclean end is always reported as cleanup unproven |
| HelperRuntime.Helper.Close | trusted_checker_network/native_v2_helper_runtime.py:256-266 | the closing frame is accepted; the transcript is complete exactly when no reason is returned, and the reason changes only when the channel is full |
| HelperRuntime.Helper.Run | trusted_checker_network/native_v2_helper_runtime.py:163-273 | for every poll script and kernel, over an untransformed channel: no reason is returned if and only if the kernel answered every question well (Flawless), if and only if the accepted log is complete; its outputs are the polled chunks and every exit reported is zero; a clean failure reports the first trouble, and the error frame carries the returned reason |
| HelperPolls.PollingExact | trusted_checker_network/native_v2_helper_runtime.py:216-233 | polling meets no trouble if and only if for some number of rounds every fence holds and the polls are good: well formed, in order, within caps and room, both streams ended, every exit reported zero, and no earlier poll the last |
| HelperPolls.AllTakenExact | trusted_checker_network/native_v2_helper_runtime.py:221-229 | every poll of a list is taken if and only if no chunk comes after its stream's end, both outputs are within their caps and the frames fit the channel |
| HelperRuntime.ExitsExact | trusted_checker_network/native_v2_helper_runtime.py:230-233 | the agreement check of the loop and a final status of zero hold together if and only if some poll reports an exit and every exit reported is zero |
| HelperSupervisor.RegistryHistory | trusted_checker_network/native_v2_helper_runtime.py:357-397 | over every request sequence the registry's books equal the granted tickets: distinct ids and nonces, at most 256, one session |
| HelperSupervisor.OnlyTheOwnerClears | trusted_checker_network/native_v2_helper_runtime.py:363-390 | over every request sequence in which the slot's owner neither finishes nor aborts, the active slot stays |
| HelperSupervisor.OpenCircuitStaysOpen | trusted_checker_network/native_v2_helper_runtime.py:363-390 | once the circuit is open no later sequence of requests is granted anything |
| HelperSupervisor.Registry.Handle | trusted_checker_network/native_v2_helper_runtime.py:363-397 | the registry's own fields, changed one by one under the lock, refine the slot specification for reserve, finish, abort and debit; a refusal changes nothing |
| HelperSupervisor.Supervisor.Dispatch | trusted_checker_network/native_v2_helper_runtime.py:448-460 | succeeds exactly when no kill was seen, the slot is granted, the helper is secured, still no kill was seen and the spawn is answered; fails for the first that is not, with the registry and the helper's object exactly as far as that got |
| HelperSupervisor.Supervisor.Audit | trusted_checker_network/native_v2_helper_runtime.py:466-471 | the result is that of replaying the log: its transcript with the session debited for it, or the first refusal |
| HelperSupervisor.ReplayExact | trusted_checker_network/native_v2_helper_runtime.py:466-471 | a log replays if and only if the verifier accepts it and its data is nothing or within what the session may still capture, and exactly that much is then spent |
| HelperSupervisor.Supervisor.Work | trusted_checker_network/native_v2_helper_runtime.py:447-478 | the trouble it ends with is the dispatch's, or the helper's interruption, or the audit's, or the missing return, in that order; otherwise the verdict is the error frame's reason, or completed with an audited complete transcript and everything owned and pinned |
| HelperSupervisor.Supervisor.Sweep | trusted_checker_network/native_v2_helper_runtime.py:480-492 | clean afterwards if and only if clean before, no cleanup ever failed, every descriptor is closed and no close was refused; then every role is gone, and a process is reported exactly if one was left |
| HelperSupervisor.Supervisor.FinalClock | trusted_checker_network/native_v2_helper_runtime.py:497-505 | success survives if and only if the last clock reading is readable, not before the helper's end in either measure, and within deadline and command time; otherwise the first of these is the reason |
| HelperSupervisor.Supervisor.Publish | trusted_checker_network/native_v2_helper_runtime.py:430-442 | exactly the judged record is published, a late kill overriding anything but an unproven cleanup; the slot is freed before a success is visible, and any other verdict opens the circuit |
| HelperSupervisor.Supervisor.Run | trusted_checker_network/native_v2_helper_runtime.py:444-517 | a success is published if and only if enabled, no kill at any of three points, slot granted, helper secured, spawn answered, helper returned no reason uninterrupted, log complete and affordable, sweep clean and last clock in time; it then means both processes gone, every descriptor closed once under its pin and a free slot; any other record carries unproven cleanup, a late kill or the first trouble, and what became of the processes |
| HelperSupervisor.Supervisor.JudgedExact | trusted_checker_network/native_v2_helper_runtime.py:444-505 | the verdict of a clean run is a success exactly under those conditions, kill at publication and sweep aside |
| HelperKill.StepKeeps | trusted_checker_network/native_v2_helper_runtime.py:36-60 | every step of runner, killer, admitter or interrupt keeps the linear order of effects; a terminal is kept or gives way to the fallback of an interrupted runner |
| HelperKill.KillLinearizes | trusted_checker_network/native_v2_helper_runtime.py:415-442 | in every interleaving the log of effects is linear: exec follows its commit, no commit follows a cancel, no success follows a finished kill, no admission follows a kill or a fallback |
| HelperKill.TerminalIsFinal | trusted_checker_network/native_v2_helper_runtime.py:506-517 | in every reachable state a visible terminal stays in every continuation if and only if the runner has left the block that published it |
| HelperKill.OnlyTheFallbackReplaces | trusted_checker_network/native_v2_helper_runtime.py:506-517 | in every continuation a visible terminal is unchanged or the fallback: two outcomes that count are never shown |
| HelperKill.AdmittedThenOverturned | trusted_checker_network/native_v2_helper_runtime.py:506-523 | a run in which a success is admitted and an interrupt then replaces it |
| Installer.StepKeeps | trusted_checker_network/installer.py:76-138 | every atomic step, including a crash, keeps the installer invariant when calls do not overlap |
| Installer.RunKeeps | trusted_checker_network/installer.py:76-138 | the invariant holds in every state of every serial run |
| Installer.InstalledMeansInstalled | trusted_checker_network/installer.py:76-138 | in every serial run with crashes, either the circuit is open or every bootstrap or active approval owns the host, with the stored generation and exactly its rules for that stage; overlapping runs are InstallerOverlap.SettledExact |
| Installer.CheckIsDecidedByStage | trusted_checker_network/installer.py:176-185 | while the circuit is closed the readback check passes if and only if the stored stage says so |
| Installer.LooseRun | trusted_checker_network/installer.py:70-174 | in every run, overlapping calls included, the books hold: receipts, single reach, one owner ever, the host journal right about every apply, nothing stored ahead of the host |
| Installer.AppliedAtMostOnce | trusted_checker_network/installer.py:85-107 | in every run no request id reaches the host twice |
| Installer.CircuitIsPermanent | trusted_checker_network/installer.py:70-95 | while a stuck job exists it stays stuck, and every job created later by any call for any approval, in any interleaving, is a rollback |
| Installer.StaysPendingExact | trusted_checker_network/installer.py:70-174 | for every reachable state, overlapping calls included: a pending job is verified in no continuation if and only if it is stuck (its call gone or failing, its compare refused, or its change no longer on the host before its readback) |
| Installer.QuarantineStaysExact | trusted_checker_network/installer.py:154-174 | a quarantined job stays pending for ever if and only if its call is gone or failing, or acknowledged but not read back with the host moved on |
| Installer.SerialQuarantine | trusted_checker_network/installer.py:70-95 | after a serial run every quarantined or abandoned job stays pending and only rollbacks are dispatched, whatever interleaving follows |
| Installer.StepIsIrrevocable | trusted_checker_network/installer.py:70-74 | no step deletes a job, changes its approval, operation, deadline or expected generation, touches a receipt, revives a job left behind or unblocks an approval |
| Installer.ReceiptIsFinal | trusted_checker_network/installer.py:85-88 | a job that has a receipt is the same job with the same receipt after every continuation, so a replay returns it |
| Installer.RecoveryExact | trusted_checker_network/installer.py:154-174 | beside whatever calls are running, recovering and rolling back leaves the host on bootstrap rules with the stored generation equal to the host's if and only if the trace's generation is the host's; otherwise the host is untouched; the approval stays blocked either way |
| Installer.AheadRun | trusted_checker_network/installer.py:70-138 | a host ahead of the store, of what its calls expect and of what they may still store is moved by no interleaving without a recovery |
| Installer.HostStaysExact | trusted_checker_network/installer.py:70-138 | for every reachable state, overlapping calls included: the host stays put in every continuation without a recovery if and only if it is ahead in that sense |
| Installer.LostApply | trusted_checker_network/host.py:56-79 | an apply whose acknowledgement is lost leaves the host ahead and its job pending with no call that could finish it |
| Installer.LostAckRecovers | trusted_checker_network/installer.py:133-174 | in every run, overlapping calls and crashes included: once the host applies a job whose acknowledgement is lost, nothing short of a recovery moves it, and recovering with its trace and rolling back converges and leaves the approval blocked |
| Installer.RollbackEffect | trusted_checker_network/host.py:56-79 | a rollback on an owned host at the stored generation yields bootstrap rules, generation plus one on both sides, and a receipt naming them |
| Installer.OverlapUnsettles | trusted_checker_network/installer.py:105-132 | from every invariant state with an activation read back but not committed, an overlapping rollback leads to stage active over bootstrap rules with a closed circuit |
| InstallerOverlap.ToldRun | trusted_checker_network/installer.py:76-174 | in every interleaving the list of effective steps accounts for the world: last apply is the host, last write the stored generation, last commit the stage, readbacks before commits and between applies |
| InstallerOverlap.SettledExact | trusted_checker_network/installer.py:105-174 | for every interleaving ending with a closed circuit, store and host disagree if and only if no call was revoked after the last commit and, between some call's readback and its commit, the last apply is of the other mode, or an apply is followed by a recover of that call with nothing stored later |
| InstallerRuns.QuarantineUndone | trusted_checker_network/installer.py:158-172 | a run from an empty store in which a quarantined job is verified and another approval's bootstrap dispatched |
| InstallerRuns.WrongMode | trusted_checker_network/installer.py:105-132 | a run from an empty store ending with a closed circuit, stage active and bootstrap rules on the host |
| InstallerRuns.WrongGeneration | trusted_checker_network/installer.py:170-172 | a run from an empty store ending with a closed circuit and a stored generation one behind the host |
| InstallerRuns.RecoveryCannotConverge | trusted_checker_network/installer.py:154-174 | a serial run from an empty store after which recovery and rollback leave the host untouched and the approval blocked |
| Installer.TrustedInstaller.Step | trusted_checker_network/installer.py:105-132 | the store and host change by exactly one specified step, keeping the invariant |
| Installer.TrustedInstaller.Proceed | trusted_checker_network/installer.py:105-132 | after dispatch the call commits, dies or becomes unknown exactly as the host's compare and its points decide, and each leaves exactly the stated world |
| Installer.TrustedInstaller.Install | trusted_checker_network/installer.py:76-138 | replay of the same request returns the stored status and receipt and changes nothing; a new call is denied if and only if the guard fails or the stored state forbids it, and issues if and only if the host's compare passes and no point goes wrong; the whole world it leaves is stated, automatic rollback included; an issued receipt is true, one that raised late keeps it with its approval blocked, any other outcome leaves the job behind |
| Installer.TrustedInstaller.Perform | trusted_checker_network/installer.py:92-138 | one dispatched call leaves exactly the stated world for every pattern of failures: what reached the host, which generation was stored, whether the job is verified, quarantined or dispatched, and whether its approval is blocked |
| Installer.OutcomeMeans | trusted_checker_network/installer.py:125-138 | in that world an issued receipt is stored and true, an unknown or dead call leaves its job behind, and a late raise keeps the receipt with the approval blocked |
| Installer.AutomaticRollback | trusted_checker_network/installer.py:133-138 | the handler's rollback is made if and only if the approval was blocked, the guard passes and a generation is stored, and it changes the host if and only if the compare passes at the stored generation |
| Installer.TrustedInstaller.Deliver | trusted_checker_network/installer.py:125-138 | after the commit the receipt is returned unchanged, or a raise takes exactly the handler's step, or the process ends |
| Installer.TrustedInstaller.RecoverJob | trusted_checker_network/installer.py:154-174 | recovery is refused without change unless the job was left behind and the trace matches; otherwise the approval stays blocked and, under a new id, a rollback is attempted exactly when the guard passes and issued exactly when it commits |
| CounterRules.ChunksMean | trusted_checker_network/counter_rules.py:83-86 | the 16-byte chunk matches hold exactly when the packet carries the frame's bytes from that offset |
| CounterRules.ProbeMeans | trusted_checker_network/counter_rules.py:81-93 | a probe rule counts, and a terminal rule drops, exactly runner-port packets that start with the frame |
| CounterRules.CountedMeans | trusted_checker_network/counter_rules.py:65-75 | a counted base rule gives the same verdict as before and counts exactly the packets it decides |
| CounterRules.ProbeWalk | trusted_checker_network/counter_rules.py:76-95 | the probe block decides nothing outside bridge prerouting and there drops exactly the packets matching a negative probe |
| CounterRules.MeaningPreserved | trusted_checker_network/counter_rules.py:58-100 | for every base ruleset, packet and hook the instrumented verdict equals the base verdict, except that negative probe frames on the runner port are dropped |
| CounterRules.NothingNewAccepted | trusted_checker_network/counter_rules.py:58-100 | whatever the instrumented rules accept, the base rules accepted |
| CounterRules.OneDecider | trusted_checker_network/counter_rules.py:65-107 | of all counters a packet moves in a chain, exactly the deciding rule's one gives a verdict |
| CounterRules.Conservation | trusted_checker_network/counter_rules.py:65-107 | for every packet stream and any weight, so for packets and bytes alike, what enters a bridge chain equals the sum over its allow, guard, terminal and fallback counters |
| CounterRules.NegativeProbeExact | trusted_checker_network/counter_rules.py:76-95 | a negative probe moves exactly its own ingress and terminal counters if and only if no earlier probe is a prefix of it |
| CounterRules.NestedProbesMiscount | trusted_checker_network/counter_rules.py:76-95 | three concrete frames, one extending another, for which the exact count fails over every base ruleset |
| CounterRules.Chunked | trusted_checker_network/counter_rules.py:83-86 | the slicing loop builds the chunk matches whose meaning ChunksMean states |
| CounterRules.CountBase | trusted_checker_network/counter_rules.py:65-75 | the insertion loop yields the counted rules and a purpose that fits each rule's verdict |
| CounterRules.CompileProbes | trusted_checker_network/counter_rules.py:80-95 | the probe loop yields ingress and terminal rules in order, each with a fitting purpose |
| CounterRules.Number | trusted_checker_network/counter_rules.py:101-106 | every counter is described once, at its command index, with its rule's chain and purpose |
| CounterRules.CompileCounterRules | trusted_checker_network/counter_rules.py:49-107 | the compiler builds exactly the instrumented ruleset (without probes when inactive) and one exact description per rule |
| CounterEvidence.Telescopes | trusted_checker_network/counter_evidence.py:115-163 | over a chained measurement, last reading minus first equals the sum of the planned changes, for packets and bytes of every counter |
| CounterEvidence.OfflineVerifier.SetEnabled | trusted_checker_network/counter_evidence.py:47-50 | any toggle advances the epoch and disturbs a running reservation |
| CounterEvidence.OfflineVerifier.Kill | trusted_checker_network/counter_evidence.py:52-54 | a kill stops and disables for good and disturbs a running reservation |
| CounterEvidence.OfflineVerifier.Gate | trusted_checker_network/counter_evidence.py:56-67 | passes if and only if the wall clock is not before any earlier gate and inside both windows, enabled, not stopped, and a reservation is undisturbed with both the wall clock before its deadline and the monotonic clock before its end |
| CounterEvidence.OfflineVerifier.Begin | trusted_checker_network/counter_evidence.py:69-78 | a reservation is granted if and only if the gate passes, there is none yet, no terminal or circuit, and the deadline is inside two seconds and the approval; its monotonic end is then the monotonic reading plus what is left to the deadline |
| CounterEvidence.OfflineVerifier.CheckEvents | trusted_checker_network/counter_evidence.py:94-114 | the event loop accepts exactly the records in which every stage is observed in order, bound, in the sending window, on the right interface, with the planned frame out and one and the same accepted reply back |
| CounterEvidence.OfflineVerifier.CheckSample | trusted_checker_network/counter_evidence.py:86-134 | a sample passes exactly when its packet record witnesses every stage of the probe, its times are ordered and every counter moved by exactly its planned change; a delta is only blamed once record and order hold |
| CounterEvidence.OfflineVerifier.Examine | trusted_checker_network/counter_evidence.py:142-164 | success if and only if the topology brackets the samples, every sample fits and chains, and each gate on the way passes both clocks undisturbed |
| CounterEvidence.OfflineVerifier.Finish | trusted_checker_network/counter_evidence.py:136-176 | verified if and only if there is a fixture and it proves itself, every gate on the way passing both clocks of the lease; then every counter's total change is explained by the samples; anything else opens the circuit, and a terminal never changes |
| CounterEvidence.OfflineVerifier.Expire | trusted_checker_network/counter_evidence.py:178-185 | answers exactly unless there is no reservation or its lease still passes; can only end as unknown with the circuit open, and never replaces a terminal |
| CounterLink.DeltasMean | trusted_checker_network/counter_evidence.py:115-132 | if one packet moved a set of counters, the demanded deltas hold exactly when that set is the probe's own two |
| CounterLink.SampleDemand | trusted_checker_network/counter_evidence.py:115-132 | what the sample check demands of a single negative probe is met by the instrumented firewall if and only if no earlier probe is a prefix of it |
| ApprovedRules.ApprovedRules | trusted_checker_network/rules.py:15-34 | the loop inserts the EtherType match in front of exactly the bridge rules of the compiled template, ARP rules told from IP rules by their fields |
| ApprovedRules.TypedTemplate | trusted_checker_network/rules.py:26-33 | for every packet the inserted match changes no rule's verdict, and every rule still ends in one |
| ApprovedRules.ApprovedExact | trusted_checker_network/counter_rules.py:49-107 | end to end: through the approved rules with their counters a frame passes prerouting and forward if and only if it is permitted and no negative probe of the runner's port |
| ApprovedRules.FirstDecides | trusted_checker_network/counter_rules.py:65-75 | in counted rules the first deciding rule of the chain gives the verdict and moves the only counter |
| ApprovedRules.RequestHits | trusted_checker_network/counter_rules.py:58-100 | the permitted probe moves ingress 0 and the request rule's counter at each hook, and nothing else |
| ApprovedRules.ReplyHits | trusted_checker_network/counter_rules.py:58-100 | its reply moves the reply rule's counter at each hook, and nothing else |
| ApprovedRules.LabelsAre | trusted_checker_network/counter_evidence.py:120-128 | of the approved rules exactly two allow counters are request counters and two are reply counters, at the two hooks |
| ApprovedRules.PermittedSampleExact | trusted_checker_network/counter_evidence.py:115-132 | the sample check of the permitted probe is met by one exchange through the installed firewall if and only if no negative probe frame is a prefix of the permitted one and the reply on the wire has the length of its unpadded observation |
| Egress.RenderRules | trusted_checker_live/egress.py:43-91 | the appending loops build exactly the specified ruleset, or refuse for the same port faults |
| Egress.RenderDirection | trusted_checker_live/egress.py:72-90 | one direction's nested loops build exactly its six rules |
| Egress.TcpMeans | trusted_checker_live/egress.py:73-80 | the TCP matches hold exactly of unfragmented service TCP between the bound ports, in the direction's connection state |
| Egress.ArpMeans | trusted_checker_live/egress.py:84-87 | the two ARP match lists together hold exactly of peer ARP between the bound ports |
| Egress.AcceptingChain | trusted_checker_live/egress.py:43-91 | a chain whose rules never drop accepts exactly what some rule decides |
| Egress.DirectionMeans | trusted_checker_live/egress.py:72-90 | one direction accepts at a hook exactly what may enter from its source, with the bound output interface when forwarding |
| Egress.BridgeVerdict | trusted_checker_live/egress.py:43-91 | with two ports each bridge hook accepts exactly the two directions' frames |
| Egress.TwoPortsExact | trusted_checker_live/egress.py:43-91 | a frame is accepted at prerouting and forward if and only if it is runner-to-target service TCP, its reply, or peer ARP, with bound interfaces, MACs and addresses |
| Egress.BootstrapDropsAll | trusted_checker_live/egress.py:43-62 | with no ports every bridge frame is dropped at every hook |
| Egress.HostIsolated | trusted_checker_live/egress.py:58-61 | host traffic through the bridge is dropped at input, output and forward whatever the ports |
| Broker.StepKeeps | terminal/broker_v2.py:236-355 | every step of broker, Docker, bootstrap or container, and a crash, keeps the journal invariant |
| Broker.RunKeeps | terminal/broker_v2.py:236-378 | the invariant holds in every state of every run |
| Broker.NoUnnamedShell | terminal/broker_v2.py:246-273 | in every run with crashes, a running shell is named by a journal record with its exec id, pid and start ticks |
| Broker.RemovalIsProven | terminal/broker_v2.py:131-220 | in every run a record disappears only in a cleanup that earlier, and without a break since, saw its exec not running or its container gone or stopped; the exec is unreleased and no shell at the unlink |
| Broker.ProofStandsExact | terminal/broker_v2.py:131-155 | a proof seen in a cleanup still under way holds in every continuation if and only if the container is gone, the exec finished, or its start was never asked for |
| Broker.RemovalMayBeOvertaken | terminal/broker_v2.py:134-139 | a run from an empty journal in which an exec seen never started is booting when its record is unlinked |
| Broker.ServesOnlyAfterRecovery | terminal/broker_v2.py:357-378 | a broker begins to serve only with an empty journal and the container up |
| Broker.RemovedIsRetired | terminal/broker_v2.py:349-355 | removing a record retires its exec: nothing can name or start it any more |
| Broker.RetiredForever | terminal/session_exec.py:8-15 | a retired exec never becomes a shell in any continuation |
| BrokerCleanup.ElsewhereRun | terminal/broker_v2.py:131-194 | whatever sessions, Docker, bootstrap and container do meanwhile, a cleanup stays under way with its record unchanged and its proof kept |
| BrokerCleanup.Keeper.InspectExec | terminal/broker_v2.py:134-139 | the answer is the true one for that moment unless Docker fails, lags or names another container; that the exec is not running is a proof at that moment |
| BrokerCleanup.Keeper.InspectContainer | terminal/broker_v2.py:141-146 | the answer is the true one for that moment unless Docker fails; gone or not running is a proof at that moment |
| BrokerCleanup.Keeper.AwaitIdle | terminal/broker_v2.py:153-157 | it looks until the answers settle the matter or the bound is reached, and comes back with what they settle; true only with a proof |
| BrokerCleanup.Keeper.Chase | terminal/broker_v2.py:149-182 | the kill helper aims at most once, only at the recorded pid and start ticks and only when these are real; the result is what the answers heard settle |
| BrokerCleanup.Keeper.Confirm | terminal/broker_v2.py:133-182 | it comes back with exactly what the answers settle; true only with a proof, with boundedly many calls |
| BrokerCleanup.Keeper.Cleanup | terminal/broker_v2.py:131-194 | confirmed if and only if the answers heard settle it so, never before they settle anything; success needs a proof seen during this call, whatever Docker answers and whatever else runs between its answers |
| BrokerCleanup.VerdictMeans | terminal/broker_v2.py:131-194 | answers confirm a cleanup only if one of them is a proof; an exec of ours that is not running is confirmed unless Docker fails to answer for the container or another container runs |
| BrokerCleanup.Keeper.EndSession | terminal/broker_v2.py:349-355 | a session's record is unlinked exactly when the answers confirm the cleanup, with a proof seen in it, and the disk does it; otherwise the record stays and nobody is admitted any more |
| BrokerCleanup.Keeper.RecoverOne | terminal/broker_v2.py:198-219 | recovered if and only if the record is the broker's own, the answers confirm its cleanup and the unlink was synced; unlinked only after a proof seen in its own cleanup |
| BrokerCleanup.Keeper.Recover | terminal/broker_v2.py:196-220 | succeeds if and only if every record is recovered in that sense, and then none is left; records that remain are unchanged |
| BrokerCleanup.Keeper.Boot | terminal/broker_v2.py:357-378 | a broker comes up serving if and only if every record was recovered and the container is up; then journal and sessions are empty |
| BrokerFrames.DrainSplits | terminal/broker_v2.py:306-324 | draining a concatenation is draining the first part and feeding the rest |
| BrokerFrames.ChunkingIrrelevant | terminal/broker_v2.py:306-324 | however the client's bytes are chunked, the session state is that of the whole stream |
| BrokerFrames.FramesAreActedOn | terminal/broker_v2.py:306-324 | the encodings of acceptable frames plus an unfinished tail yield exactly their actions, in order |
| BrokerFrames.ActsWereAsked | terminal/broker_v2.py:306-324 | conversely, whatever was acted on without a fault is a list of frames whose encodings are the bytes received |
| BrokerFrames.BufferIsBounded | terminal/broker_v2.py:306-324 | between receives the buffer holds less than one maximal frame |
| BrokerFrames.InputIsUnchanged | terminal/broker_v2.py:315-324 | the bytes written to the terminal are the payloads of the input frames, joined in order, and each resize frame sets exactly the two sides it names, each from 1 to 1000 |
| BrokerFrames.WrittenWasTyped | terminal/broker_v2.py:301-324 | whatever an open session wrote is the input of some frames whose encodings, with an unfinished rest, are the bytes received, in any chunking |
| BrokerFrames.OthersAreRefused | terminal/broker_v2.py:315-324 | the first frame that is neither input nor a resize within bounds ends the session with its own fault, after exactly the acts before it |
| BrokerFrames.Session.Receive | terminal/broker_v2.py:306-324 | one pass of the loop refines the stream specification, actions before a fault included |
| JsonText.DigitsMean | trusted_checker_network/native_v2_json.py:81-97 | decimal printing has the printed value and no leading zero |
| JsonText.MillionthsExact | trusted_checker_network/native_v2_topology_json.py:14-28 | millionths is the exact value: all digits of the token scaled by the missing places |
| JsonText.FixedOfMillionths | trusted_checker_network/native_v2_topology_json.py:14-28 | printing the millionths gives the token padded to six places |
| JsonText.MillionthsOfFixed | trusted_checker_network/native_v2_topology_json.py:14-28 | every amount below ten to the sixteenth is the millionths of a valid token |
| JsonText.SameMillionths | trusted_checker_network/native_v2_topology_json.py:14-28 | two tokens have equal millionths if and only if they differ in trailing zeros only |
| JsonGrammar.PieceReads | trusted_checker_network/native_v2_json.py:46-79 | a character in any lawful spelling (itself, one of eight letters after a backslash, four hex digits of either case, a surrogate pair) is read as that character |
| JsonGrammar.PieceFound | trusted_checker_network/native_v2_json.py:46-79 | conversely, whatever the string loop reads in one round was a lawful spelling of it |
| JsonGrammar.StringReads | trusted_checker_network/native_v2_json.py:35-72 | every lawful spelling of a string within the byte limit is read as that string, wherever the spaces before it are |
| JsonGrammar.IntegerReads | trusted_checker_network/native_v2_json.py:81-97 | digits without a leading zero, signed or not, are read as their value exactly up to the delimiter, for every int64 |
| JsonGrammar.TokenOf | trusted_checker_network/native_v2_topology_json.py:14-28 | one to ten digits without a leading zero, a point and one to six digits make a valid decimal token |
| JsonGrammar.NumberFound | trusted_checker_network/native_v2_topology_json.py:81-127 | conversely, whatever the number reader accepts is such a number, written there |
| JsonGrammar.ValueReads | trusted_checker_network/native_v2_json.py:99-153 | anywhere in a text, at any depth and path and with any spacing, a lawfully written value within the limits is read as that value, the cursor lands after it and the node counter grows by its size |
| JsonGrammar.ValueFound | trusted_checker_network/native_v2_json.py:99-153 | conversely, whatever is read was lawfully written there, as that value |
| JsonGrammar.ParseExact | trusted_checker_network/native_v2_json.py:156-176 | the parser accepts a text as a value if and only if the text is within the size limit and denotes the value, by a grammar of concatenation alone, and the value is within every limit |
| JsonGrammar.PrintedDenotes | trusted_checker_network/native_v2_json.py:99-153 | a printed value denotes itself |
| JsonGrammar.PrintedParsesBack | trusted_checker_network/native_v2_json.py:156-176 | parsing the printed form of any value within the limits and byte cap returns that value |
| Json.ReadFits | trusted_checker_network/native_v2_json.py:99-153 | whatever is read obeys every limit (depth, arrays, strings, integers, distinct keys) and the node counter equals its values plus its keys |
| JsonGrammar.ParsePrintParse | trusted_checker_network/native_v2_topology_json.py:189-209 | printing an accepted document and parsing again gives the same result whenever the printed form fits the cap |
| Utf8.DecodeExact | trusted_checker_network/native_v2_json.py:167-170 | bytes decode to a string if and only if they are its UTF-8 encoding: overlong forms, surrogates and truncation are refused |
| JsonGrammar.BytesParseBack | trusted_checker_network/native_v2_json.py:156-176 | over bytes: parsing the encoding of the printed form of any value within the limits returns that value |
| JsonGrammar.MarkMeans | trusted_checker_network/native_v2_json.py:165-166 | bytes with the mark do not decode or decode to a text starting with U+FEFF, and bytes without it never decode to such a text |
| Json.Parser.Count | trusted_checker_network/native_v2_json.py:20-23 | the node budget is spent exactly while below the limit |
| Json.Parser.Whitespace | trusted_checker_network/native_v2_json.py:25-27 | the cursor moves to the first character that is not a space |
| Json.Parser.TakeChar | trusted_checker_network/native_v2_json.py:29-33 | the cursor stays within the text and moves as specified |
| Json.Parser.StringValue | trusted_checker_network/native_v2_json.py:35-72 | the character loop refines the string reader, which accepts exactly the lawful spellings (StringReads, PieceFound) |
| Json.Parser.NumberValue | trusted_checker_network/native_v2_json.py:81-97 | the digit loop refines the number reader, which accepts exactly the lawful numbers (IntegerReads, NumberFound) |
| Json.Parser.FractionValue | trusted_checker_network/native_v2_topology_json.py:111-121 | the fraction loop refines the decimal reader, which accepts exactly the lawful tokens (TokenOf, NumberFound) |
| Json.Parser.Value | trusted_checker_network/native_v2_json.py:99-153 | the recursive parser terminates, keeps the cursor within the text and refines the value reader, counter included |
| Json.Parser.Members | trusted_checker_network/native_v2_json.py:116-127 | the member loop refines the object reader |
| Json.Parser.Items | trusted_checker_network/native_v2_json.py:136-144 | the item loop refines the array reader |
| JsonGrammar.BoundedJson | trusted_checker_network/native_v2_json.py:156-176 | over bytes: a value is returned if and only if the bytes are within the size limit, are the encoding of a text denoting it, and it is within every limit; a bad size and a bad encoding or byte order mark are told apart; re-parsing the encoding of the printed form gives the value back |
| Collector.CheckManifest | trusted_checker_network/native_v2_capture_contracts.py:351-367 | the running-total loop accepts exactly the manifests whose every artifact is well formed and in its place, in time order and under the aggregate cap |
| Collector.BatchGrows | trusted_checker_network/native_v2_collector.py:138-184 | an artifact that passed the incremental checks extends a valid batch to a valid batch with exactly its bytes added |
| Collector.FlowExact | trusted_checker_network/native_v2_collector.py:149-177 | the event loop accepts a script if and only if every event is from the session's reader, timely, and allowed by those before it, and the outputs are within the caps; what it took in is then read off the events |
| Collector.OrderlySeen | trusted_checker_network/native_v2_collector.py:167-172 | in an accepted stream an exit comes after both ends of file and every exit has status 0, and a completion comes after an exit |
| Collector.RunOneExact | trusted_checker_network/native_v2_collector.py:138-187 | a command returns if and only if its request has a script not used before that is whole (identity, the operation's own argv and binary, start in time, complete stream), and the artifact then tells that script, exit status 0 included |
| Collector.Transport.Open | trusted_checker_network/native_v2_collector.py:75-82 | on an open idle transport exactly the first script made for the request is opened, once; otherwise the request is refused as missing or substituted |
| Collector.Transport.Pull | trusted_checker_network/native_v2_collector.py:84-89 | events come out in order, one at a time, then none |
| Collector.Transport.Release | trusted_checker_network/native_v2_collector.py:91-93 | unless a kill closes the transport, a release succeeds exactly when all events of the active script were pulled |
| Collector.Transport.Close | trusted_checker_network/native_v2_collector.py:95-97 | closing is final and leaves nothing active |
| Collector.Runner.Bind | trusted_checker_network/native_v2_collector.py:113-116 | a session is bound exactly once |
| Collector.Runner.Clock | trusted_checker_network/native_v2_collector.py:123-132 | an instant passes exactly when it is not before the last one, inside the session window and the command's duration in both clocks, and the script is still active; otherwise the first of these is the reason |
| Collector.Runner.Drain | trusted_checker_network/native_v2_collector.py:149-177 | unless a kill closes the transport, the result is exactly the script's flow: what its events add up to, or the first refusal; the total grew by exactly the bytes |
| Collector.Runner.Issue | trusted_checker_network/native_v2_collector.py:178-184 | the issued artifact extends the batch, keeping it valid; only a kill makes the release fail |
| Collector.Runner.Run | trusted_checker_network/native_v2_collector.py:138-187 | unless a kill closes the transport, the result and the books are exactly what the request's script says: one more artifact telling it, or the first refusal; the batch of issued artifacts stays one the manifest accepts |
| Collector.Collector.Kill | trusted_checker_network/native_v2_collector.py:221-227 | a kill closes the transport and becomes the terminal unless one exists |
| Collector.Collector.Attempt | trusted_checker_network/native_v2_collector.py:241-249 | unless killed, the terminal is preserved with the artifacts of the whole plan exactly when every command's script is accepted, and otherwise the first refusal is the reason |
| Collector.Collector.Capture | trusted_checker_network/native_v2_collector.py:234-260 | with a kill landing at any use of the transport: one terminal ever; disabled, killed, or exactly what the scripts of the plan come to (the preserved artifacts or the first refusal); preserved means the batch check passes and every artifact tells its script with exit status 0 and its operation's argv |
| Journey.LatestQuality | traineediary/models.py:498-503 | the chosen metric carries a quality, none of a later week does, and there is none only if no metric has one |
| Journey.Journey.SaveNew | traineediary/models.py:310-318 | creation either fails or opens exactly one row matching stage and date |
| Journey.Journey.Regrade | traineediary/models.py:468-513 | entering or leaving the quality stage fixes, clears or keeps the quality pair as specified |
| Journey.Journey.Record | traineediary/models.py:779-799 | open rows are closed on the date of the one new row, and only stage fields are stored |
| Journey.Journey.MoveBody | traineediary/models.py:764-804 | a move that passes validation without a database failure yields exactly the moved snapshot |
| Journey.Journey.MoveToStage | traineediary/models.py:702-818 | a refused, failed or no-op move restores all fields, store and history, a refusal naming the first check that fails; otherwise the state is exactly the moved one, and every allowed move without a failure goes through |
| Journey.Journey.CompleteBody | traineediary/models.py:631-668 | a completion that passes validation without a database failure yields exactly the concluded snapshot |
| Journey.Journey.Conclude | traineediary/models.py:608-698 | any exception restores all fields, store and history |
| Journey.Journey.CompleteProbation | traineediary/models.py:515-698 | a second completion is always refused, a refusal names the first check that fails, an error changes nothing, success is exactly the conclusion in the first applicable final stage |
| Journey.FirstFinal | traineediary/models.py:588-596 | the first final stage of the catalog that applies, or none exactly if there is none |
| Journey.ChainGrows | traineediary/models.py:764-799 | closing the open row and appending a later one keeps one open row, last, with no gaps and rising ids |
| Journey.MoveKeeps | traineediary/models.py:702-804 | an allowed move by an instance equal to its row keeps the soundness of card, store and history, keeps the result, and cannot leave the final group after completion |
| Journey.ConclusionKeeps | traineediary/models.py:631-668 | a permitted conclusion by an instance equal to its row keeps soundness |
| Journey.NextKeeps | traineediary/models.py:515-818 | every operation of an instance equal to its row, successful or not, keeps soundness and never changes a recorded result; stale instances are JourneyInstances.FitsExact and ResultExact |
| Journey.LifeKeeps | traineediary/models.py:515-818 | over every life of one instance that alone writes its row: sound throughout, completed once means completed with the same result ever after; several instances are JourneyInstances.AlwaysSoundExact and ResultFinalExact |
| Journey.QualityExact | traineediary/models.py:468-513 | over every life the last call that entered or left the reviewed stage decides the quality and its date: inside both are empty, outside they are the latest graded week at that departure and its day |
| Journey.UncrossedQuality | traineediary/models.py:468-513 | while no call has entered or left the reviewed stage, quality and date are what the journey began with |
| JourneyAudit.SortedOrders | deploy/audit_traineediary_unification.py:207-207 | sorting by start date and id orders the rows, loses none, and leaves ordered rows alone |
| JourneyAudit.Audit | deploy/audit_traineediary_unification.py:207-245 | the auditor's flags are exactly the stated defects of the sorted history |
| JourneyAudit.AuditRows | deploy/audit_traineediary_unification.py:222-233 | each flag is raised exactly when some row has that defect |
| JourneyAudit.AuditGaps | deploy/audit_traineediary_unification.py:234-236 | the gap flag is raised exactly when some row does not end where the next begins |
| JourneyAudit.AuditExact | deploy/audit_traineediary_unification.py:207-245 | for a sound history the sorted order is the creation order and the findings depend only on the birth record and dates stated |
| JourneyAudit.LifeAudited | deploy/audit_traineediary_unification.py:207-245 | every life of one instance that alone writes its row, created on its start date in an applicable stage and audited no earlier than its last operation, raises no finding, except the completion date one when the verdict's day differs from the final stage's; several instances are JourneyInstances.InstancesAudited |
| JourneyAudit.CompletionDateExact | deploy/audit_traineediary_unification.py:243-245 | after a permitted completion the auditor's date check passes if and only if the journey was not yet in the final group or the verdict carries the stage's date |
| JourneyAudit.LateVerdict | deploy/audit_traineediary_unification.py:243-245 | a concrete move and later verdict, both permitted, that the auditor flags |
| JourneyAudit.OutcomeExact | deploy/audit_traineediary_unification.py:105-117 | the auditor proves exactly the recorded verdict if and only if it names a judge and the dates agree |
| JourneyAudit.OutcomeOutside | deploy/audit_traineediary_unification.py:105-117 | outside the final group a sound journey is active exactly while it carries no result, and insufficient only if it was created with one and never moved |
| JourneyAudit.UnfinishedIsActive | deploy/audit_traineediary_unification.py:105-117 | after every life from a creation without a result the journey is active if and only if it is outside the final group |
| JourneyAudit.WorkHistoryValid | deploy/audit_traineediary_unification.py:120-136 | the loop accepts exactly non-empty histories whose every row is evidence |
| JourneyAudit.WorkHistoryExact | deploy/audit_traineediary_unification.py:120-136 | a sound history is evidence row by row if and only if it began in an applicable stage no earlier than the start and is not in the future |
| JourneyInstances.MoveFitsExact | traineediary/models.py:702-818 | for a sound row and any instance at all, a permitted move keeps the row sound if and only if the row's stage began no later, is another one, and a recorded completion stays in the final group |
| JourneyInstances.FinishWrites | traineediary/models.py:608-698 | a permitted completion writes its own result always, and the stage columns and a history row only if its instance was not yet in the final stage |
| JourneyInstances.FinishFitsExact | traineediary/models.py:515-698 | for a sound row and any instance at all, a permitted completion keeps the row sound if and only if it fits the row: as a move when its instance is not yet in the final stage, else by a row already in the final group, or one created with a result and never moved |
| JourneyInstances.FitsExact | traineediary/models.py:515-818 | for a sound row and any instance, stale or not, a permitted call keeps row and history sound if and only if it fits the row |
| JourneyInstances.ResultExact | traineediary/models.py:571-580 | a fitting call keeps a recorded result if and only if it is not a completion of a completed row with another result |
| JourneyInstances.CurrentFits | traineediary/models.py:515-818 | an instance equal to its row always fits and overrules nothing |
| JourneyInstances.AlwaysSoundExact | traineediary/models.py:515-818 | over every life of any number of instances, row and history agree at every point if and only if every call fits the row it meets |
| JourneyInstances.ResultFinalExact | traineediary/models.py:515-818 | over every such life whose calls fit, a recorded result is final if and only if no call overrules one |
| JourneyInstances.CurrentLife | traineediary/models.py:515-818 | if every call's instance equals the row when it runs, the life stays sound and results are final |
| JourneyInstances.InstancesAudited | deploy/audit_traineediary_unification.py:207-245 | every life of any instances whose calls fit, from a proper creation, raises no finding except the completion date one when the verdict's day differs from the final stage's |
| JourneyInstances.MisfitShows | deploy/audit_traineediary_unification.py:222-245 | a call that goes back in time on the row, or leaves a result outside the final group, is found by the audit |
| JourneyInstances.StaleCompletion | traineediary/models.py:571-580 | two instances that loaded the same row both complete it: both calls are permitted, the stored result changes and a history row ends before it starts |

## Left out

- HMAC and SHA-256 internals, signing, principals and approval signatures: receipts and traces are taken as authentic, digests as function parameters.
- `store.py`, `packets.py`, `native_v2_os_reader.py`, `trusted_checker_runtime`, `trusted_checker_shadow` and the `services` packages are not part of this model; sample plans are arbitrary frames.
- Linux and Docker adapters, sockets, threads and semaphores: their answers are arbitrary functions.
- Field-by-field schema validators, reader and port identity snapshots: each check is one answer (pass, fail or raise), since every one is settled by reading one branch.
- Invoke frame rewriting in the supervisor is a parameter: the frame the helper receives is any byte string.
- Installer.InstalledMeansInstalled: stated for runs in which calls do not overlap; for all runs the exact condition is InstallerOverlap.SettledExact.
- Installer.CircuitIsPermanent: stated from a stuck job rather than from the quarantined status, because QuarantineUndone shows the status alone does not last; Installer.StaysPendingExact is the exact condition.
- Installer.LostAckRecovers: allows any steps but another recovery in between, because a second recovery may store an older generation.
- `attestation` and `issued_report`: they only re-sign stored values.
- HelperSupervisor.Supervisor.Run: the kill flag is an arbitrary function of the points where it is consulted; the full interleaving, interrupts during publication included, is modelled in HelperKill.
- `unpad` and `classify_reply` of the packet module: parameters of the counter verifier.
- The kill helper of terminal cleanup: its report is one answer, and its effect on the process is one of the things that may happen before the next one.
- UDP checksum rewriting in `sample_plan`: it depends on code that is not part of this model.
- `canonical_readback`, `activation_template` and `IndependentNetworkValidator` in egress.py: text comparison around the compiler.
- `json.loads` of a terminal resize payload: a parameter that yields a list of integers or nothing.
- Authentication, authorization, session slots and terminal output of the broker: plumbing around the journal and frame protocols.
- Journey.NextKeeps: stated for an instance that equals its row; for stale ones it is false (StaleCompletion), and the exact conditions are JourneyInstances.FitsExact and ResultExact.
- Journey.LifeKeeps: stated for one instance that alone writes its row; lives of several are JourneyInstances.AlwaysSoundExact and ResultFinalExact.
- JourneyAudit.LifeAudited: stated for one instance that alone writes its row; lives of several are JourneyInstances.InstancesAudited.
- Interleaving inside one journey call: a call is one transaction, and two of them run one after the other; other writers of the row (the admin form, scheme transfers) are left out.
- Power loss between an unlink and its directory sync, which may bring a record back: the next recovery clears it.
- `progress_percent`, risk and day counts, and the scheme-transfer branch: pure arithmetic, or resting on a service that is not part of this model.
- The successor and staff evidence pass of `working_completions` and the other counters of `build_report`.
