# Model of the evidence-first experiment harness

The harness runs an experiment as a fixed sequence of stages. Each stage asks a language
model through an adapter, keeps evidence of every attempt, and commits and seals what was
accepted; a separate verifier later judges the run from disk alone. For the live adapter
the call is made in a worker process, and a durable journal shared by parent and worker
says whether the call can have been issued.

This project models that behaviour and proves what it promises:

- `CollectorTrace.dfy`, `Collector.dfy`: the event loop that collects one worker's output.
  The operating system is an oracle; every call and answer is written to a trace, and
  every claim is about the trace.
- `Executor.dfy`: launching a worker and deciding what may be attested about it.
- `Journal.dfy`, `Attempt.dfy`, `Lifecycle.dfy`: the attempt journal as bytes, the objects
  that write it, and parent, worker and power loss as interleaved steps.
- `Roles.dfy`, `Manifest.dfy`, `Store.dfy`, `ArtifactStore.dfy`: workflows, the manifest,
  the effects of the artifact store and its methods.
- `Terminal.dfy`, `Acceptance.dfy`: what the independent verifier asks of a finished run,
  and what follows for the run when it is accepted.
- `Accounts.dfy`, `Progress.dfy`, `Runner.dfy`: what an answer entails, how each store call
  moves a stage, and the runner itself with its retry loop, transaction, rollback,
  evaluation and recovery from an interrupt at any point between store operations.
- `Utf8.dfy`, `RawEvidence.dfy`: truncated evidence and its classifier.
- `Json.dfy`, `OwnedJson.dfy`, `ProviderCopy.dfy`, `ProviderCopyFits.dfy`,
  `ProviderCopyMeans.dfy`, `Extraction.dfy`: canonical JSON, the bounded recursive copy,
  what is kept of a provider's response and found again by key, and the budget that pays.
- `Findings.dfy`, `Handoff.dfy`: findings, dispositions, and what reaches a later stage.
- `LiveContract.dfy`: the closed records that cross process boundaries.

`dafny verify dfyconfig.toml` checks the project.

Some expected properties are not quite true of the code; each is stated with its exact
condition. Untruncated text that is itself marker-shaped is refused by the evidence
verifier (`RawEvidence.BoundedVerifies`, `RawEvidence.MarkerTextsRefused`), so the runner
theorems assume raw texts that are not. A stage output that parses need not have a dict
form (`LiveContract.ToDictDefined`). Recording evidence does not look at the seal, so seals
are stable under calls on other roles only (`ArtifactStores.SealsStable`,
`ArtifactStores.RecordBreaksOwnSeal`). Findings whose text contains lone surrogates can
render alike (`Handoff.SurrogatesCollide`). A stage whose transaction ran out of time after
its record was written is reported as exhausted although its last record says "promote"
(`Accounts.StatusFor`, `Runner.ExperimentRunner.RollBackLate`).

Hashes are functions of which nothing but the shape of a digest is assumed: each theorem
that depends on a hash has a collision as its alternative. Times are integers.

## Model

| member | source | states |
|---|---|---|
| `Collector.WorkerCollector.Collect` | src/model_council/executor.py:212-466 | for every behaviour of the operating system the report says exactly what happened: protocol bytes are returned iff there is no failure, and then they are everything read from the protocol pipe, with end of file on all three pipes, exit code 0, no abort, no interruption, no cleanup error and a clock reading after the copy and before the deadline; every descriptor taken is closed exactly once; an abort has killed once or seen the exit; the input is written quantum by quantum, nothing after all of it or after a broken pipe, and closed only when it is all sent, broken or given up; every ready descriptor is served before the next wait; every wait, write and read follows a turn's checks |
| `CollectorTrace.DisciplineMeans` | src/model_council/executor.py:265-301 | kill is attempted at most once, only after an abort and never after an observed exit; no endpoint is closed twice or without having been taken; what is open is what was taken and never closed |
| `CollectorTrace.DisciplineServes` | src/model_council/executor.py:361-366 | each write is the next quantum of what is still to be sent, none comes after everything was sent, after a broken pipe, an abort or an observed exit; the input is closed only when it is all sent, the pipe is broken, or after an abort or an exit |
| `CollectorTrace.DisciplineChecks` | src/model_council/executor.py:319-362 | no wait for descriptors while one that was ready is open and unserved; every wait, write and read comes after the exit was asked for, and without an abort with the clock before the deadline and no failed close; nothing but the kill comes between an abort and the kill; the decision to accept is taken before any output pipe is closed |
| `CollectorTrace.SummaryService` | src/model_council/executor.py:361-406 | the pipes still to be served, a broken input and the question for the exit, defined on the calls alone, are what one pass computes |
| `CollectorTrace.AbortReasons` | src/model_council/executor.py:448-460 | no abort is ever latched for the two reasons that only the final verdict gives |
| `CollectorTrace.CeilingsHold` | src/model_council/executor.py:367-396 | each diagnostic counter and their sum exceed their ceilings by at most one byte and freeze at the first abort; the protocol stream is at most one byte past its ceiling while nothing is wrong |
| `CollectorTrace.WaitsAreBounded` | src/model_council/executor.py:251-254 | one cleanup allowance: no wait runs past the deadline before the first abort or exit, and none past that instant plus five seconds or the deadline afterwards |
| `CollectorTrace.SummaryDecisions` | src/model_council/executor.py:287-317 | the first abort reason, the first exit, the start of cleanup and the clock after the copy, each defined on the calls alone, are what one pass over the calls computes |
| `CollectorTrace.SummaryFlow` | src/model_council/executor.py:361-396 | the bytes received, counted and sent, defined on the calls alone, are what one pass computes |
| `CollectorTrace.SummaryFaults` | src/model_council/executor.py:256-263 | the same for interruption, cleanup errors and failed waits |
| `CollectorTrace.CleanupMeans` | src/model_council/executor.py:441-444 | cleanup is complete iff the child is reaped, the pipes are drained, nothing failed to close and the clock is within the allowance |
| `Collector.WorkerCollector.Communicate` | src/model_council/executor.py:342-406 | the event loop ends for every behaviour of descriptors and child under a clock that passes every instant, and within a bound: no turn but one begins once the clock has passed the deadline, or the one cleanup allowance where it has started; without an abort it saw the exit and drained the pipes or spent the allowance |
| `Collector.WorkerCollector.Abort` | src/model_council/executor.py:287-301 | the first reason is latched and never changed, the allowance is started once and not extended, the child is signalled or known gone, its input is given up |
| `Collector.WorkerCollector.CloseEndpoint` | src/model_council/executor.py:265-285 | an endpoint is given up before its close is attempted, whatever the close answers |
| `Collector.WorkerCollector.ObserveExit` | src/model_council/executor.py:303-317 | asking for the exit leaves every field saying what the calls say, and an allowance that has started is not extended |
| `Collector.WorkerCollector.Arbitrate` | src/model_council/executor.py:319-326 | without an abort the clock just read is before the deadline and nothing has failed to close; an allowance that has started is not extended |
| `Collector.WorkerCollector.ServiceStdin` | src/model_council/executor.py:361-366 | one write of the next quantum; the input is closed exactly when it is then all sent or the pipe is broken, so an input that is still open has something left to send |
| `Collector.WorkerCollector.Sweep` | src/model_council/executor.py:353-362 | after a sweep every ready descriptor was served or closed, unless the clock was seen past the cleanup allowance |
| `Collector.WorkerCollector.ServiceRead` | src/model_council/executor.py:367-400 | buffer, counters and ends keep saying exactly what was read, and while nothing is wrong the ceilings hold; the allowance is not extended |
| `Collector.WorkerCollector.Setup` | src/model_council/executor.py:329-341 | without an exception all four descriptors are owned, and with one at least the protocol descriptor |
| `Collector.WorkerCollector.Latch` | src/model_council/executor.py:407-417 | bytes are accepted only as everything received, with a clock reading after the copy and before the deadline; otherwise there is an abort or something is missing |
| `Collector.WorkerCollector.Handle` | src/model_council/executor.py:418-429 | whatever is raised leaves an abort, with the child signalled or known gone |
| `Collector.WorkerCollector.CloseAll` | src/model_council/executor.py:430-439 | nothing owned stays open; failures to close are remembered and never removed |
| `Collector.WorkerCollector.Report` | src/model_council/executor.py:441-466 | the verdict by precedence: uncertain cleanup, interruption, abort reason, exit code |
| `Executor.RunWorker` | src/model_council/executor.py:92-168 | the reaping mark is "reaped" iff the collection ended cleaned up, and is never "unstarted" again once a launch was tried; the result tells the trace: interruption first, then an uncertain exit, then the first reason aborted for, then an exit code other than 0, and success iff there was none of these |
| `Executor.ReportTells` | src/model_council/executor.py:127-150 | how a collection is reported, as a function of the calls it made |
| `Executor.RunAndClose` | src/model_council/executor.py:700-751 | the closure of a run that returned is published only with the worker reaped, and success means the whole closure is safe on disk |
| `Executor.CloseOnFailure` | src/model_council/executor.py:752-787 | each way out publishes a closure only if the worker never started or is attestably gone, with the reason its exception asks for, and does so wholly if the journal can be closed and the files accept it |
| `Executor.SpawnWorker` | src/model_council/executor.py:674-805 | over all ways out: closed only with the worker unstarted or reaped, successful only closed and reaped; no time, no launch; an attempt that was collected is closed for the reason its trace gives: interrupted, timed out, returned or infrastructure, and it is closed wholly where the files allow it |
| `Executor.InvokeLive` | src/model_council/executor.py:636-672 | a worker runs only after the first and only permission of an attempt prepared for this very request is safe on disk; anything else is refused and leaves the journal as it was; on files that accept every write a worker that was collected is reported as its trace says, and its attempt is closed for that reason iff it cleaned up |
| `Executor.Invite` | src/model_council/executor.py:655-664 | permission is asked for only where the attempt is open for this request and a permission fits its journal, and is granted there if the files accept it |
| `Executor.ValidatePrepared` | src/model_council/attempt_lifecycle.py:62-72 | iff: the attempt inspects, is open, holds its preparation alone, and was prepared for this request: digests, role, identity and wire model |
| `Executor.ValidateWorker` | src/model_council/attempt_lifecycle.py:75-82 | iff: the last event is an unused permission for exactly this request and time |
| `Executor.CloseUnused` | src/model_council/runner.py:590-601 | an attempt is closed as never started only if its journal shows no permission, and wholly so on files that accept it; any other journal keeps its bytes |
| `Journal.Decode` | src/model_council/attempt_lifecycle.py:181-242 | the decoding loop equals the specification: framing, canonical text, bounds, schema, chain, transitions, payloads, timestamps and ticks |
| `Journal.DecodeEncode` | src/model_council/attempt_lifecycle.py:181-242 | decoding inverts encoding on every chain within the bounds and on nothing else |
| `Journal.ChainKinds` | src/model_council/attempt_lifecycle.py:36-44 | the transitions fix every event kind by position but for one choice |
| `Journal.KindsExactly` | src/model_council/attempt_lifecycle.py:36-44 | the transitions allow exactly the sequences of kinds that are right at every position |
| `Journal.ChainMeans` | src/model_council/attempt_lifecycle.py:181-242 | what holds between any two events of a chain: one attempt and schema, linked digests, a clock that does not run back; a grant within the prepared time; success only after an observed return |
| `Journal.LongerDecodes` | src/model_council/attempt_lifecycle.py:181-242 | bytes after a journal that decodes only add events to it |
| `Journal.ChainIntegrity` | src/model_council/attempt_lifecycle.py:181-242 | two journals that decode with one head digest hold the same events, or two bodies that collide under the hash |
| `Journal.TornAppend` | src/model_council/attempt_lifecycle.py:256-270 | an append cut after k bytes decodes to the old events, to the old events and the new one, or not at all, and k decides which |
| `Journal.CutDecodes` | src/model_council/attempt_lifecycle.py:181-242 | a journal cut anywhere that still decodes holds exactly its first events |
| `Journal.AppendOnto` | src/model_council/attempt_lifecycle.py:256-270 | an append to such a journal extends a prefix of the history by one event |
| `Attempt.WriteAll` | src/model_council/attempt_lifecycle.py:143-149 | all of the data and made safe, or a prefix of it and nothing newly safe; it succeeds on a file that takes something of every write and completes every sync |
| `Attempt.JournalWriter.Append` | src/model_council/attempt_lifecycle.py:256-270 | nothing is written unless the extended journal would decode; otherwise the one frame, wholly or torn |
| `Attempt.AttemptJournal.Create` | src/model_council/attempt_lifecycle.py:294-329 | nothing is written unless the role has no attempt and every earlier attempt of the run inspects as closed under another id; then an owner gets a one-event journal that is safe on disk |
| `Attempt.FirstEventChain` | src/model_council/attempt_lifecycle.py:294-329 | the event creation writes is a chain that decodes |
| `Attempt.AttemptJournal.OpenWriter` | src/model_council/attempt_lifecycle.py:331-341 | iff: owner, no failure, not closed, decodable and prepared by this object |
| `Attempt.AttemptJournal.Permit` | src/model_council/attempt_lifecycle.py:343-354 | permission is granted iff its record is known to be safe; a failure after the writer opened retires the object |
| `Attempt.AttemptJournal.Close` | src/model_council/attempt_lifecycle.py:356-388 | an existing closure is never rewritten, nothing is written before the journal is safe again, success means the whole closure is safe |
| `Attempt.AttemptJournal.Inspect` | src/model_council/attempt_lifecycle.py:390-431 | the verdict is the specified function of journal, closure file and memory |
| `Attempt.ClosureBinds` | src/model_council/attempt_lifecycle.py:356-431 | every closure this code writes binds its journal and reads back as itself |
| `Attempt.PermittedNeverSafe` | src/model_council/attempt_lifecycle.py:390-431 | with a permission on record no closure file makes an inspection say "safe" |
| `Attempt.OutcomeIsLast` | src/model_council/attempt_lifecycle.py:390-431 | the outcome a chain carries is that of its fifth event |
| `Attempt.ClosurePins` | src/model_council/attempt_lifecycle.py:390-431 | two journals that inspect with one closure text hold the same events, or bodies that collide under the hash |
| `Attempt.MemoryPins` | src/model_council/attempt_lifecycle.py:390-431 | what an object remembers pins what it accepts: the preparation it made and the closure it wrote, or a collision |
| `Lifecycle.ReachableInv` | src/model_council/attempt_lifecycle.py:245-431 | the invariant holds in every state of every interleaving of parent, worker, failed syncs, torn writes and power losses |
| `Lifecycle.StepKeeps` | src/model_council/attempt_lifecycle.py:245-431 | each of the fifteen steps keeps it |
| `Lifecycle.CallIsOnRecord` | src/model_council/openai_adapter.py:1962-1987 | at most one SDK call is ever issued; if one was, the durable journal holds exactly one call boundary, and so does everything a crash can leave that still decodes |
| `Lifecycle.NoSecondBoundary` | src/model_council/openai_adapter.py:1962-1969 | from no image a crash can leave after the call can a second boundary be appended |
| `Lifecycle.LaunchedNeverSafe` | src/model_council/attempt_lifecycle.py:390-431 | once a worker was launched no inspection of any crash image, with any closure file, reports the attempt safe to retry |
| `Lifecycle.CallMeansLaunched` | src/model_council/openai_adapter.py:1962-1969 | a call was issued only by a launched worker, so the same holds after the call |
| `Lifecycle.ClosedIsFinal` | src/model_council/attempt_lifecycle.py:356-388 | after a closure is begun nothing is appended, no call is issued and no other closure is begun, across power losses |
| `Lifecycle.ClosedMeansSettled` | src/model_council/executor.py:746-787 | a closure exists only with the worker never started or gone and the journal safe |
| `Lifecycle.ClosureInspects` | src/model_council/attempt_lifecycle.py:390-431 | an untampered closure is accepted iff it is whole and the object remembers this attempt; the verdict is "safe" iff the attempt was only prepared, "unsafe" iff its last event is an observed success, and else indeterminate |
| `Lifecycle.OpenInspects` | src/model_council/attempt_lifecycle.py:390-431 | without a closure an attempt inspects iff its journal decodes, none was demanded and none is remembered, and is always indeterminate |
| `Lifecycle.HistoryRuns` | src/model_council/attempt_lifecycle.py:245-431 | every history that fits the bounds is that of some run, which calls exactly if the history says so and ends closed for any reason the history allows |
| `Lifecycle.SafeMeansNeverCalled` | src/model_council/attempt_lifecycle.py:390-431 | "safe" is the truth: no call was issued and no continuation can issue one |
| `Lifecycle.PermitIsARun` | src/model_council/attempt_lifecycle.py:343-354 | what the permitting method may leave on disk is what a run of the parent's steps leaves |
| `Lifecycle.CloseIsARun` | src/model_council/attempt_lifecycle.py:356-388 | the same for a closure that the closing method begins |
| `Lifecycle.AppendIsARun` | src/model_council/attempt_lifecycle.py:256-270 | the same for an append of the worker, and only a boundary known to be safe lets it call |
| `ArtifactStores.ArtifactStore.WriteStaged` | src/model_council/artifacts.py:240-251 | stages the encoded text iff role, name, seal, text and staging area allow it; otherwise nothing changes |
| `ArtifactStores.ArtifactStore.CommitStaged` | src/model_council/artifacts.py:253-281 | promotes the staged files in order, each placed, trusted and listed, stopping at the first that exists; succeeds iff there is none |
| `ArtifactStores.ArtifactStore.RecordInvocation` | src/model_council/artifacts.py:587-662 | writes one attempt's evidence exactly as specified, the partial effects of a refusal included; a sealed role is not refused |
| `ArtifactStores.ArtifactStore.SealStage` | src/model_council/artifacts.py:432-511 | seals iff the listed artifacts and attempts are exactly the expected ones and the deadline has not passed between the checks and the write |
| `ArtifactStores.ArtifactStore.AbortUncommittedStage` | src/model_council/artifacts.py:283-304 | removes staging, files, seal, trust and artifact entries of the role and nothing else |
| `Store.RollbackInverts` | src/model_council/artifacts.py:283-304 | whatever a stage did to its clean role, in whatever order and wherever it stopped, aborting leaves the state it started from plus exactly the invocation evidence |
| `Store.RollbackIdempotent` | src/model_council/artifacts.py:283-304 | aborting twice is aborting once |
| `Store.AbortCleans` | src/model_council/artifacts.py:414-430 | after aborting nothing of the role is staged, committed, trusted, listed or sealed |
| `Store.OthersKept` | src/model_council/artifacts.py:240-304 | effects on one role leave every other role and its manifest entries alone |
| `Store.AbortKeepsOthers` | src/model_council/artifacts.py:283-304 | so does aborting |
| `Store.SealStands` | src/model_council/artifacts.py:519-585 | a stage that verifies keeps verifying under any allowed effects on another role |
| `Store.SealSurvivesAbort` | src/model_council/artifacts.py:283-304 | and when another role is aborted |
| `ArtifactStores.SealsSound` | src/model_council/artifacts.py:391-585 | what the store has committed and remembers is what any later verification that succeeds finds in the files, for every expected artifact and whatever was done to files, seals and manifest; or the hash collides |
| `ProgressLemmas.TransactionSound` | src/model_council/artifacts.py:253-585 | the same from what was staged: after commit, record and seal, a verification that succeeds finds the staged bytes |
| `ArtifactStores.SealsStable` | src/model_council/artifacts.py:519-585 | a stage that verifies keeps verifying, with the same files and the same memory of them, through any sequence of calls on other roles: aborts, refusals and calls that stop part-way included |
| `ArtifactStores.CallSound` | src/model_council/artifacts.py:240-662 | every call of the store, accepted or refused, keeps the manifest sound |
| `Store.SoundAfter` | src/model_council/artifacts.py:391-403 | the store never lists a file twice, never one it did not write, never under an unexpected name |
| `ArtifactStores.CommitKeeps` | src/model_council/artifacts.py:253-281 | committing a complete staged set places, trusts and lists every expected artifact |
| `ArtifactStores.RecordKeeps` | src/model_council/artifacts.py:587-662 | recording an attempt keeps all evidence verifiable and adds exactly that attempt |
| `ArtifactStores.SealVerifies` | src/model_council/artifacts.py:432-585 | sealing what is committed after attempts 1 to n makes a stage that the separate verification accepts |
| `ArtifactStores.RecordBreaksOwnSeal` | src/model_council/artifacts.py:587-603 | the exception to stability: evidence recorded for the sealed role itself is accepted and always costs it its verification |
| `Terminal.LeavesAccepted` | src/model_council/artifacts.py:937-1066 | any stage list of finished stages and at most one failed one, with a status that fits, is accepted by the terminal verification: attempts, evidence, stages, status, evaluation, and last the seals on disk or, for a success, the completed run and its final candidate |
| `Terminal.LeavesAttempts` | src/model_council/artifacts.py:2483-2532 | its attempts have the topology the verifier asks for and all evidence verifies from disk alone |
| `Terminal.LeavesStages` | src/model_council/artifacts.py:2146-2193 | its stage list agrees with the seals on disk in both directions |
| `Terminal.LeavesComplete` | src/model_council/artifacts.py:2087-2107 | the sealed topology is complete iff no stage is missing |
| `Terminal.LeavesSeals` | src/model_council/artifacts.py:1048-1057 | every seal a run leaves, however it ended, verifies from disk alone |
| `Terminal.CompleteIsVerified` | src/model_council/artifacts.py:725-852 | a complete topology with the right candidate passes the verification of completed runs |
| `Terminal.LeavesNoResidue` | src/model_council/runner.py:1322-1359 | every role without a seal has nothing staged, committed, trusted or listed |
| `Terminal.ChangedBytesShow` | src/model_council/artifacts.py:937-1066 | if the verifier accepts a run, however it ended, and what became of its disk under the same manifest, no artifact that both have sealed and no evidence byte has changed, or the hash collides |
| `Terminal.EvidenceShows` | src/model_council/artifacts.py:2406-2480 | the part about evidence, for every run |
| `Terminal.ArtifactsShow` | src/model_council/artifacts.py:2535-2562 | the part about artifacts |
| `Acceptance.SortedIs` | src/model_council/artifacts.py:2483-2532 | sorting the listed attempts keeps each of them |
| `Acceptance.SealedAttemptsNumbered` | src/model_council/artifacts.py:519-585 | a stage that verifies has exactly the attempts 1 to n its seal expects, each once |
| `Acceptance.DigestPins` | src/model_council/artifacts.py:432-585 | two states that verify, whatever else their manifests say, and whose seals carry one digest hold the same artifacts, the same evidence and equally many attempts, or a hash collides |
| `Acceptance.MemoryPins` | src/model_council/artifacts.py:519-585 | while a run is active, a file that verifies and whose hash is remembered has that hash |
| `Acceptance.AcceptedEvidence` | src/model_council/artifacts.py:2406-2480 | every evidence file of an accepted run is listed for a role of the workflow and reads: a record of its role and attempt, or raw text its metadata fits |
| `Acceptance.AcceptedStages` | src/model_council/artifacts.py:2146-2193 | the stage list of an accepted run follows the workflow, succeeded stages are the sealed ones, and each has the attempts 1 to its own, each once |
| `Acceptance.AcceptedUnrecorded` | src/model_council/artifacts.py:2483-2532 | a role without a stage record is unsealed and has attempts only as the next in turn after a success |
| `Acceptance.AcceptedStatus` | src/model_council/artifacts.py:2109-2145 | success and a failed evaluation are accepted only with every stage sealed, success only with a passed evaluation of this evaluator and the last stage's candidate |
| `Runner.ExperimentRunner.Execute` | src/model_council/runner.py:219-348 | for every sequence of answers, raw texts that are not marker-like, clock readings and interrupt point: the terminal verifier accepts what the run leaves; a role without a seal has left nothing but evidence; every role's evidence is a whole account of its attempts; the status says how the run ended and what was thrown has a cause; and if every call answers acceptably, no reading of the clock is late and no interrupt comes, all stages are finished and the evaluator alone decides the status |
| `Runner.ExperimentRunner.SmoothFinishes` | src/model_council/runner.py:219-348 | the last part on its own: acceptable answers, readings within the timeout, room in the ceiling and no interrupt suffice |
| `Runner.ExperimentRunner.SmoothWins` | src/model_council/runner.py:603-1001 | in such a run no stage has a first attempt that failed |
| `Runner.ExperimentRunner.SealedWasAnswered` | src/model_council/runner.py:393-561 | every sealed stage holds what some answer said that passed identity, budget and contract, given the assignment and what earlier stages sealed: a verifier's file is the canonical text of the findings its structured part states, every other file its own artifact as encoded |
| `Runner.ExperimentRunner.ReviserDisposes` | src/model_council/runner.py:1250-1269 | a sealed revision of Condition C disposes of findings whose canonical text is the verifier's sealed file, and its call was shown exactly that text |
| `Runner.ExperimentRunner.HandoffOnDisk` | src/model_council/runner.py:474-482 | where all three stages of Condition C are sealed, the reviser was given what the handoff makes of the two other accepted responses, as encoded |
| `Runner.ExperimentRunner.HeardOnFile` | src/model_council/runner.py:1003-1105 | every attempt on record that began a call is about one call that was made, given the assignment and what earlier stages sealed, and the raw text of a response or a provider failure is on disk, cut to the limit, and no other |
| `Runner.ExperimentRunner.TimesFit` | src/model_council/runner.py:618-999 | all attempts of a stage are held to one deadline; a recorded timeout rests on a reading past it or on an answer that timed out, a promotion and a refusal for want of tokens on a reading before it |
| `Runner.ExperimentRunner.LossOnFile` | src/model_council/runner.py:403-473 | the status of a lost run is the one its last record calls for |
| `Runner.ExperimentRunner.InputsReady` | src/model_council/runner.py:606-612 | no stage can miss an input: what it may see was handed on and is sealed |
| `Runner.ExperimentRunner.HandNext` | src/model_council/runner.py:474-482 | after a stage is won the context is the assignment and what its own and earlier stages have sealed |
| `Runner.ExperimentRunner.RecordsAddUp` | src/model_council/runner.py:603-1001 | read back from disk, a role's records are numbered from one, all but the last say "retry", and each running total is the previous one plus what was consumed, within the ceiling |
| `Runner.ExperimentRunner.ExecuteStage` | src/model_council/runner.py:603-1001 | the retry loop always reaches an outcome within its attempts, all held to one deadline; the outcome and every record fit the answers and the clock |
| `Runner.ExperimentRunner.Attempt` | src/model_council/runner.py:618-706 | a call is begun iff two clock readings are before the deadline, the projected tokens are within the ceiling and no interrupt comes; the response is won iff it then passes every check and two more readings are in time |
| `Runner.ExperimentRunner.Invoke` | src/model_council/runner.py:704-760 | what one call leads to; accepted iff no interrupt comes, the answer passes every check and both readings after it are in time |
| `Runner.ExperimentRunner.Judge` | src/model_council/runner.py:866-999 | identity, budget, contract and time are checked in this order, each failure with its own class, decision and status; the response is won iff it passes every check and the reading after validation is before the deadline |
| `Runner.ExperimentRunner.Accept` | src/model_council/runner.py:943-999 | after validation the reading of the clock alone decides; what is put out is the verifier's findings in canonical form or the response's own artifacts |
| `Runner.ExperimentRunner.KnownIsLearned` | src/model_council/runner.py:1225-1250 | the known findings are always some verifier's, and a reviser's response does not change them |
| `Runner.ExperimentRunner.Unanswered` | src/model_council/runner.py:729-864 | timeouts, model failures and retryable provider failures are retried while attempts remain; other provider failures end the stage; harness failures are recorded and raised |
| `Runner.ExperimentRunner.Settle` | src/model_council/runner.py:729-785 | a retryable failure ends the stage iff it was the last attempt |
| `Runner.ExperimentRunner.RefuseAndRaise` | src/model_council/runner.py:846-891 | a failure that propagates is on record first, unless recording it failed and something else propagates |
| `Runner.ExperimentRunner.CommitStage` | src/model_council/runner.py:511-561 | the transaction either seals the response's own output after exactly its attempts, with the last look at the clock in time, or stops with its account intact, and as too late only on a reading past the deadline |
| `Runner.ExperimentRunner.StageArtifacts` | src/model_council/runner.py:520-524 | either every expected text is staged as encoded, or the transaction stops unsealed with its account intact |
| `Runner.ExperimentRunner.SealCommitted` | src/model_council/runner.py:553-560 | a stage that is sealed in time verifies and binds exactly its attempts; otherwise its account and its bytes are as they were, and only an interrupt is thrown |
| `Runner.ExperimentRunner.RollBackLate` | src/model_council/runner.py:423-473 | a transaction that ran out of time is undone and leaves exactly one record of its attempt, as promoted or as timed out |
| `Runner.ExperimentRunner.Promotion` | src/model_council/runner.py:411-473 | from an accepted response to the next stage, to a lost stage, or to a raise; lost or raised, nothing of the stage is left but evidence |
| `Runner.ExperimentRunner.Win` | src/model_council/runner.py:473-509 | an interrupt between sealing and either note of success is recoverable |
| `Runner.ExperimentRunner.RunStage` | src/model_council/runner.py:393-509 | one stage, given its part of what was handed on, leaves the run between stages, lost or raised, with finished stages finished |
| `Runner.ExperimentRunner.RunStages` | src/model_council/runner.py:393-509 | stages run in workflow order; a run without failure finishes them all |
| `Runner.ExperimentRunner.VerifyExecuted` | src/model_council/runner.py:400-401 | verifying finished stages again before each stage and before the evaluation never fails |
| `Runner.ExperimentRunner.FinalizeEvaluation` | src/model_council/runner.py:1276-1297 | once committed, status, outcome and file agree, and success means the evaluator passed the candidate |
| `Runner.ExperimentRunner.Reconcile` | src/model_council/runner.py:1322-1359 | after an interrupt anywhere succeeded stages equal the seals that verify, a prefix of the workflow, and the first unsealed role has nothing staged, committed, trusted or listed |
| `Runner.ExperimentRunner.MarkInterrupted` | src/model_council/runner.py:1299-1320 | the status after an interrupt fits how far the run came and what is on file |
| `Runner.ExperimentRunner.Conclude` | src/model_council/runner.py:307-340 | what each kind of raise makes of the status |
| `ProgressLemmas.AbortMid` | src/model_council/artifacts.py:283-304 | aborting at any point of a stage keeps its attempts and their bytes and removes the rest |
| `ProgressLemmas.SealMid` | src/model_council/artifacts.py:432-511 | sealing in mid-stage verifies and keeps every other role |
| `ProgressLemmas.CommittedFiles` | src/model_council/artifacts.py:253-281 | the committed files are the staged bytes and no evidence is touched |
| `ProgressLemmas.RecordedEvidence` | src/model_council/artifacts.py:587-662 | a record and its raw text are on disk byte for byte and no other evidence is touched |
| `Accounts.LogGrows` | src/model_council/runner.py:603-1001 | one more attempt that fits what was heard extends a good account |
| `Utf8.TruncatePrefix` | src/model_council/invocation.py:139-151 | the stripping loop returns the longest whole-character prefix whose encoding fits, stripping at most three bytes |
| `Utf8.FittingIsLongest` | src/model_council/invocation.py:139-151 | no longer prefix fits |
| `Utf8.CutDecodes` | src/model_council/invocation.py:139-151 | an encoding cut at n bytes decodes iff n ends a character |
| `Utf8.DecodeInverts` | src/model_council/invocation.py:139-151 | decoding inverts encoding on every text of scalar values |
| `Utf8.EncodeInverts` | src/model_council/invocation.py:139-151 | and whatever decodes is the encoding of what it decodes to |
| `Utf8.EncodePrefix` | src/model_council/invocation.py:139-151 | a prefix of an encoding that is an encoding is that of a prefix |
| `RawEvidence.BoundRaw` | src/model_council/invocation.py:263-301 | what is kept of a text is the specified function of text and limit, refusals included |
| `RawEvidence.FitTruncated` | src/model_council/invocation.py:158-173 | the truncated form fits the limit, with as much of the text as fits behind the fullest marker that fits |
| `RawEvidence.BoundedVerifies` | src/model_council/invocation.py:154-301 | the kept form never exceeds the limit, and the verifier accepts it iff it was truncated or the text is not itself marker-shaped |
| `RawEvidence.FittedKeepsMost` | src/model_council/invocation.py:158-173 | nothing that fits is dropped: behind the fullest marker that fits stands the longest beginning of the text that fits, and only where no marker fits is the marker cut |
| `RawEvidence.VerifiedMeans` | src/model_council/invocation.py:227-260 | metadata is believed iff the sizes fit, truncation is claimed exactly where the bytes read as a marker, and a full marker's number is the observed size |
| `RawEvidence.M1Spelled` | src/model_council/invocation.py:34-38 | the octets of the two markers, as text |
| `RawEvidence.ClassifyMeans` | src/model_council/invocation.py:176-224 | what the classifier makes of arbitrary bytes |
| `RawEvidence.FittedReadsBack` | src/model_council/invocation.py:158-260 | every truncated form is classified as truncated with its observed size |
| `RawEvidence.ParsePrint` | src/model_council/invocation.py:154-156 | the decimal observed size reads back |
| `RawEvidence.MarkerTextsRefused` | src/model_council/invocation.py:198-217 | whole texts that the writer keeps and the verifier refuses |
| `RawEvidence.M1Apart` | src/model_council/invocation.py:158-224 | the two real markers meet what the laws above ask of markers |
| `Json.BodyBytes` | src/model_council/openai_adapter.py:1395-1416 | the character-wise count is the length of the escaped body, surrogate pairs included |
| `Json.UnescapeInverts` | src/model_council/openai_adapter.py:1391-1416 | every scalar value reads back from its escape, whatever follows it |
| `Json.FlatStops` | src/model_council/openai_adapter.py:1391-1416 | an escaped text and what follows it are both determined by the bytes |
| `OwnedJson.Owns` | src/model_council/openai_adapter.py:492-522 | the recursive copy counts every node once and succeeds iff both bounds hold |
| `ProviderCopyFits.ChargeCovers` | src/model_council/openai_adapter.py:1439-1480 | the charge of a value is at least its printed size: the comma an object is charged and does not print pays for the comma of the list it stands in |
| `ProviderCopyFits.CopiedFits` | src/model_council/openai_adapter.py:1512-1660 | whatever is copied of a response prints within its charge and nests at most five deep |
| `ProviderCopyFits.OnlyKnownFields` | src/model_council/openai_adapter.py:1606-1660 | nothing but the known fields is kept, and of an error only that there was one |
| `ProviderCopyFits.ChargeBounded` | src/model_council/openai_adapter.py:1443-1480 | the charge of a value is at most twice its printed size |
| `ProviderCopyMeans.CopiedDefined` | src/model_council/openai_adapter.py:1512-1660 | a response is copied iff it is well formed: nothing that is read raises, discriminator and status are safe where present, items are typed, text parts and refusals have their text, counts are in range |
| `ProviderCopyMeans.CopiedKeeps` | src/model_council/openai_adapter.py:1512-1660 | looked up by key in the copy: id, request id, model and status under their own names, every item in order, every text part's text and every refusal verbatim under its key, every token count under its name one and two levels deep, and no other keys |
| `ProviderCopyMeans.PartKeeps` | src/model_council/openai_adapter.py:1512-1528 | a text part keeps its type and its text under the text key, a refusal its refusal |
| `ProviderCopyMeans.ObservationsPlain` | src/model_council/openai_adapter.py:1606-1640 | every observation that is kept is one short printable line without a secret marker |
| `Extraction.Extractor.Extract` | src/model_council/openai_adapter.py:1606-1675 | extraction yields the whole copy iff a fresh budget pays for it, refused or complete and never partial; the later checks reject nothing; what is extracted can be looked up key by key; a well-formed response whose copy has few nodes and prints in half the octets is always extracted |
| `Extraction.Extractor.CopyResponse` | src/model_council/openai_adapter.py:1606-1660 | the charges are exactly the copy's, plus the key of a reason that is dropped |
| `Extraction.Extractor.CopyItems` | src/model_council/openai_adapter.py:1636-1645 | a list is copied whole or not at all |
| `Extraction.Extractor.CopyMessage` | src/model_council/openai_adapter.py:1531-1557 | the same for a message and its content |
| `Extraction.Extractor.CopyPart` | src/model_council/openai_adapter.py:1512-1528 | a content part is copied whole or not at all, and charged exactly |
| `Extraction.Extractor.CopyIncompleteDetails` | src/model_council/openai_adapter.py:1571-1588 | an unsafe reason is dropped after its key was paid for |
| `Extraction.Extractor.CopyUsage` | src/model_council/openai_adapter.py:1348-1388 | token counts one and two levels deep |
| `Extraction.ExtractionBudget.ConsumeBytes` | src/model_council/openai_adapter.py:1431-1437 | a charge is made whole or refused without effect |
| `Extraction.ExtractionBudget.ChargePayload` | src/model_council/openai_adapter.py:1443-1453 | two quotes and the larger of escaped size and twice the UTF-8 size |
| `Extraction.ExtractionBudget.RequireList` | src/model_council/openai_adapter.py:1483-1489 | a list is refused only if no copy of it fits the nodes left, whatever its elements are copied as, and walked only where its length fits |
| `ProviderCopy.ListedGrows` | src/model_council/openai_adapter.py:1641-1645 | a longer prefix of a list costs at least as much, so refusing early refuses nothing that would fit |
| `Findings.ValidateFindings` | src/model_council/types.py:115-124 | accepts iff every finding has an identifier and a description and no identifier repeats |
| `Findings.ValidateDispositions` | src/model_council/types.py:127-147 | accepts iff every disposition is valid and of a known finding, none is doubled and every material finding is disposed of exactly once |
| `Findings.HandoffDetermines` | src/model_council/types.py:99-112 | the canonical findings text determines the findings it renders, whatever their texts contain |
| `Findings.HandoffReads` | src/model_council/types.py:99-112 | the object handed on reads back as the findings it was made of |
| `Findings.FindingReads` | src/model_council/runner.py:1567-1584 | a finding reads back from its object, as material where the flag is missing |
| `Findings.FindingRefused` | src/model_council/runner.py:1567-1584 | what is refused as a finding: no object, a strange field, a blank or missing id or description, a flag that is no boolean |
| `Findings.DispositionReads` | src/model_council/runner.py:1587-1604 | a disposition reads back from its object |
| `Findings.DispositionRefused` | src/model_council/runner.py:1587-1604 | what is refused as a disposition |
| `Handoff.CheckContract` | src/model_council/runner.py:1217-1272 | accepts iff the artifact names and the structured part are exactly what the stage must produce; findings become known, dispositions are checked against them |
| `Handoff.CheckFindings` | src/model_council/runner.py:1225-1250 | the verifier's structured findings |
| `Handoff.CheckDispositions` | src/model_council/runner.py:1250-1269 | the reviser's structured dispositions: all material findings, exactly once, nothing unknown |
| `Handoff.ApplyOutputs` | src/model_council/runner.py:474-478 | each artifact reaches later stages under its own context key |
| `Handoff.ReviserSees` | src/model_council/roles.py:57-68 | in Condition C the reviser sees task text, candidate and canonical findings, whatever the verifier wrote besides |
| `Handoff.FirstSees` | src/model_council/roles.py:57-68 | the first stage of every condition sees the assignment alone |
| `Handoff.DraftHandedOn` | src/model_council/roles.py:57-68 | in Condition B the self-review sees assignment and draft, and the reviser both and the review |
| `Handoff.VerifierSees` | src/model_council/roles.py:57-68 | in Condition C the verifier sees the assignment and both artifacts of the solver |
| `Handoff.InputsThere` | src/model_council/runner.py:606-612 | whatever a stage may see is there by its turn |
| `Handoff.FeedsLater` | src/model_council/roles.py:57-68 | only later stages read what a stage puts out |
| `Handoff.HandsOn` | src/model_council/runner.py:474-478 | a stage's whole output is handed on under its keys and nothing else changes |
| `Handoff.TwoRuns` | src/model_council/runner.py:979-982 | two runs give the reviser equal inputs iff their findings are equal, for findings whose text can be encoded |
| `Handoff.SurrogatesCollide` | src/model_council/types.py:99-112 | the exception: a lone surrogate pair and the character it spells render alike |
| `LiveContract.AcceptsMeans` | src/model_council/live_contract.py:1638-1688 | the recursive check is a depth bound and nothing else that depends on position |
| `LiveContract.ParseMeansParsed` | src/model_council/live_contract.py:1498-1546 | what an accepted stage output always satisfies |
| `LiveContract.ToDictDefined` | src/model_council/live_contract.py:579-602 | the outputs that parse and cannot be turned back: iff a string exceeds 65,536 bytes, an artifact name is a forbidden key, or the structured part nests as deep as parsing allows |
| `LiveContract.ForbiddenNameStays` | src/model_council/live_contract.py:1498-1546 | an output that parses and has no dict form: one empty artifact under a forbidden name |
| `LiveContract.StageRoundTrip` | src/model_council/live_contract.py:1498-1546 | whenever the dict form exists, parsing it gives the same stage output back |
| `LiveContract.ParsedParses` | src/model_council/live_contract.py:1498-1546 | an output satisfies the listed bounds iff its unchecked dict form parses as itself |
| `LiveContract.RequestRoundTrip` | src/model_council/live_contract.py:530-706 | an accepted request's dict form exists and is the dict it was parsed from, identities and their keys included |
| `LiveContract.ReadRenders` | src/model_council/live_contract.py:530-548 | dicts of the closed shape that read the same are the same |
| `LiveContract.BuildTreatment` | src/model_council/live_contract.py:608-655 | building succeeds iff the arguments are valid, and the remaining time changes neither digest |
| `LiveContract.OnlyBuilt` | src/model_council/live_contract.py:608-655 | every accepted request is what building it again from its own fields gives |
| `LiveContract.DigestCommits` | src/model_council/live_contract.py:1083-1094 | two accepted requests with one parameter digest differ at most in the remaining time, or the hash collides |

## Left out

- Process creation, pipes, signals, selectors, fsync and temporary directories appear only as the answers of an oracle (`Collector.Os`, `Attempt.File`).
- Interrupts arrive at calls of the operating system in the collector and between store operations in the runner, not between two arbitrary instructions.
- A power loss keeps a prefix of each unsynced file; directory entries appear with the first byte of their file.
- Runs of the step system have one parent and one worker per attempt; several worker processes over one descriptor are not modelled.
- Descendants of a worker: the harness makes no claim about them and neither does the model.
- Floating-point seconds are integer ticks, and the clock of the collector passes every instant.
- The lifecycle summaries bound into seals and terminal records.
- ArtifactStores.ArtifactStore.SealStage: does not refuse an open provider attempt, because the store of this model knows nothing of the journal.
- ArtifactStores.ArtifactStore.RecordInvocation: does not model a record of another run or one that cannot be serialised, which the source refuses after the raw text is written.
- The JSON text of journal events, closures and invocation records is a codec of which only round trips, line structure and prefixes are assumed; of a record's content the model keeps role, attempt, decision, failure class and the token and time accounts.
- Printed JSON keeps the order of insertion instead of sorting keys, which changes no size.
- Field names and type names of a provider's response are parameters, as are the secret-marker test and the forbidden-key test.
- The provider identity policy: whether a response has the right identity, and its separate late-return rule, are part of the answer the runner receives.
- The token estimate of a stage is a parameter of its role, not computed from its inputs, and whether a response is within its output and tool budget is a flag of the answer.
- A failure's class is a tag, where `_terminal_for_failure` looks for words in its message.
- A second interrupt while the first is being finalized.
- Set-up before the first stage: authority, bindings, treatment declaration, source provenance, and their verification.
- `expected_attempts=None` when sealing, and protocol versions 13 and 14.
- The observed fields, usage, timing and error of an outcome, which round trip field by field; only its stage output is checked differently on the two ways.
- The Python limit on converting long digit strings when classifying evidence.
- Client construction, credentials, traceback scrubbing, exception tables, fakes, the worker's plumbing and the canary scripts.
