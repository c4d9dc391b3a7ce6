# FaultWitness: verified model of the development tooling

A Dafny 4.11 model of the parts of FaultWitness that decide what may be reused, what must be run
again and what counts as evidence:

- the incremental experiment engine with its trial journal,
- the fault-injection protocol and the resumable matrices and collectors built on it,
- the statistics and decision rules of the baseline and separability work,
- the streamed canary scan and two printers,
- the state-machine validator,
- the trust lifecycle of the bootstrap store.

`dafny verify dfyconfig.toml` checks the whole project. Each module opens with what it models or
proves. Code that updates state is a class or a method with loops, proved against a function of
the old state; the theorems are then lemmas about that function, over every input, every journal
and every sequence of runs. Code that computes a value is a function. What such a function means is
proved in terms of the inputs themselves: of the operations before (`Journal`, `TrustHistory`), of how
a handler, a trial or the backend answered (`RunRestart`, `MatrixRestart`, `CollectorAnswers`), or of
the readings and rows (`ThresholdMeaning`, `ScoringMeaning`, `IntervalMeaning`).

## How the world outside is modelled

- SHA-256 over canonical JSON is an injective function: digests are free terms, and JSON texts are
  identified with the values they denote (`Json.Value`, with decimal numbers).
- Handlers, the flag client, the observer, the probe backend and the model service are adversaries:
  arbitrary functions of everything asked of them so far, able to answer, to refuse, to raise an
  infrastructure error, or to let another exception escape.
- Random draws are an arbitrary index stream. Floats are reals. Clocks are left out. A relative
  threshold floor is any function of the healthy median, of which the registered fractions are cases.
- Fixed registries (32 seeds, 60 cells, 22 surfaces, six labels) are generalised to any number.

## What was found false of the code, and its exact condition

- The streamed scan does not count like a scan of the whole content for every token. For a token
  listed once, whether a hit exists is right (`StreamDetectsExactly`). The count is right for every
  file, whatever the size of the reads, exactly for tokens of at least two bytes without a border
  (`CountSurvivesReadsIff`; `BorderBreaksCount` and `SingleByteCountsTwice` give a file that is
  counted wrong for each read size). A token listed twice is found where it is not
  (`RepeatedTokenIsFoundAtTheSeam`): hits exist exactly when a token stands in the content with each
  chunk taken as often as the token is listed (`FileDetectsIff`). The two canaries of every seed are
  different and of the good kind.
- Swapping the paired arms of a bootstrap mirrors every interval exactly with one cluster, or when 40
  divides the number of resamples, or with fewer than 40 of them (`ArmsMirrorIff`, with the trial rows
  of `ArmsFailToMirror` for any number of clusters from two on, 32 included). With 2000 it does.
- The earlier cluster bootstrap depends on the order of its rows: permuted rows give the same interval
  for all draws exactly when the cases first seen have the same means place by place
  (`EarlierFormIgnoresOrderIff`, with `EarlierFormDependsOnOrder` as the failing input). The v3 form
  does not depend on it.
- A failed canary matrix is not always final. When every surface is clean and only the shape of the
  backend's list was wrong, no surface records the failure, and the next run under the same
  environment passes without asking the backend (`CanaryVerdictRepeatsIff`, `DriftedListIsForgotten`).
- The safety-path check looks at the first transition only between WAITING_APPROVAL and EXECUTING of
  the incident, and between AWAIT_APPROVAL and DISPATCH_ACTION of the agent graph. In an accepted
  machine it binds every run exactly when the later transitions between the two states comply as well
  (`CheckBindsRunsIff`, `ApprovalBindsRunsIff`); any machine that passes also passes with an unguarded
  second one (`SecondStepIsUnchecked`).
- In the v3 readiness trial the raised error hides a cleanup error exactly when the primary error is an
  infrastructure failure and the cleanup error is another error; diagnostics are attached exactly when
  an injection was attempted and one of its halves raised, and always carry both
  (`DiagnosticsTellBoth`, with `CleanupIsHidden` as the failing input).
- The 26-digit printer drops the top bits of its 17-byte seeds: it is read back exactly below 2^130
  (`RoundTripIff`, `SeventeenBytesCollide`).
- SSH, password and capability evidence is not always for the server in the store and the key that is
  pinned. Over every sequence, torn rotations included, it is so exactly when the last rotation since
  the installation, or the probe, that changed the store wrote the same endpoint, username and
  password, and the last operation since then that touched the pin confirmed the same key
  (`SshEvidenceIsForServerIff`, `CapabilityIsForServerIff`). The failing inputs are another key
  confirmed later (`EvidenceOutlivesItsKey`), and a rotation that stops after its first write, to
  another endpoint whose key is confirmed then (`EvidenceMovesToAnotherHost`) or to another password
  (`UntriedPasswordCountsAsVerified`).
- A rotation that stops between its four writes leaves key files stale exactly in the cases of
  `KeysSettledStep`; a candidate and a pin are for the stored endpoint exactly when the last
  store-writing rotation since their scan says so (`CandidateIsForServerIff`, `PinIsForServerIff`). The
  log stays an unbroken chain exactly when no rotation finishes while a torn one to another endpoint
  is unlogged (`LogIsLinkedIff`, with `TornRotationKeepsOldEvidence` as the failing input).
- A handoff is on record as deleted exactly when no finalization lost its metadata write
  (`DeletionIsRecordedIff`, with `TornFinalizationIsNotRecorded` as the failing input).
- Accepting the existing credentials again discards the live evidence of the API keys
  (`AcceptingAgainLosesLive`): a key is live exactly when it was recorded as live and no acceptance
  followed (`LiveIff`).

## Model

| member | source | states |
|---|---|---|
| Journal.TrialJournal.BeginTrial | src/faultwitness_dev/experiment.py:109-140 | a new execution replaces the record, pushes the old one to the history, keeps checkpoints only under an unchanged key |
| Journal.TrialJournal.CheckpointTrial | src/faultwitness_dev/experiment.py:142-167 | a checkpoint is refused unless the trial is running and named; otherwise one more version of the same execution |
| Journal.TrialJournal.FinishTrial | src/faultwitness_dev/experiment.py:169-191 | only a running trial can be finished, only with a terminal status, and its digest is that of its payload |
| Journal.AfterKeepsLineage | src/faultwitness_dev/experiment.py:109-191 | every single operation keeps attempt numbers consecutive, versions increasing, and digests on terminal records only |
| Journal.ReplayLineage | src/faultwitness_dev/experiment.py:109-206 | over every operation sequence the attempt counts the executions and the version counts the writes of the trial |
| Journal.TerminalRecordIsNeverLost | src/faultwitness_dev/experiment.py:109-140 | a terminal record stays current or stands unchanged in the history, whatever follows |
| Journal.CheckpointsBelongToCurrentKey | src/faultwitness_dev/experiment.py:109-167 | a retained checkpoint is the last observation under its name, made under the present key, with no other key in force since |
| Journal.CheckpointIsRetained | src/faultwitness_dev/experiment.py:109-167 | the last observation under a name is retained with its value as long as its key stays in force, through every restart |
| Journal.CheckpointHeldIff | src/faultwitness_dev/experiment.py:109-167 | exactly which checkpoints with which values a trial holds after any sequence of operations |
| Journal.AcceptedIff | src/faultwitness_dev/experiment.py:142-191 | after any sequence, a checkpoint is accepted exactly with a name and an unfinished execution, a finish exactly with one of the four verdicts and an unfinished execution |
| Journal.RecordNamesItsExecution | src/faultwitness_dev/experiment.py:109-140 | producer and key of a record are those of the last execution begun |
| Journal.StatusIsOfLastFinish | src/faultwitness_dev/experiment.py:109-191 | a trial is running exactly if its last execution was not finished, and otherwise has the status it was finished with |
| Journal.PayloadIsLastBrought | src/faultwitness_dev/experiment.py:109-191 | the payload is the last one any accepted operation brought |
| Journal.HistoryKeepsExecutions | src/faultwitness_dev/experiment.py:109-140 | every earlier execution stands in the history as it was left |
| Runner.CheckRegistry | src/faultwitness_dev/experiment.py:246-268 | the constructor accepts exactly the registries of distinct units that depend on earlier ones |
| Runner.ExperimentRunner.ExecuteUnit | src/faultwitness_dev/experiment.py:348-376 | one execution: begin, handler checkpoints, and the status each way of ending is recorded under |
| Runner.ExperimentRunner.VisitUnit | src/faultwitness_dev/experiment.py:314-378 | one unit is reused, skipped, refused or executed, in place on the journal, as the step function says |
| Runner.ExperimentRunner.Run | src/faultwitness_dev/experiment.py:298-385 | a whole call returns or raises, and leaves the journal, exactly as the run function says, selection included |
| RunClosure.RunReports | src/faultwitness_dev/experiment.py:298-385 | for any selection and journal, each selected unit is listed exactly once and each passed unit holds a pass under its current key |
| RunClosure.FullRunClosure | src/faultwitness_dev/experiment.py:298-385 | executed, reused and skipped partition the units; skipped is exactly the downstream closure of executions that did not pass; a passed unit's whole ancestry is current |
| RunClosure.SecondRunIsQuiet | src/faultwitness_dev/experiment.py:314-347 | after an all-pass full run the next one executes nothing and leaves the journal unchanged |
| RunClosure.VerdictsAreNeverRetried | src/faultwitness_dev/experiment.py:332-378 | no run, returning or raising, replaces a pass, metric failure or blocked verdict by a record under the same key, and none that returns executes such a unit |
| RunClosure.RunKeepsLineage | src/faultwitness_dev/experiment.py:298-385 | a run keeps every record's lineage, on return and when it raises |
| RunClosure.KeyExistsIff | src/faultwitness_dev/experiment.py:270-296 | a unit has a key exactly if its checkpoints have values and its dependencies hold current passes |
| RunClosure.KeysAgreeIff | src/faultwitness_dev/experiment.py:24-40 | two units have the same key exactly for the same checkpoint values, dependency artifacts and input |
| RunRestart.HandlerSees | src/faultwitness_dev/experiment.py:348-356 | a handler is called with a running record of this producer and key that says whether it resumes, with the runtime checkpoints so far exactly if it does |
| RunRestart.ExecutedKeepsCheckpoints | src/faultwitness_dev/experiment.py:348-376 | an executed record holds all its handler saw and observed, the last observation under each name, whatever the ending |
| RunRestart.HandlerDecides | src/faultwitness_dev/experiment.py:348-378 | the record and the raising of a run for a unit it executes, by how the handler ended |
| RunRestart.ExecutedAgainIff | src/faultwitness_dev/experiment.py:328-378 | a unit executed under a key is executed again under that key exactly if its handler raised an infrastructure error, let an exception escape, or reported an infrastructure failure or no terminal status; otherwise the record stands and a run raises unless it is a pass |
| RunRestart.InfrastructureIsRetried | src/faultwitness_dev/experiment.py:314-378 | after an infrastructure error the next full run with current dependencies and a succeeding handler executes and passes the unit |
| RunRestart.BlockedIsFinal | src/faultwitness_dev/experiment.py:332-378 | after a blocked error the record stands over every number of runs while its key is in force |
| RunRestart.BlockedRaises | src/faultwitness_dev/experiment.py:332-347 | and every run that reaches it under that key raises |
| RunRestart.UnkeyedIsSkippedIff | src/faultwitness_dev/experiment.py:318-328 | a unit without a key is skipped exactly if a dependency holds no pass; otherwise the run raises |
| RunRestart.NoHandlerRaises | src/faultwitness_dev/experiment.py:340-347 | a unit to be executed without a handler makes the run raise and writes nothing for it |
| RunRestart.RecordsAreHeld | src/faultwitness_dev/experiment.py:298-385 | the records a run returns are the stored ones of its executed and reused units, in registry order |
| RunRestart.ListsFollowTheRegistry | src/faultwitness_dev/experiment.py:298-385 | executed, reused and skipped units are each listed in registry order |
| Incremental.EveryHistoryIsSound | src/faultwitness_dev/experiment.py:270-385 | after any history of runs by deterministic handlers each pass holds the artifact of its unit and key |
| Incremental.PassedIsIdeal | src/faultwitness_dev/experiment.py:270-385 | on any sound journal, a unit reported as passed has the key and digest determined by registry and values alone |
| Incremental.IncrementalEqualsScratch | src/faultwitness_dev/experiment.py:270-385 | a unit an incremental run passes has the cache key and artifact digest of a run from the empty journal |
| Incremental.ScratchRunPasses | src/faultwitness_dev/experiment.py:298-385 | with succeeding handlers and supplied checkpoints, the run from the empty journal executes and passes every unit |
| Affected.AffectedUnits | src/faultwitness_dev/experiment.py:43-63 | the loop ends with the least set that holds the direct consumers and is closed under downstream dependency |
| Affected.KeyMoves | src/faultwitness_dev/experiment.py:24-40 | a unit's cache key moves exactly when it is affected |
| Affected.ExactInvalidation | src/faultwitness_dev/experiment.py:43-63 | after an all-pass run, really changing checkpoint values re-executes exactly the affected units and reuses all others unchanged |
| StreamScan.PersistentVolumeHits | deploy/g02/gate_probe.py:1017-1028 | the chunked loop over files and any tokens, with one overlap window per token, computes for each different token its stream over the chunks, each taken as often as the token is listed |
| StreamScan.FileDetectsIff | deploy/g02/gate_probe.py:1017-1028 | for any list of tokens, repeated and empty ones included, a file has hits exactly when some token stands in what it was held against |
| StreamScan.RepeatedTokenIsFoundAtTheSeam | deploy/g02/gate_probe.py:1024-1027 | any borderless token listed twice is found in a file that does not hold it |
| StreamScan.StreamDetectsExactly | deploy/g02/gate_probe.py:1020-1027 | for every token and every cutting into chunks, there are hits exactly when the token occurs in the content; an empty one in any file but an empty one |
| StreamScan.CountIsPositions | deploy/g02/gate_probe.py:942-944 | non-overlapping counting finds every position of a borderless token |
| StreamScan.WindowsCoverOnce | deploy/g02/gate_probe.py:1024-1027 | no position is lost or counted twice at a chunk boundary |
| StreamScan.CountSurvivesCuts | deploy/g02/gate_probe.py:1020-1027 | under every cut the streamed count of a borderless token of at least two bytes is that of the whole content |
| StreamScan.CountSurvivesReadsIff | deploy/g02/gate_probe.py:1020-1027 | for each size of reads, the streamed count is right for every file exactly for such tokens |
| StreamScan.BorderBreaksCount | deploy/g02/gate_probe.py:1020-1027 | for each size of reads, any border gives a file whose overlapping copy is counted as well |
| StreamScan.SingleByteCountsTwice | deploy/g02/gate_probe.py:1020-1027 | for each size of reads, a one-byte token at the end of a full chunk is counted again in the next window |
| StreamScan.CanaryScanIsWhole | deploy/g02/gate_probe.py:155-161 | for both canaries of any seed the streamed scan of a file equals the scan of its whole content |
| Encoding.Crockford | deploy/g02/gate_probe.py:775-782 | the digits printed denote the big-endian number modulo 32^26 |
| Encoding.DigitMeans | deploy/g02/gate_probe.py:775-782 | the digits are 0 to 9 and then the capitals without I, L, O and U, in order |
| Encoding.PrintingIsFaithful | deploy/g02/gate_probe.py:775-782 | every text of digits is what its own number prints as |
| Encoding.RoundTripIff | deploy/g02/gate_probe.py:775-782 | a number is read back exactly when it is below the range of the digits |
| Encoding.PrintsAlikeIff | deploy/g02/gate_probe.py:779-781 | two numbers print alike exactly when they agree modulo the range |
| Encoding.SeventeenBytesCollide | deploy/g02/gate_probe.py:800-800 | a non-zero seed of 17 bytes prints like zero |
| Encoding.LiteralReadsBack | deploy/g02/gate_probe.py:419-420 | SQL reads any quoted value back as that value and leaves the rest of the statement |
| StateMachine.Walk | src/faultwitness_dev/contracts.py:178-187 | the worklist loop ends with exactly the states some path reaches |
| StateMachine.BuildGraphs | src/faultwitness_dev/contracts.py:136-162 | the transition loop refuses exactly the unacceptable transitions and builds both adjacency tables |
| StateMachine.ValidateStateMachine | src/faultwitness_dev/contracts.py:111-175 | a machine is accepted exactly when its transitions are, every state is reachable and every state reaches a terminal |
| StateMachine.ReachableIsRun | src/faultwitness_dev/contracts.py:141-169 | graph reachability is the existence of a run |
| StateMachine.EveryRunTerminates | src/faultwitness_dev/contracts.py:164-175 | in an accepted machine every finite run goes on to a terminal state |
| StateMachine.TerminalsAbsorb | src/faultwitness_dev/contracts.py:143-155 | a run visits a terminal state only at its end |
| StateMachine.AcceptedRunsAreRegistered | src/faultwitness_dev/contracts.py:111-162 | in an accepted machine every step of every run has known states, actor, command and event, an identifier names one step, and a run that ended took a step |
| StateMachine.StatesAreVisited | src/faultwitness_dev/contracts.py:120-169 | no state is listed twice and some run visits each |
| StateMachine.ActionRunsAreGuarded | src/faultwitness_dev/contracts.py:215-245 | in every action run EXECUTING is entered only from APPROVED with each of the seven preconditions, and UNCERTAIN can be left and is left only by non-automatic reconciliation |
| StateMachine.UncertainIsReapproved | src/faultwitness_dev/contracts.py:215-245 | between UNCERTAIN and the next EXECUTING lies a new approval |
| StateMachine.RuntimeCommitIsSingle | src/faultwitness_dev/contracts.py:246-260 | every entry to SUCCEEDED in any run is the only one, from RUNNING, with fencing token, attempt and checkpoint |
| StateMachine.CommitEndsTheRun | src/faultwitness_dev/contracts.py:246-260 | where SUCCEEDED is terminal a run commits at most once, at its end |
| StateMachine.CheckBindsRunsIff | src/faultwitness_dev/contracts.py:190-213 | a check of the first transition between two states binds every run of an accepted machine exactly when all later transitions between them comply |
| StateMachine.ApprovalBindsRunsIff | src/faultwitness_dev/contracts.py:190-213 | so for the approval steps of the incident and of the agent graph, with their preconditions by name, and some run takes each step |
| StateMachine.SecondStepIsUnchecked | src/faultwitness_dev/contracts.py:190-213 | every accepted machine that passes the check is also accepted, and passes it, with an unguarded second transition that some run takes |
| FlagProtocol.MutationIsExact | src/faultwitness_dev/g02_lab.py:2475-2487 | a mutation succeeds exactly when the variant is offered and new, and changes one flag's default variant only |
| FlagProtocol.System.RunScenario | src/faultwitness_dev/g02_lab.py:2490-2554 | under every pattern of failing calls the outcome, the document and all events of a trial are those of the run function, whose meaning the rows below give |
| FlagProtocol.ScenarioCompletesIff | src/faultwitness_dev/g02_lab.py:2490-2554 | a trial completes exactly when client and observer carry out start, verified injection, active fault, verified restoration, healthy recovery and the last read, and reports what they observed |
| FlagProtocol.QuarantinedIff | src/faultwitness_dev/g02_lab.py:2524-2543 | it is quarantined exactly when an injection was attempted and the restoration after it does not hold, whatever became of the injection |
| FlagProtocol.RecoveryMeans | src/faultwitness_dev/g02_lab.py:2463-2473 | the recovery oracle answers healthy exactly for two observations with readiness, journeys and signals all true |
| FlagProtocol.CompletedIsRecovered | src/faultwitness_dev/g02_lab.py:2524-2554 | a completed trial reports two recovery observations with all six fields true |
| FlagProtocol.UnrecoveredIsQuarantined | src/faultwitness_dev/g02_lab.py:2524-2543 | after a verified restoration one field missing or false in either observation quarantines the trial |
| FlagProtocol.ErrorsComeFromCalls | src/faultwitness_dev/g02_lab.py:2490-2554 | what a trial fails or is quarantined with is a governance error or was raised by one of its own calls |
| FlagProtocol.InjectionErrorIsRaised | src/faultwitness_dev/g02_lab.py:2506-2543 | an error of the injecting write, with a good restoration after it, is what the trial fails with |
| FlagProtocol.ScenarioIsSafe | src/faultwitness_dev/g02_lab.py:2490-2554 | without a quarantine the document is the original, no document but it and its one-flag mutation is ever offered, and an unproven precondition writes nothing |
| FlagProtocol.CompletedScenarioEvents | src/faultwitness_dev/g02_lab.py:2490-2554 | a completed trial is a proven precondition, then verified write and two observations for the fault, then for the recovery, in this order |
| FlagProtocol.System.RunReadinessScenarioV3 | src/faultwitness_dev/g03_readiness.py:1420-1519 | outcome, diagnostics, document and all events of a v3 trial are those of its run function |
| FlagProtocol.ReadinessCompletesIff | src/faultwitness_dev/g03_readiness.py:1420-1519 | a v3 trial completes exactly when client, observer and packet builder carry out every part, the healthy windows included |
| FlagProtocol.ReadinessIsSafe | src/faultwitness_dev/g03_readiness.py:1420-1519 | the document is the original unless the diagnostics name a cleanup error, and nothing is written before the healthy windows are complete |
| FlagProtocol.CompletedReadinessEvents | src/faultwitness_dev/g03_readiness.py:1420-1519 | a completed v3 trial has its healthy windows first and then the events of a good trial |
| FlagProtocol.FiveWindowsPrecede | src/faultwitness_dev/g03_readiness.py:1420-1519 | a read, a healthy observation and five windows, all on the original, precede the first write of a completed v3 trial |
| FlagProtocol.CompletedReadinessIsRecovered | src/faultwitness_dev/g03_readiness.py:1420-1519 | a completed v3 trial reports two recovery observations with all six fields true |
| FlagProtocol.UnrecoveredIsDiagnosed | src/faultwitness_dev/g03_readiness.py:1467-1498 | after a verified restoration one field missing or false makes a v3 trial name a cleanup error |
| FlagProtocol.DiagnosticsTellBoth | src/faultwitness_dev/g03_readiness.py:1467-1498 | diagnostics are attached exactly when an injection was attempted and a half raised, hold the errors of both, and the raised error hides the cleanup error exactly behind another, infrastructure failure |
| FlagProtocol.CleanupIsHidden | src/faultwitness_dev/g03_readiness.py:1482-1498 | on any document that can be mutated, two failing writes raise the first error alone |
| ScenarioMatrix.RunGateScenarioMatrix | src/faultwitness_dev/g02_lab.py:2557-2685 | outcome, journal and system after a matrix run are those of the run function over seeds and trials |
| ScenarioMatrix.TracedIsRun | src/faultwitness_dev/g02_lab.py:2557-2685 | that run is the step function under attempts whose passes prove recovery; without injections it makes no client call, and getting through all seeds it leaves the flag document as it was |
| MatrixTheorems.RunOfTheMatrix | src/faultwitness_dev/g02_lab.py:2557-2685 | from any journal, seeds with a verdict under their key are neither injected nor written; each injection after the first seed's starts from the preceding seed's two recovery observations, all six fields true; a full run proves all seeds so, in order |
| MatrixTheorems.PassInjectsIff | src/faultwitness_dev/g02_lab.py:2587-2670 | in a run that passes, a seed is injected exactly if the journal held no verdict of it under its key |
| MatrixTheorems.SettledForever | src/faultwitness_dev/g02_lab.py:2587-2612 | a settled seed keeps its record over any number of restarts |
| MatrixTheorems.PassedSeedIsNeverInjectedAgain | src/faultwitness_dev/g02_lab.py:2587-2600 | a seed with a pass under its key is injected by no later run |
| MatrixTheorems.StickyVerdictIsFinal | src/faultwitness_dev/g02_lab.py:2601-2612 | a metric failure or blocked verdict is repeated by every later run for the same seed, without injection or write |
| MatrixRestart.TrialDecides | src/faultwitness_dev/g02_lab.py:2613-2680 | an infrastructure failure ends the matrix so, a governance error or quarantine as a metric failure, another exception aborts it with the seed left running; record, producer and payload are stated for each |
| MatrixRestart.InjectedAgainIff | src/faultwitness_dev/g02_lab.py:2587-2670 | the next run injects the seed again after an infrastructure failure or an escaping exception, and otherwise repeats the metric failure without an injection |
| ScenarioJson.RecoveryReadsBack | src/faultwitness_dev/g02_lab.py:2587-2600 | the recovery evidence read from a recorded pass is the one the pass was recorded with |
| ScenarioJson.JsonConfigIsValid | src/faultwitness_dev/g02_lab.py:2557-2685 | with the JSON documents the code writes, any seeds under distinct trials meet what the matrix theorems require |
| AccessContract.AccessCellContract | src/faultwitness_dev/g02_isolation.py:464-485 | the nested loops yield one cell for each target and probe, under distinct identifiers |
| AccessContract.AdmittedProbes | src/faultwitness_dev/g02_isolation.py:464-485 | which probes a schema, a prefix, the trial prefix and an observability target admit |
| Collectors.Collector.EnsureProvisioned | src/faultwitness_dev/g02_collectors.py:312-359 | provisioning is reused, refused for good, or asked for once and recorded |
| Collectors.Collector.RunAccessMatrix | src/faultwitness_dev/g02_collectors.py:362-440 | the cell loop stops at the first verdict that is no pass, a complete matrix is validated, and journal, calls, cells and status are those of the run function |
| Collectors.Collector.RunCanaryMatrix | src/faultwitness_dev/g02_collectors.py:548-657 | reuse loop, collection and recording loop leave journal, calls and surfaces as the run function says |
| CollectorAnswers.BoundIff | src/faultwitness_dev/g02_collectors.py:187-230 | exactly which records are reused and which are final: status, key, environment, unit name and result |
| CollectorAnswers.NamesDiffer | src/faultwitness_dev/g02_collectors.py:140-160 | no two cells and no two surfaces stand under the same name |
| CollectorAnswers.ClosedNames | src/faultwitness_dev/g02_collectors.py:140-186 | a closed record names producer, environment, unit and result |
| CollectorAnswers.ProvisioningAnswers | src/faultwitness_dev/g02_collectors.py:312-359 | record and outcome of a provisioning request, answer by answer |
| CollectorAnswers.ProvisioningAskedAgainIff | src/faultwitness_dev/g02_collectors.py:312-359 | provisioning is asked for again exactly after an infrastructure failure or an escaping exception |
| CollectorAnswers.CellAnswers | src/faultwitness_dev/g02_collectors.py:362-437 | record and outcome of a cell, answer by answer |
| CollectorAnswers.CellAskedAgainIff | src/faultwitness_dev/g02_collectors.py:362-437 | a cell is asked for again exactly after an infrastructure failure or an escaping exception |
| CollectorAnswers.AccessPassShows | src/faultwitness_dev/g02_isolation.py:488-505 | a passing access matrix shows the expected access with evidence for each contract |
| CollectorAnswers.CollectionAnswers | src/faultwitness_dev/g02_collectors.py:575-657 | record and outcome of a canary collection, answer by answer |
| CollectorAnswers.CollectionPassesIff | src/faultwitness_dev/g02_collectors.py:610-657 | a listed collection passes exactly if it lists every surface once, in order, and none shows a hit |
| CollectorAnswers.CollectionRecords | src/faultwitness_dev/g02_collectors.py:625-657 | every registered surface is recorded as its last listed item says, and as failed if it is not listed |
| CollectorAnswers.CanaryPassShows | src/faultwitness_dev/g02_isolation.py:525-543 | a passing canary matrix names every surface in order with no hit, evidence and digest |
| CollectorAnswers.HitFailsTheMatrix | src/faultwitness_dev/g02_collectors.py:625-657 | one surface with a hit or without evidence fails the matrix |
| CollectorAnswers.UnlistedSurfaceFails | src/faultwitness_dev/g02_collectors.py:625-640 | so does one that is not listed |
| CollectorTrials.RegisteredConfigIsValid | src/faultwitness_dev/g02_collectors.py:187-230 | the registered trial names of any distinct cells and surfaces meet what the theorems below require |
| CollectorTheorems.PrefixIsGood | src/faultwitness_dev/g02_collectors.py:362-437 | a prefix of the access matrix touches no settled unit and ends with its cells, or its verdict, on record |
| CollectorVerdicts.CompleteMatrixIsValid | src/faultwitness_dev/g02_isolation.py:488-505 | a complete matrix read from code-written records is accepted by its validator |
| CollectorVerdicts.OrderedIsValidIff | src/faultwitness_dev/g02_isolation.py:525-543 | the recorded canary document is valid exactly when every item is clean, however the backend listed them |
| CollectorVerdicts.OnlyTheBackendRaises | src/faultwitness_dev/g02_collectors.py:438-440 | after any history of runs in any environments no validator rejects a passing document |
| CollectorVerdicts.SettledUnitsAreNeverExecuted | src/faultwitness_dev/g02_collectors.py:187-230 | under one environment a settled unit keeps its record and is not asked for again, whoever runs either matrix |
| CollectorVerdicts.AccessVerdictIsFinal | src/faultwitness_dev/g02_collectors.py:362-440 | after a pass, metric failure or blocked matrix, every later access run repeats status and cells with no backend call and no write, also for another producer |
| CollectorVerdicts.CanaryVerdictRepeatsIff | src/faultwitness_dev/g02_collectors.py:548-657 | later canary runs never call the backend and repeat the status exactly unless the first run failed on a valid document |
| CollectorVerdicts.DriftedListIsForgotten | src/faultwitness_dev/g02_collectors.py:625-657 | for any registered surfaces, all listed clean and in order before one unregistered item: the first run fails and the next passes |
| CollectorRestart.KilledRecordingResumes | src/faultwitness_dev/g02_collectors.py:548-657 | after a kill between two surface records, the next run returns a recorded failure without a call, and otherwise asks for the whole collection again |
| CollectorRestart.KilledRecordingIsMended | src/faultwitness_dev/g02_collectors.py:548-657 | once the collection is listed again, every surface is recorded anew and the journal decides the matrix as without the kill |
| Intervals.IntervalIsBounded | src/faultwitness_dev/g03_readiness.py:1264-1291 | lower, upper and estimate lie in order between the least and the greatest cluster mean |
| IntervalMeaning.IntervalMeans | src/faultwitness_dev/g03_readiness.py:1264-1291 | the estimate is the mean of the cluster means, and the ends stand at the 2.5 and 97.5 per cent places of the means of what each resample draws |
| IntervalMeaning.ClustersMean | src/faultwitness_dev/g03_readiness.py:1264-1281 | each cluster is one case, in order, and its mean is the mean of the metric over the rows of the case |
| Clusters.PercentileClusterBootstrapV3 | src/faultwitness_dev/g03_readiness.py:1264-1291 | grouping, resampling and sorting compute the interval over the ordered cluster means, or fail exactly on a missing metric or nothing to resample |
| Clusters.BootstrapIgnoresRowOrder | src/faultwitness_dev/g03_readiness.py:1264-1291 | any permutation of the rows gives the same clusters and the same error |
| Clusters.PercentileClusterBootstrap | src/faultwitness_dev/g02_baselines.py:1043-1067 | the earlier form computes the interval over the cluster means in the order in which cases are first seen, or fails exactly on a missing metric or nothing to resample |
| IntervalMeaning.FirstSeenIsFirst | src/faultwitness_dev/g02_baselines.py:1043-1052 | the earlier form lists each case that has a row, and one before another if a row of it comes before all of the other's |
| Clusters.EarlierFormIgnoresOrderIff | src/faultwitness_dev/g02_baselines.py:1043-1067 | for any number of resamples, permuted rows give the earlier form the same interval under all draws exactly when the first-seen cases have the same means place by place |
| Clusters.EarlierFormDependsOnOrder | src/faultwitness_dev/g02_baselines.py:1043-1067 | two cases with different means in the other order are told apart for every number of resamples |
| Paired.PairedClusterBootstrapV3 | src/faultwitness_dev/g03_readiness.py:1294-1334 | indexing, alignment and resampling compute the paired interval or its error |
| IntervalMeaning.PairedClustersMean | src/faultwitness_dev/g03_readiness.py:1311-1320 | each paired cluster is one case and its mean is the left arm's mean score minus the right arm's |
| IntervalMeaning.ComparesIff | src/faultwitness_dev/g03_readiness.py:1301-1320 | two arms are compared exactly if neither repeats a trial, both have the same trials and they are on the required number of cases |
| Paired.SwappedArmsMirror | src/faultwitness_dev/g03_readiness.py:1294-1334 | swapping the arms fails together and otherwise mirrors the interval with one cluster, with 40 dividing the resamples or with fewer than 40 |
| Paired.ArmsMirrorIff | src/faultwitness_dev/g03_readiness.py:1294-1334 | for each number of clusters and resamples, all pairs of arms mirror exactly under these conditions |
| Paired.ArmsFailToMirror | src/faultwitness_dev/g03_readiness.py:1294-1334 | under none of them, two lists of trial rows over any number of clusters from two on break the symmetry |
| Paired.AcceptedKeysAreDistinct | src/faultwitness_dev/g03_readiness.py:2433-2474 | an accepted live matrix lists each expected key exactly once |
| IntervalMeaning.AcceptedIff | src/faultwitness_dev/g03_readiness.py:2433-2474 | a live matrix is accepted exactly with three or five repetitions, every arm, case and repetition tried once and nothing else, each resolved without a fallback; the counts follow |
| Paired.LiveArmsAlwaysAlign | src/faultwitness_dev/g03_readiness.py:2433-2474 | between two arms of an accepted matrix the paired bootstrap never fails |
| Thresholds.NearestRankIsPercentile | src/faultwitness_dev/g03_readiness.py:901-905 | the nearest rank is one of the values, with at least the share at or below it and less than the share below |
| Thresholds.BuildDeterministicThresholds | src/faultwitness_dev/g03_readiness.py:908-994 | the loops over cases, labels and features refuse exactly a wrong number of other cases and freeze the threshold of each case, label and feature whose meaning the next row gives |
| ThresholdMeaning.ThresholdMeans | src/faultwitness_dev/g03_readiness.py:892-960 | each threshold is the quantum plus p, where p is nothing or a rise between two healthy windows of another case, 99 of 100 steps of the other cases rise by at most p and fewer lie below it; a relative floor at the middle healthy reading can only raise it |
| Thresholds.HeldOutCaseDoesNotInterfere | src/faultwitness_dev/g03_readiness.py:908-960 | a case's threshold ignores its own packet, but for the healthy median of a label with a relative floor |
| Thresholds.FrozenThresholdsAgree | src/faultwitness_dev/g03_separability.py:93-162 | the separability probe's thresholds are the registry's root-signal thresholds for every case and label |
| Scoring.QualifiesIffWeakest | src/faultwitness_dev/g03_readiness.py:997-1050 | a label qualifies exactly when its weakest standardized excess is not negative |
| ScoringMeaning.QualifiesMeans | src/faultwitness_dev/g03_readiness.py:997-1035 | a label qualifies exactly if for both its features one of the two fault readings stands the cutoff above the middle of the five healthy ones |
| ScoringMeaning.WeakestMeans | src/faultwitness_dev/g03_readiness.py:997-1050 | a label is ranked by the smaller one of its two standardized excesses |
| Scoring.RankingIsExact | src/faultwitness_dev/g03_readiness.py:997-1050 | the ranking holds exactly the qualifying labels with their scores, strictly ordered |
| Scoring.TruthIsValid | src/faultwitness_dev/g03_readiness.py:692-708 | the ground truth built for a label passes the scorer's own check |
| Scoring.ScorersAgree | src/faultwitness_dev/g03_readiness.py:1119-1201 | core success is exactly the exact diagnosis in v2 and v3, and no failure is named exactly on core success |
| ScoringMeaning.FailureV3Iff | src/faultwitness_dev/g03_readiness.py:1119-1201 | which failure v3 names, as an if-and-only-if in the evidence for each |
| ScoringMeaning.Top3Iff | src/faultwitness_dev/g03_readiness.py:1119-1201 | v3 grants the top-3 mark exactly to a scorable result that names the root first or among its first three candidates |
| ScoringMeaning.FailureV2Iff | src/faultwitness_dev/g02_baselines.py:945-1025 | the failures and marks of v2 likewise, evidence and claim apart |
| ScoringMeaning.TruthRefusedIff | src/faultwitness_dev/g03_readiness.py:1119-1150 | exactly which ground truths the scorers refuse |
| Scoring.BaselineScoresTopRanked | src/faultwitness_dev/g03_readiness.py:1053-1086 | the deterministic baseline scores exactly when the truth is its top-ranked candidate |
| ScoringMeaning.BaselineAnswers | src/faultwitness_dev/g03_readiness.py:1053-1086 | the baseline names the qualifying label with none better and cites its required kinds, and otherwise answers unknown and cites everything |
| ScoringMeaning.CandidatesAreRanked | src/faultwitness_dev/g03_readiness.py:1053-1086 | each of its at most three candidates has as many better labels as stand before it |
| ScoringMeaning.BaselineScoresBestIff | src/faultwitness_dev/g03_readiness.py:1053-1201 | it earns the top-3 mark exactly on a truth with fewer than three better qualifying labels, and core success with none |
| Presence.PresenceOnlyProbe | src/faultwitness_dev/g03_readiness.py:790-828 | the tally loops compute both probe scores |
| Presence.ProbeIsOptimal | src/faultwitness_dev/g03_readiness.py:790-828 | no classifier naming at most k causes per signature is right more often, and the majority prior is as often |
| Presence.AcceptedSignature | src/faultwitness_dev/g03_readiness.py:539-684 | an accepted packet has every registered kind in its signature |
| Presence.AcceptedGroups | src/faultwitness_dev/g03_readiness.py:539-684 | a packet's groups are accepted exactly if each registered kind has one, with seven samples |
| Presence.SignatureShows | src/faultwitness_dev/g03_readiness.py:790-800 | a signature shows the kinds of the groups that hold any sample |
| Presence.TopOneIsLargestPrior | src/faultwitness_dev/g03_readiness.py:539-828 | over any list of accepted packets top-1 is the largest count of any cause |
| TokenBudget.Invoke | src/faultwitness_dev/g03_readiness.py:2008-2193 | the turn loop ends at the first allowed repetition, with all turns used, or at the first turn without a draft within budget, with its failure, the drafts before it and all that was consumed |
| TokenBudget.EndingIsDetermined | src/faultwitness_dev/g03_readiness.py:2008-2193 | that description admits exactly one ending for any replies |
| TokenBudget.FinishesIff | src/faultwitness_dev/g03_readiness.py:2008-2193 | a trial finishes exactly if all turns up to a repetition or the last one bring drafts within budget |
| TokenBudget.StopsAtFirstRepetition | src/faultwitness_dev/g03_readiness.py:2154-2162 | it stops at the first draft that repeats the one before it, not before the least number of turns, or after all turns |
| TokenBudget.FailureMeans | src/faultwitness_dev/g03_readiness.py:2045-2152 | which answer gets which failure: unreadable ones are malformed, then a reached budget comes before truncation and shape |
| TokenBudget.InterruptionMeans | src/faultwitness_dev/g03_readiness.py:2036-2054 | a rejected request is a configuration error, an absent service an infrastructure one |
| TokenBudget.RequestBoundMeans | src/faultwitness_dev/g03_readiness.py:1779-1806 | the bound of a request is the size of its messages, each framed, plus the template |
| TokenBudget.PreflightMeans | src/faultwitness_dev/g03_readiness.py:1779-1816 | the preflight passes exactly if the four requests together stay within the limit, as one inequality in the prompt sizes |
| TokenBudget.GuardedTrialIff | src/faultwitness_dev/g03_readiness.py:1779-1816 | a guarded trial of at most four turns fails its budget exactly when it reaches turn four with four full completions |
| TokenBudget.PreflightProtectsTheBudget | src/faultwitness_dev/g03_readiness.py:1779-1816 | within the bounds the input budget is never reached and the output budget only on turn four with four full completions |
| Descriptions.KeywordTable | src/faultwitness_dev/g03_leakage_probe.py:130-158 | the counting loops keep, for each family, exactly the tokens shown by it and by no other, with their case counts |
| Descriptions.ClassifyDescriptionsLoo | src/faultwitness_dev/g03_leakage_probe.py:174-239 | each fold names the family with most discriminative tokens, and the most frequent family among the nearest neighbours, ties lexical |
| Descriptions.JaccardMeans | src/faultwitness_dev/g03_leakage_probe.py:161-171 | the overlap score is the share of common tokens, one exactly for the same tokens and nothing exactly for none in common |
| Descriptions.OwnLabelDoesNotInterfere | src/faultwitness_dev/g03_leakage_probe.py:174-239 | neither prediction for a case depends on the case's own label |
| Descriptions.AbstainsIff | src/faultwitness_dev/g03_leakage_probe.py:197-213 | the token vote abstains exactly when no held-out token is discriminative, and the neighbour vote never does |
| Separability.OffsetTable | src/faultwitness_dev/g03_separability.py:165-223 | every cell holds its excess and both cutoffs, measured against the case's own frozen threshold |
| Separability.CellMeans | src/faultwitness_dev/g03_separability.py:165-223 | a cell in the readings: both cutoffs from the healthy rises, the quantum and the floor, and qualification as one of two fault readings standing out |
| Separability.ScoreMeans | src/faultwitness_dev/g03_separability.py:226-250 | a standardized excess tells qualification by its sign and is the margin in units of the larger of cutoff and quantum |
| Separability.P99IsTheStricterRule | src/faultwitness_dev/g03_separability.py:187-216 | the p99 cutoff is never below the bare-quantum one, relative floors included |
| Separability.ClassifyFromOffsets | src/faultwitness_dev/g03_separability.py:226-250 | the answer is the qualifying signal with the largest standardized excess, ties lexical, and none exactly when none qualifies |
| Separability.PredictionIsUnique | src/faultwitness_dev/g03_separability.py:226-250 | that order leaves exactly one answer |
| Separability.UnrestrictedAgainstAblation | src/faultwitness_dev/g03_separability.py:359-380 | D1 abstains exactly when every single-signal run does, and its answer fires in its own run |
| Separability.FalseQualificationTable | src/faultwitness_dev/g03_separability.py:253-307 | the counters are the own and foreign qualifications of each signal under both rules |
| Separability.MeasuredTableOnlyLoses | src/faultwitness_dev/g03_separability.py:165-307 | on every table the probe measures, the p99 rule only removes qualifications, false and true ones |
| Separability.Orthogonality | src/faultwitness_dev/g03_separability.py:310-356 | the matrix counts co-occurrences, the distribution counts sizes, and the mean is the matrix diagonal over the cases |
| Separability.CoOccurrenceIsSymmetric | src/faultwitness_dev/g03_separability.py:336-338 | the matrix is symmetric and no row exceeds its diagonal |
| Separability.DiagonalIsOwnPlusForeign | src/faultwitness_dev/g03_separability.py:253-356 | the diagonal is true plus false qualifications |
| Separability.DoubleCounting | src/faultwitness_dev/g03_separability.py:310-356 | the diagonal sum equals the size-weighted distribution for any number of cases |
| Separability.Ablation | src/faultwitness_dev/g03_separability.py:359-414 | each single-signal run recovers exactly the true qualifications and fires on exactly the false ones |
| TrustLifecycle.PrivateFiles.MigrateHandoff | src/faultwitness_dev/bootstrap.py:414-455 | a migration happens on empty stores only and, if its round trip or its last write fails, leaves the store without metadata |
| TrustLifecycle.PrivateFiles.RotateServerEndpoint | src/faultwitness_dev/bootstrap.py:458-531 | a rotation replaces the server values, drops the pin, then the candidate, then all host evidence, and appends to the log; it can stop after each write |
| TrustLifecycle.PrivateFiles.AcceptHostKeyCandidate | src/faultwitness_dev/bootstrap.py:657-671 | the pin is written exactly when the operator's fingerprint matches the candidate, and recorded if there is metadata to record it in |
| TrustLifecycle.PrivateFiles.InstallAndVerifySshKey | src/faultwitness_dev/bootstrap.py:721-824 | the SSH key counts as verified only after a pin for the stored endpoint, password login, installation and key login |
| TrustLifecycle.PrivateFiles.RunCapabilityProbe | src/faultwitness_dev/bootstrap.py:827-904 | a match is recorded exactly when both samples agree on a verified host |
| TrustLifecycle.PrivateFiles.FinalizeHandoff | src/faultwitness_dev/bootstrap.py:907-928 | state and answer of a finalization, torn ones included, are those of the step function; the rows of TrustHistory give when it succeeds |
| TrustLifecycle.EverySequenceIsSound | src/faultwitness_dev/bootstrap.py:414-928 | over every operation sequence, whichever writes fail: evidence implies what it rests on, password status follows the SSH key, the API keys are the migrated ones, a recorded deletion happened |
| TrustLifecycle.KeysSettledStep | src/faultwitness_dev/bootstrap.py:458-531 | one operation unsettles the key files exactly if it is a rotation torn where a key of the old endpoint is left, or a verified host key without its file |
| TrustLifecycle.MendedKeysAreSettled | src/faultwitness_dev/bootstrap.py:458-531 | when a rotation finished after every torn one, the key files belong to the stored endpoint and a verified host key is on file |
| TrustLifecycle.MendedEvidenceIsForServer | src/faultwitness_dev/bootstrap.py:458-824 | and SSH evidence is for the stored server |
| TrustLifecycle.CandidateIsForServerIff | src/faultwitness_dev/bootstrap.py:500-655 | a candidate is of the stored endpoint exactly if the last rotation since its scan that changed the store kept that endpoint |
| TrustLifecycle.PinIsForServerIff | src/faultwitness_dev/bootstrap.py:500-671 | likewise a pinned key, from the scan it was confirmed from |
| TrustLifecycle.LogIsLinkedIff | src/faultwitness_dev/bootstrap.py:511-523 | the rotation log is an unbroken chain from the migrated endpoint exactly if no rotation finished while the store was off its log |
| TrustLifecycle.UntornLogIsComplete | src/faultwitness_dev/bootstrap.py:458-531 | without a torn move the chain leads to the stored endpoint |
| TrustLifecycle.TornRotationKeepsOldEvidence | src/faultwitness_dev/bootstrap.py:458-531 | a rotation torn after its first write leaves the new endpoint under all the old evidence, out of reach of SSH, and its repetition leaves the move unlogged |
| TrustLifecycle.EveryRotationIsLogged | src/faultwitness_dev/bootstrap.py:511-523 | the log has one entry for each rotation that succeeded |
| TrustLifecycle.HostKeyWasConfirmed | src/faultwitness_dev/bootstrap.py:630-671 | a verified host key was confirmed by the operator since the last finished rotation, and what is pinned is what the last operation since then that touched the pin left |
| TrustLifecycle.PinWasConfirmed | src/faultwitness_dev/bootstrap.py:657-671 | a pinned key was confirmed by the operator, as the last one, whichever writes failed |
| TrustLifecycle.SshKeyWasInstalled | src/faultwitness_dev/bootstrap.py:721-824 | a verified SSH key was installed, last of all installations, after a host key was confirmed, with no rotation finished since that confirmation |
| TrustLifecycle.CapabilityWasProbed | src/faultwitness_dev/bootstrap.py:827-904 | a capability match was probed, last of all matching probes, after such an installation |
| TrustLifecycle.SshEvidenceIsForServerIff | src/faultwitness_dev/bootstrap.py:500-824 | over every sequence, torn rotations included, SSH and password evidence is for the stored server and the pinned key exactly if the last store-writing rotation since the last installation wrote the same server and the last pin-touching operation since confirmed the same key |
| TrustLifecycle.CapabilityIsForServerIff | src/faultwitness_dev/bootstrap.py:500-904 | the same for a capability match and the last matching probe |
| TrustLifecycle.EvidenceOutlivesItsKey | src/faultwitness_dev/bootstrap.py:657-904 | a host installed and probed under one key keeps its evidence when another key is confirmed |
| TrustLifecycle.EvidenceMovesToAnotherHost | src/faultwitness_dev/bootstrap.py:500-904 | a torn rotation and a confirmed new key leave settled key files, a reachable new host, and all evidence of the old one |
| TrustLifecycle.UntriedPasswordCountsAsVerified | src/faultwitness_dev/bootstrap.py:500-928 | a torn rotation to another password leaves it verified without a login, and the handoff can be finalized on it |
| TrustLifecycle.LiveIff | src/faultwitness_dev/bootstrap.py:556-600 | an API key is live exactly if it was recorded as live and no acceptance succeeded since; no other operation matters |
| TrustLifecycle.AcceptingAgainLosesLive | src/faultwitness_dev/bootstrap.py:556-600 | a recorded key loses its live evidence to a renewed acceptance |
| TrustLifecycle.DeletionIsRecordedIff | src/faultwitness_dev/bootstrap.py:907-928 | over every sequence a deletion is on record exactly if no finalization stopped before its metadata write |
| TrustHistory.RemovesIff | src/faultwitness_dev/bootstrap.py:907-928 | a call removes the handoff exactly if it is a finalization whose first write goes through, with tools, after an acceptance, and with an SSH key installed and no rotation finished since |
| TrustHistory.HandoffWasEarned | src/faultwitness_dev/bootstrap.py:907-928 | where the handoff was there and is gone, credentials were accepted before the call that removed it, and a key was installed with no rotation between |
| TrustLifecycle.TornFinalizationIsNotRecorded | src/faultwitness_dev/bootstrap.py:907-928 | a finalization that stops after unlinking the handoff is not on record |
| TrustLifecycle.MigrationHappensOnce | src/faultwitness_dev/bootstrap.py:414-425 | a second migration changes nothing |
| TrustHistory.MigratedIff | src/faultwitness_dev/bootstrap.py:414-455 | there is metadata exactly after a migration that succeeded |
| TrustHistory.FirstMigrationIff | src/faultwitness_dev/bootstrap.py:290-455 | exactly which first migrations succeed, field by field of the bundle |
| TrustHistory.StoredIsInShape | src/faultwitness_dev/bootstrap.py:290-311 | every stored bundle meets the shape rules |
| TrustHistory.AcceptedIff | src/faultwitness_dev/bootstrap.py:556-584 | credentials count as accepted exactly after an acceptance that succeeded |
| TrustHistory.ConfirmedIff | src/faultwitness_dev/bootstrap.py:657-671 | a host key counts as verified exactly if one was confirmed with no rotation finished since |
| TrustHistory.InstalledIff | src/faultwitness_dev/bootstrap.py:721-824 | an SSH key exactly if one was installed with no rotation finished since |
| TrustHistory.ProbedIff | src/faultwitness_dev/bootstrap.py:827-904 | a capability match exactly if one was probed with no rotation finished since |
| TrustHistory.RotateSucceedsIff | src/faultwitness_dev/bootstrap.py:458-531 | when a rotation succeeds, by the calls before it, the answers and its writes |
| TrustHistory.RotationIsLoggedLast | src/faultwitness_dev/bootstrap.py:511-523 | what a finished rotation logs |
| TrustHistory.AcceptSucceedsIff | src/faultwitness_dev/bootstrap.py:556-600 | when an acceptance and a live record succeed |
| TrustHistory.CaptureSucceedsIff | src/faultwitness_dev/bootstrap.py:630-655 | when a scan succeeds |
| TrustHistory.ConfirmSucceedsIff | src/faultwitness_dev/bootstrap.py:657-671 | when a confirmation succeeds |
| TrustHistory.InstallSucceedsIff | src/faultwitness_dev/bootstrap.py:721-824 | when an installation succeeds |
| TrustHistory.ProbeSucceedsIff | src/faultwitness_dev/bootstrap.py:827-904 | when a probe succeeds |

## Left out

- Journal.TrialJournal.BeginTrial: does not check the characters of a trial identifier and does not stamp recorded_at, which need regular expressions and a clock.
- Runner.ExperimentRunner.Run: a process killed between two journal writes is covered as an exception that escapes the handler; a torn file write is not, as the source replaces files atomically.
- Incremental.IncrementalEqualsScratch: assumes handlers deterministic in unit and key when they pass; how often and how they fail is unrestricted.
- FlagProtocol.System.RunScenario: the fault oracle is an arbitrary predicate on the class and observations instead of the table of `fault_state`; packet building is an arbitrary outcome.
- ScenarioMatrix.RunGateScenarioMatrix: seeds come as a list of trial, key and fault class; the catalogue they are read from, the artifact files, the observation packet stored beside a passing result and the wording of the protocol's own refusals are not modelled.
- `run_trace_matrix`: it has the shape of the canary matrix, and its validator also demands one trace identifier, which the code can compute a pass without.
- Thresholds.BuildDeterministicThresholds: window values are given, so extracting them from samples and checking that they are finite is not modelled; nor are the descriptive fields beside each threshold.
- Collectors.Collector.EnsureProvisioned: the digest of a unit is the unit's name.
- TokenBudget.Invoke: HTTP details, retries and pricing of a turn are an arbitrary reply with its token counts.
- Scoring.ScorersAgree: speaks of schema-valid results as typed records; JSON-Schema validation and the wording of limitations are not modelled.
- Encoding.LiteralReadsBack: reads literals as standard SQL does, with backslashes plain.
- TrustLifecycle.PrivateFiles.MigrateHandoff: parsing of the handoff text is reduced to its outcome; encryption is the identity when its tools answer.
- TrustLifecycle.PrivateFiles.InstallAndVerifySshKey: SSH itself is three outcomes and reaches only an endpoint with a pinned line; failure categories, the askpass helper and evidence files are not modelled.
- `parse_endpoint_handoff`, `canonical_capability_report`: text and shape checks that decide nothing about trust.
- `LiveScenarioObserver`: polling deadlines and stimuli are part of the arbitrary observer.
- `build_offline_staging_inventory` and image aliases, `replay_resource_scenarios`, `replay_all_scenarios_v3`: bookkeeping over the same journal protocol.
- `fault_state`, `authorize`, `_package_text_is_forbidden`, registries, OpenAPI and AsyncAPI path sets, wording checks: finite tables settled by reading.
- Float rounding, `float('nan')`, real clocks and the Mersenne Twister.
- Kubernetes, SSH, SOPS, git and HTTP transport.
