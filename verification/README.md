# Verified models of the agent, its archives and its encodings

This project models the parts of the repository that carry protocol, codec or
arithmetic content, and proves what they are for. `dafny verify dfyconfig.toml`
checks everything. Hashes and signatures are function parameters: results are
stated on preimages, or as "equal, or here is the collision".

## What is modelled

**The computation lifecycle** (`agent/service.go`, `agent/statemachine/state.go`).
`Agent.dfy` gives each section under `mu` as a function on the service's fields, and
`Protocol.dfy` puts service, state machine, event loops, scheduled actions and runner
calls into one record that changes in labelled steps. Steps are fine: an RPC's state
check, its locked section, the cancel of StopComputation and the two locked halves of
handleEvent are separate steps. InitComputation and StopComputation call the machine,
which has a lock of its own, several times under `mu`; each of those calls is a step
too, and handlers may run in between. Every send is delivered or dropped.
`AgentService.dfy` has the sections and the machine as objects updated in place, and
`AgentRuntime.dfy` composes them with the goroutines they start into one object whose
methods are proved to take the steps of `Protocol.dfy`.

- `Fence.dfy`: work born in an ended or cancelled lifetime is invisible. Every schedule.
- `Routing.dfy`: the transition table, never cleared, agrees with the manifest in
  force. Every schedule.
- `Accounts.dfy`: datasets are conserved. Every schedule.
- `Progress.dfy`: within a lifetime every commit moves the machine strictly up, so that no
  state is entered twice; and past ReceivingManifest there is a manifest.
- `Runs.dfy`: a lifetime asks the runner at most once.

These three hold for every schedule but for commits of handlers of an ended lifetime:
such a commit must be lifting, knowing or sparing. Each guard looks only at the world
before the commit, and each is exact: a step keeps the invariant if and only if it
meets the guard.

- `Gate.dfy`: the runner gets only what the manifest in force commits to, with no data
  pending. For every schedule whose steps are prompt, and promptness is exact step by
  step: a step keeps the gate's invariant if and only if it is prompt. A step is not
  prompt in two cases only. A late InitComputation section replaces the manifest while
  a run that no longer looks at it is on its way, and what is stored does not fit; or a
  handler of an earlier lifetime moves the machine to such a point.
- `Harm.dfy`: what the guards are worth. From any world of a run that has kept them, a
  step that breaks one leads to a request that the runner should not get, whenever the
  machine can still get to Running.
- `Races.dfy`: the locks of the source allow such steps. Three runs from the first world.
- `Decisions.dfy`: when each section accepts, refuses, fails or signals, on its fields and
  inputs alone.
- `Outcomes.dfy`: where that takes the machine. A machine that offers results has one; a
  response, a failure and a collected result lead where they should; and every
  computation whose program and data are supplied can be carried through to Complete.

**ZIP preflight and byte budgets** (`internal/zip.go`, `internal/resource.go`).
`ZipDirectory.dfy` runs the search and the walk on 64-bit integers against a
reference walk; `ZipArchive.dfy` is the partner on the writing side, with every record
laid out byte by byte, and with the parse of arbitrary data into such records.
`Budget.dfy` has the readers that share one counter.

**Signed requests** (`agent/auth/auth.go`). `ReplayCache.dfy` compares the pruned
nonce map with a log that forgets nothing, and says on the fields of request and
configuration who is accepted; `SignaturePayload.dfy` parses the signed text back.

**Encodings** (`agent/computations.go`, `scripts/verify-action-transcript-v1.py`).
`Framing.dfy`, `Transcript.dfy` and `Timestamp.dfy` each pair an encoder with a
decoder, an order or a clock; `ActionText.dfy` joins the last two.

**Receipts and quoting** (`cmd/asb-human`). `Receipt.dfy` is a state machine of any
number of processes that race and crash on one path; `ShellQuote.dfy` reads quoted
paths as the shells do.

**Scanners and the hash chain** (`schemas/authority_quorum_validator.go`,
`cmd/asb-leastprivilege-proof/strict_json.go`, `cli/ima_measurements.go`):
`StrictJson.dfy`, `ImaChain.dfy`.

## Where the code and a plausible reading differ

- Gate: the locks of the source allow runs in which the runner gets a request it should
  not get (`Races.OvertakenManifest`, `Races.StalledHandler`). `Gate.Prompt` is the
  condition, exact for the invariant (`Gate.PromptIsExact`). Its failure does harm if the
  machine is then heading for Running with the program stored, the lifetime is not
  cancelled and no stop is in progress (`Harm.LapseDoesHarm`). If the machine is then
  waiting for data, or about to, harm depends on whether bytes with the pending hashes
  exist; given them, it follows for uploaded datasets (`Harm.WaitingLapseDoesHarm`).
- Progress: a commit of an ended lifetime can move the machine back. `Progress.Lifting`
  is the condition, exact together with a strict climb (`Progress.LiftingIsExact`); where
  it fails the machine falls or re-enters a state at once or with the next commit of its
  own handler (`Progress.LapseFalls`).
- Runs: such a commit can make one lifetime run twice (`Races.RunsTwice`). `Runs.Sparing` is
  the condition, weaker than lifting and exact for the invariant (`Runs.SparingIsExact`).
  Its failure leads to a second request when it leaves two launches
  (`Harm.LapseRunsTwice`), and when it moves a machine that has run back to
  ReceivingManifest, to ReceivingAlgorithm with a download that brings what the manifest
  commits to, or to ReceivingData with the pending bytes at hand (`Harm.FallRunsTwice`).
  Whether such bytes exist is a matter of the hash function.
- Results: the locks allow a run in which the machine offers results that the lifetime
  does not have (`Outcomes.OfferWithoutResult`). `Outcomes.Backing` is the condition,
  exact for the invariant (`Outcomes.BackingIsExact`).
- Late failures: a scheduled download of the same lifetime that fails once results are
  offered sends an event without a transition. The handler returns, and no consumer moves
  the machine to Complete for the rest of the lifetime (`Outcomes.LateFailureStrands`).
- Replay: a call that passes the checks is accepted exactly when every earlier accepted
  call with its key was issued at least five minutes before it marks
  (`ReplayCache.AcceptedExactly`). The freshness check still admits a request that is
  exactly five minutes old, so at that instant one request passes twice
  (`ReplayCache.BoundaryReplay`).
- Payload: only the instance and computation fields carry a length. The six fields
  come back exactly when role, method and issue time hold no newline
  (`SignaturePayload.PayloadParses`); `SignaturePayload.NewlineIsAmbiguous` builds, from
  any fields, two requests with one text when the role may hold a newline.
- Commitment: a plain binary is committed to by its bare bytes, so a binary that is
  itself a framed bundle shares its preimage with that bundle
  (`Framing.PreimagesMeet`).
- Timestamp: `calendar.timegm` rejects only years and months out of range; other fields
  carry, so that day 31 of a 30-day month is the first of the next one. Two texts share a
  stamp exactly when they denote the same instant after carrying
  (`Timestamp.TextsShareStamp`).
- The two duplicate scanners differ exactly on trees without repeated names that
  are nested more than 32 deep (`StrictJson.ScannersAgree`).

## Model

| member | source | states |
|---|---|---|
| Fence.StaleWorkIsInvisible | agent/service.go:227-250 | deleting from any run every action and response of an ended or cancelled lifetime leaves the same fields, files, notices, machine, events, requests and result |
| Fence.StaleInert | agent/service.go:463-468 | one stale action or response changes nothing but its own bookkeeping |
| Fence.SaneExec | agent/service.go:318-378 | every run keeps: each action is bound to the current lifetime unless StopComputation has yet to install it, no goroutine, loop or request is newer, a result exists exactly when its request is known and of this lifetime |
| Fence.ResultIsOfThisLifetime | agent/service.go:1073-1172 | in every run a stored result came from a Run request issued in the current lifetime, across successful and failed stops |
| Fence.PurgeAlike | agent/service.go:557-562 | step by step, a run and its purged form stay alike on everything but stale goroutines |
| Gate.RunGate | agent/service.go:1127-1144 | in every run of prompt steps each request to the runner carries a bundle with the commitment of the manifest in force, and no declared dataset was pending |
| Gate.PromptIsExact | agent/service.go:256-315 | whatever the step, in a world that meets the gate's invariant: the next world meets it if and only if the step is prompt |
| Routing.TableAgrees | agent/service.go:301-312 | in every run, whatever the schedule, the table that Reset never clears routes a received algorithm where the manifest in force needs it, across computations with and without datasets |
| Runs.RunsOncePerLifetime | agent/statemachine/state.go:127-147 | a lifetime issues at most one Run request, in every run whose commits of ended lifetimes are sparing |
| Runs.SparingIsExact | agent/statemachine/state.go:127-147 | whatever the step, from any world of the invariant: the invariant of one launch per lifetime is kept if and only if the step is sparing |
| Runs.LiftingIsSparing | agent/statemachine/state.go:127-147 | the guard is weaker than the one for climbing |
| Progress.ManifestKnown | agent/service.go:256-315 | a machine past ReceivingManifest has a manifest of its lifetime, in every run whose commits of ended lifetimes past ReceivingManifest find one |
| Progress.KnowingIsExact | agent/service.go:256-315 | whatever the step: that invariant is kept if and only if the guard holds |
| Progress.NoStateEnteredTwice | agent/service.go:194-209 | in every run of lifting steps, under lossy events and added transitions, no lifetime enters a state twice: counted over all commits of the run |
| Progress.CommitsClimb | agent/statemachine/state.go:127-147 | in those runs every commit moves the machine strictly up a fixed rank within its lifetime |
| Progress.LiftingIsExact | agent/statemachine/state.go:127-147 | whatever the step, from any world of the invariant: the invariant is kept and a commit climbs strictly if and only if the step is lifting |
| Progress.LapseFalls | agent/statemachine/state.go:127-147 | a step that is not lifting falls or re-enters a state, at once or with the next commit of the current handler |
| Progress.ExecClimbs | agent/statemachine/state.go:78-88 | a run of lifting steps, from any world of the invariant, opens a later lifetime or does not lower the rank |
| Progress.RankInjective | agent/service.go:194-209 | the rank tells the eight states apart |
| Routing.ManifestSettles | agent/service.go:301-312 | the transitions of any manifest make the table agree with it, whatever was added before |
| Harm.LapseDoesHarm | agent/service.go:1073-1144 | every step that is not prompt, from any world of the gate's invariant, that leaves the machine heading for Running with the program stored, the lifetime uncancelled and no stop in progress, has a continuation of prompt steps that issues a bad request |
| Harm.WaitingLapseDoesHarm | agent/service.go:936-1025 | any step that leaves the machine waiting for data or on its way there, uncancelled and with no stop in progress, with a stored bundle that does not fit the manifest, is not prompt and has a continuation of prompt steps that issues a bad request, given bytes with the pending hashes and no KBS |
| Harm.WaitingRuns | agent/service.go:936-1025 | a machine waiting for data runs what is stored once the data is uploaded, whatever the manifest says |
| Harm.LapseRunsTwice | agent/service.go:1073-1144 | a step that is not sparing and leaves two launches, or one and a handler about to start another, leads to two requests of the lifetime, if the program is stored, the lifetime uncancelled and no stop in progress |
| Harm.FallRunsTwice | agent/service.go:463-548 | a step that is not sparing and moves a machine that has run, with its handler parked, back to ReceivingManifest, or to ReceivingAlgorithm or ReceivingData with what it needs at hand, leads to a second request of the lifetime |
| Harm.HeadingRuns | agent/service.go:1073-1144 | a machine heading for Running runs what is stored by its own steps alone, whatever the manifest says |
| Races.OvertakenManifest | agent/service.go:256-315 | one late InitComputation section between two orderly runs: whatever hash the new manifest declares, the runner gets the bundle of the manifest before it, with the new one's dataset pending |
| Races.StalledHandler | agent/statemachine/state.go:127-147 | one event committed after a stop between two orderly runs: the next computation starts while its dataset is pending |
| Races.RunsTwice | agent/statemachine/state.go:127-147 | one event committed after a stop between two runs without such commits: the machine falls from Running to ReceivingAlgorithm, reaches Running again, and the lifetime issues two requests |
| Decisions.AlgoDecides | agent/service.go:867-934 | on every input: a program is taken exactly when none was received, its metadata name the manifest's type and arguments, the bundle has the manifest's commitment and it is stored; otherwise which error, with nothing changed |
| Decisions.DownloadDecides | agent/service.go:463-548 | the scheduled download on every input: fenced, skipped without a remote source, quiet when interrupted, stored with a matching commitment, and otherwise a recorded failure |
| Decisions.DataDecides | agent/service.go:936-974 | Data is judged by the download for the first remote entry under that entry's name, or by the upload if there is none; without pending entries or without the download it is refused |
| Decisions.ChoiceDecides | agent/service.go:975-1022 | against the first pending entry with the digest: refused for a wrong file name, for any decompress flag but the entry's single word, or when it cannot be stored; otherwise exactly that entry is delivered, and the last one is signalled |
| Decisions.FetchStops | agent/service.go:588-648 | where the download loop stops, what it leaves and why: down to the last remote entry that does not verify, everything below untouched |
| Decisions.DownloadsDecide | agent/service.go:557-656 | the section around that loop, with its report, its failure and its event |
| Decisions.ResponseDecides | agent/service.go:1094-1116 | a current response with results stores them, clears the error and signals RunComplete; one without records the error, keeps the result and signals RunFailed; a late one does nothing |
| Decisions.LaunchDecides | agent/service.go:1073-1144 | the launch hands out the stored bundle, stops without a word when interrupted, and otherwise fails the run; with the reports of each case |
| Decisions.NotifyDecides | agent/service.go:239-249 | the last three states are reported under their own status, in their lifetime only |
| Decisions.ResultDecides | agent/service.go:1027-1050 | only declared consumers are answered, and the first to ask in ConsumingResults consumes |
| Decisions.StopDecides | agent/service.go:318-378 | a stop that fails keeps the lifetime; one that succeeds starts the next as New starts the first, but for reports, lifetime and a file that stayed |
| Decisions.SectionsSignal | agent/service.go:463-1172 | over all sections: RunComplete exactly for a current response with results, RunFailed exactly for the listed failures and with the error recorded, DataReceived exactly when the pending list becomes empty, ResultsConsumed exactly when they become consumed; result and error change with no other event |
| Outcomes.ResultsAreThere | agent/service.go:1073-1172 | in every run whose commits of ended lifetimes are backed, a machine that offers results has one, given by the runner in answer to a request of this lifetime |
| Outcomes.BackingIsExact | agent/statemachine/state.go:127-147 | whatever the step: that invariant is kept if and only if the step is backed |
| Outcomes.StaleOffer | agent/statemachine/state.go:110-147 | a handler that has chosen to offer results and is overtaken by a stop offers them in the next lifetime, which has none |
| Outcomes.OfferWithoutResult | agent/statemachine/state.go:110-147 | such a run exists from the first world, for every hash function |
| Outcomes.Answers | agent/service.go:1094-1116 | from a Running machine at rest: a response with results, delivered and handled, leaves ConsumingResults with that result and no error, one without leaves Failed with the error and the result as it was |
| Outcomes.FailureIsFinal | agent/service.go:463-656 | from ReceivingAlgorithm, ReceivingData or Running: every section that fails, delivered and handled, leaves Failed with the error recorded |
| Outcomes.Collects | agent/service.go:1027-1050 | from ConsumingResults: the first declared consumer to ask takes the machine to Complete |
| Outcomes.CarriedThrough | agent/service.go:256-1172 | from every machine that waits for a manifest, for every manifest for uploads, matching program and data, runner result and declared consumer: a run that makes exactly one request, for that program with nothing pending, and ends in Complete with that result |
| Outcomes.FirstWaits | agent/service.go:171-225 | New with its Start event handled is such a machine |
| Outcomes.NoHandlerNoMove | agent/statemachine/state.go:90-108 | once the handler of a lifetime has returned, the machine stays where it is until the next lifetime, in every run without commits of ended lifetimes |
| Outcomes.LateFailureStrands | agent/statemachine/state.go:90-136 | a failure signalled past the run has no transition: it ends the handler, and from then on no run of the lifetime moves the machine |
| Outcomes.EventLost | agent/statemachine/state.go:78-88 | an event sent while the handler is busy or gone changes no loop |
| Outcomes.HandlerReturns | agent/statemachine/state.go:90-108 | a waiting handler returns on its own exactly when its lifetime has ended or is cancelled |
| Outcomes.ChecksDecide | agent/service.go:256-259 | each RPC passes its state check in its own states only |
| Accounts.DatasetsConserved | agent/service.go:936-1025 | in every run pending plus delivered is what the manifest in force declared, in its order, and delivered bytes have the declared hashes |
| Datasets.FetchBalances | agent/service.go:588-648 | the backward delete-while-iterating loop balances on every exit, errors and interruptions included |
| Datasets.FetchLeavesLocal | agent/service.go:588-648 | a pass that runs to the end leaves exactly the entries without a usable remote source, in order |
| Datasets.FetchFinishes | agent/service.go:588-648 | a pass whose downloads all verify and are stored runs to the end |
| Datasets.DataTakesOne | agent/service.go:951-1022 | Data refuses and changes nothing, or delivers exactly one entry with its declared hash; DataReceived is signalled exactly for the last one |
| Datasets.DataAccounts | agent/service.go:936-1025 | Data keeps the accounts on every exit |
| Datasets.FetchAccounts | agent/service.go:557-656 | the scheduled download keeps the accounts on every exit |
| Sections.PerformAdvances | agent/service.go:463-1172 | no locked section changes lifetime or manifest, unclears the dataset list or loses an accepted bundle; AlgorithmReceived is sent only with a matching bundle stored, DataReceived only with nothing pending; only a current response stores a result |
| Sections.StaleDoesNothing | agent/service.go:1094-1116 | a stale section returns the fields unchanged and sends no event |
| AgentRuntime.Runtime.InitComputation | agent/service.go:256-315 | refused exactly in the wrong state or after a cancel, and then nothing changes; otherwise the manifest is stored, the table agrees with it, and the object has taken the protocol's steps of the call |
| AgentRuntime.Runtime.BeginInit | agent/service.go:260-300 | the locked section alone, however late after its check, is the step of the protocol |
| AgentRuntime.Runtime.BeginStop | agent/service.go:327-362 | the locked beginning of StopComputation is the step of the protocol; an error keeps every field but the notices |
| AgentRuntime.Runtime.StopComputation | agent/service.go:318-378 | an error keeps everything but the cancel and the notices; success opens the next lifetime, resets the machine with all its transitions, binds every action to the new lifetime, and is the protocol's steps of the call |
| AgentRuntime.Runtime.Run | agent/service.go:867-1172 | every RPC section, scheduled action and runner response takes exactly its step of the protocol, with the request it issues and the event it sends |
| AgentRuntime.Runtime.Pick | agent/statemachine/state.go:127-136 | the first locked half of handleEvent is the step of the protocol on the composed object |
| AgentRuntime.Runtime.Commit | agent/statemachine/state.go:137-147 | the second half, with the goroutine it starts bound to the lifetime of the installed action, is the step of the protocol |
| AgentRuntime.Runtime.constructor | agent/service.go:171-225 | New leaves the first world of every run: base transitions, actions, loop and Start event |
| AgentService.Instance.DownloadAlgorithm | agent/service.go:463-548 | new fields and event are those of the section; nothing changes when the lifetime is not the captured one or is cancelled |
| AgentService.Instance.Algo | agent/service.go:867-934 | an error leaves every field as it was; nothing is kept twice; what is kept carries the manifest's commitment |
| AgentService.Instance.FindHash | agent/service.go:980-982 | finds the first pending entry with the digest, or none |
| AgentService.Instance.Data | agent/service.go:936-1025 | fields, event and error are those of the section whose balance and decisions are proved |
| AgentService.Instance.DownloadPending | agent/service.go:588-648 | the in-place loop equals the recursive reference on every exit |
| AgentService.Instance.DownloadDatasets | agent/service.go:557-656 | fenced download; fields and event are those of the section |
| AgentService.Instance.StartRun | agent/service.go:1073-1144 | hands out the stored bundle only in the captured, live lifetime; otherwise nothing changes |
| AgentService.Instance.RunResponse | agent/service.go:1094-1116 | a late response of another or cancelled lifetime changes nothing; a current one with results stores them without error and sends RunComplete, one without keeps the result, records the error and sends RunFailed |
| AgentService.Instance.Result | agent/service.go:1027-1050 | answers exactly the declared consumers, with the stored result and the run error, and signals the consumption |
| AgentService.StateMachine.AddTransitions | agent/statemachine/state.go:55-63 | later transitions override earlier ones for the same state and event |
| AgentService.StateMachine.SetLifecycleActions | agent/service.go:227-250 | the six calls bind every action to the new lifetime |
| Framing.ExecutionBundleHash | agent/computations.go:104-125 | the sequence of hash writes feeds exactly the frame |
| Framing.AlgorithmCommitment | agent/computations.go:91-99 | the case split yields the commitment |
| Framing.FrameDecodes | agent/computations.go:104-125 | the decoder inverts the frame for every argument list |
| Framing.DecodedIsFrame | agent/computations.go:104-125 | only frames decode |
| Framing.PreimagesMeet | agent/computations.go:91-125 | two inputs share a preimage exactly when they agree after type normalisation, or one is a bare binary whose bytes are the frame of the other |
| Framing.CommitmentDecides | agent/computations.go:91-125 | a binary with nothing else is committed to by its bare bytes, anything else by a text that decodes to the bundle with its type filled in |
| Bytes.FirstWeighsMost | agent/computations.go:104-125 | lengths are in network order: the first byte has the greatest weight |
| Framing.CommitmentBinds | agent/computations.go:91-125 | equal commitments give one of those cases or an explicit hash collision |
| ZipDirectory.FindEnd | internal/zip.go:282-288 | returns the greatest index in the last 65557 bytes with the signature and a comment that fits, and -1 exactly when there is none |
| ZipDirectory.ZipDirectoryEnd | internal/zip.go:272-321 | end record, Zip64 locator and Zip64 record are read as the reference does; every read and conversion is in range for every input |
| ZipDirectory.WalkEnd | internal/zip.go:323-355 | the walk of consecutive headers ends inside the data where no whole header starts |
| ZipDirectory.ScanZipDirectory | internal/zip.go:323-355 | accepts exactly the walks with at most `maxEntries` headers in at most 64 MiB that do not end in a cut-off header; a bad format is reported exactly for a cut-off header within the limits |
| ZipDirectory.PreflightZipDirectory | internal/zip.go:242-270 | succeeds exactly when the walks from end-minus-size, and from the declared offset when lower, are bounded; reports a bad format exactly when there is no directory or its headers are cut off |
| ZipArchive.ScanIsExact | internal/zip.go:323-355 | on arbitrary data: the scan accepts exactly when what starts there is a list of at most `maxEntries` headers, each mark, lengths, name, extra field and comment byte by byte, in at most 64 MiB, with no header mark behind them |
| ZipArchive.WalksWritten | internal/zip.go:323-355 | the walk meets exactly the headers that were laid out, with names, extra fields and comments of any length, and stops behind them |
| ZipArchive.CutOffHeader | internal/zip.go:345-347 | a header whose lengths reach past the data is never accepted, and is a bad format exactly when no limit was exceeded before it |
| ZipArchive.FindsLast | internal/zip.go:272-301 | an end record with a comment of up to 65535 bytes is the one that is found, whatever precedes it and whatever else looks like one without fitting; its fields are the directory's unless it defers to a Zip64 record |
| ZipArchive.NothingFound | internal/zip.go:272-291 | data without a fitting end record in its last 65557 bytes is a bad format |
| ZipArchive.FindsZip64 | internal/zip.go:295-320 | the Zip64 lookup on every locator and record: taken exactly when the end record defers and the locator is for one disk, a bad format when the record is out of reach or unmarked, and otherwise the fields of the record |
| ZipArchive.Zip64ReadsBack | internal/zip.go:302-320 | a written Zip64 record is read back, with any gap before the locator |
| ZipArchive.WrittenArchiveAccepted | internal/zip.go:242-270 | an archive whose declared offset leads to more headers than its declared size covers passes if and only if all of them are at most `maxEntries`, in at most 64 MiB, and the declared count fits |
| Budget.BudgetReader.Read | internal/zip.go:391-409 | bytes pass through and are paid for one by one; the limit is reported only with a spent budget and a source that has more |
| Budget.BudgetReader.Copy | internal/resource.go:156-174 | for any chunking the whole source is delivered exactly when it fits, otherwise exactly the budget together with the limit error |
| Budget.ExtractAll | internal/zip.go:206-234 | over any number of files delivered plus remaining is the limit; success exactly when all files fit together and none fails; otherwise where and why it stopped |
| Budget.DeclaredSizesFit | internal/zip.go:199-205 | accepts exactly when the unbounded sum of declared sizes fits; no step overflows |
| Budget.WalkEntries | internal/resource.go:66-99 | accepts exactly when the entry count and the total of the regular files fit, and lists exactly those files' sizes |
| Budget.ReadFileBounded | internal/resource.go:26-45 | returns the whole content exactly when stat size and bytes read fit; a file that grew in between is refused, never cut |
| Budget.BudgetWriter.Write | internal/resource.go:181-188 | buffered plus remaining is constant; a write is taken whole exactly when it fits and not at all otherwise |
| Budget.DigestFiles | internal/resource.go:101-148 | two budgets over one pass: an archive is returned exactly when every file is still regular, fits what is left and reads to its end, their bytes fit together, and all that the ZIP writer emits fits; then it is all that was emitted |
| ReplayCache.Service.MarkNonce | agent/auth/auth.go:237-254 | in whatever order the map is met, expired entries go, and the key is accepted exactly when no live entry has it |
| ReplayCache.ScreenIsExact | agent/auth/auth.go:165-235 | on the fields of request and configuration: a consumer or data provider passes with the first of its own role's keys that verifies the signed text, the algorithm provider with its one key, no other role, with one non-empty value of each metadata key, issued between five minutes ago and one minute ahead; and the reason of every refusal |
| ReplayCache.Service.AuthenticateUser | agent/auth/auth.go:165-219 | verdict and map are those of the reference; an accepted call passes those conditions with the returned index, a bad signature means that it passes with none; a refusal other than a replay leaves the map unchanged |
| ReplayCache.FirstKey | agent/auth/auth.go:190-215 | the first key of the role that verifies the signature, and no earlier one does |
| ReplayCache.CacheRefinesLog | agent/auth/auth.go:237-254 | under a clock that does not go back the pruned map answers every call as a log that is never pruned |
| ReplayCache.AcceptancesApart | agent/auth/auth.go:165-254 | two acceptances of one role, method and nonce: the later marks at or after the first one's issue time plus five minutes |
| ReplayCache.AcceptedExactly | agent/auth/auth.go:165-254 | in every run under such a clock a call is accepted, with that index, exactly when it passes those conditions and every earlier accepted call of its role, method and nonce was issued at least five minutes before it marks |
| ReplayCache.BoundaryReplay | agent/auth/auth.go:230-254 | at the instant of expiry one request passes twice |
| SignaturePayload.PayloadParses | agent/auth/auth.go:221-223 | a parser recovers all six fields exactly when role, method and issue time hold no newline; the other three may be anything |
| SignaturePayload.PayloadInjective | agent/auth/auth.go:221-223 | for such fields one text stands for one request |
| SignaturePayload.NewlineIsAmbiguous | agent/auth/auth.go:221-223 | for all fields, a newline in the role gives two requests with one text |
| SignaturePayload.TakesSized | agent/auth/auth.go:221-223 | a decimal length prefix delimits its field whatever follows |
| SignaturePayload.DecimalParses | agent/auth/auth.go:221-223 | the decimal length reads back |
| SignaturePayload.NonceKeyInjective | agent/auth/auth.go:248 | the key identifies role, method and nonce when role and method hold no NUL |
| Transcript.WriteReads | scripts/verify-action-transcript-v1.py:39-107 | one decoder inverts all four kinds, nested optional fence, lease, resume and checkpoint included |
| Transcript.ReadWrites | scripts/verify-action-transcript-v1.py:39-107 | encoding what was decoded gives back the same bytes |
| Transcript.TranscriptsDiffer | scripts/verify-action-transcript-v1.py:72-107 | different actions, of one kind or of two, never share a transcript |
| Transcript.WritesWhatPacks | scripts/verify-action-transcript-v1.py:13-23 | a transcript exists exactly when every field fits its width |
| Transcript.PackLimits | scripts/verify-action-transcript-v1.py:13-36 | the widths in numbers: 65535 bytes, 32 and 64 bits unsigned, 64 bits signed |
| Transcript.TagsDiffer | scripts/verify-action-transcript-v1.py:72-107 | the four domain tags differ as bytes |
| Transcript.Takes | scripts/verify-action-transcript-v1.py:39-69 | every part, optional ones included, is delimited whatever follows it |
| Timestamp.OrderPreserved | scripts/verify-action-transcript-v1.py:26-36 | on valid instants of any year the (seconds, nanoseconds) pair orders exactly as the calendar does and is equal exactly for one instant |
| Timestamp.SecondsCountTicks | scripts/verify-action-transcript-v1.py:34 | for every valid instant, the seconds are the number of ticks of clock and calendar between 1 January 1970 and it, negative before; ticks are defined on the fields, with the table of months and the rule of 4, 100 and 400 |
| Timestamp.TickCounts | scripts/verify-action-transcript-v1.py:34 | one tick of a valid instant is valid and one second later, across minutes, months, leap days and years |
| Timestamp.PaddingScales | scripts/verify-action-transcript-v1.py:35 | a fraction of n digits stands for its number times ten to the 9 - n nanoseconds |
| Timestamp.SameNanos | scripts/verify-action-transcript-v1.py:35 | padding maps two fractions together exactly when they denote the same number |
| Timestamp.TextsShareStamp | scripts/verify-action-transcript-v1.py:26-36 | over all texts, fields in range or not, in ASCII or other digits: the stamps are equal exactly when the texts denote the same instant, fields carried and trailing zeros dropped |
| Timestamp.StampsMeet | scripts/verify-action-transcript-v1.py:34-36 | two accepted instants, valid or not, share a stamp exactly when they carry into the same instant |
| Timestamp.CarriedStamps | scripts/verify-action-transcript-v1.py:34 | every accepted instant has the stamp of a valid one, the one its fields carry into: day 00, hour 24, December and leap years included |
| Timestamp.ValidStays | scripts/verify-action-transcript-v1.py:34 | a valid instant carries into itself |
| Timestamp.FractionsMeet | scripts/verify-action-transcript-v1.py:35 | fractions pad to the same nanoseconds exactly when they differ in trailing zeros only |
| ActionText.TextTranscriptsMeet | scripts/verify-action-transcript-v1.py:26-107 | two actions given with timestamp texts share a transcript exactly when they are equal once each text is replaced by the instant it denotes |
| ActionText.WritesExactly | scripts/verify-action-transcript-v1.py:13-107 | there is a transcript exactly when every text has a stamp and every other field fits its width; a stamp that exists always packs |
| Timestamp.ReadIsExact | scripts/verify-action-transcript-v1.py:27-33 | an accepted text is, digit values aside, the text of the fields read from it, and two texts are read alike exactly when they differ only in which digits of a value they use |
| Timestamp.PlainMatches | scripts/verify-action-transcript-v1.py:27-33 | writing each digit as the ASCII digit of its value changes neither what the pattern sees as digit or separator nor the values |
| Timestamp.FormatParses | scripts/verify-action-transcript-v1.py:27-33 | fields that fit their widths are read back from their text |
| Timestamp.StampsDiffer | scripts/verify-action-transcript-v1.py:26-36 | stamps of valid instants pack, and their bytes are equal exactly for one instant |
| Timestamp.SecondsFit | scripts/verify-action-transcript-v1.py:36 | every accepted text gives seconds that fit a signed 64-bit integer |
| Timestamp.YearStep | scripts/verify-action-transcript-v1.py:34 | consecutive years are 365 days apart, 366 across a leap year |
| Receipt.ProposalsAreTheReceipt | cmd/asb-human/main.go:430-526 | for any number of processes, schedules, crashes and prior files, every submitted proposal is the one command in the one receipt |
| Receipt.NothingWithoutReceipt | cmd/asb-human/main.go:377-428 | nothing is submitted unless a complete receipt is readable; a partial one is never submitted |
| Receipt.ReceiptIsNeverReplaced | cmd/asb-human/main.go:377-428 | however receipts read: the file is only ever extended by its one author, and a file that was there before is untouched |
| Receipt.SentAsAsked | cmd/asb-human/main.go:450-526 | however receipts read, in every run: no process submits twice, what it submits has the operation ID and the value it was asked for, and so has the receipt that it creates |
| Receipt.LoadDecides | cmd/asb-human/main.go:450-459 | a load submits exactly the readable commands that were asked for, and builds a new one exactly when there is no file yet |
| Receipt.LoneProcessSubmits | cmd/asb-human/main.go:430-526 | an undisturbed process writes and submits the command it was asked for, and a later one that asks for the same submits the same command |
| Receipt.StepKeeps | cmd/asb-human/main.go:336-375 | every step of every process keeps the invariant |
| ShellQuote.PosixRoundTrip | cmd/asb-human/receipt_path.go:11-18 | for every path the POSIX reading of the quoted text is exactly one word, the path |
| ShellQuote.CommandLineReads | cmd/asb-human/receipt_path.go:11-18 | quoted words on one line come back word for word |
| ShellQuote.WindowsRoundTrip | cmd/asb-human/receipt_path.go:11-18 | for every path, runs of mixed quote characters included, the literal reads back as the path and takes nothing of what follows |
| ShellQuote.QuotedPathReads | cmd/asb-human/receipt_path.go:11-18 | the printed argument reads as the path in PowerShell on Windows and in a POSIX shell elsewhere |
| ShellQuote.QuotingIsInjective | cmd/asb-human/receipt_path.go:11-18 | on one platform different paths are quoted differently |
| StrictJson.Decoder.ScanValue | cmd/asb-leastprivilege-proof/strict_json.go:44-84 | the cursor-advancing recursion computes the reference scan and leaves exactly the rest |
| StrictJson.RejectDuplicateMembers | schemas/authority_quorum_validator.go:71-87 | accepts exactly when one value was scanned and nothing is left |
| StrictJson.ScanDecides | schemas/authority_quorum_validator.go:89-129 | on any tree and any suffix: success exactly when no object at any depth repeats a name and nesting is within the bound, consuming exactly that tree |
| StrictJson.UniqueKeys | cmd/asb-leastprivilege-proof/strict_json.go:30-32 | the call from readJSON computes the reference scan with bound 32 |
| StrictJson.KeysAccepted | cmd/asb-leastprivilege-proof/strict_json.go:44-84 | it passes a tree exactly when no object repeats a name and nothing is nested more than 32 deep, and leaves what follows |
| StrictJson.ScannersAgree | cmd/asb-leastprivilege-proof/strict_json.go:44-84 | the two scanners agree exactly on trees with a repeated name or nested at most 32 deep |
| StrictJson.DocumentAccepted | schemas/authority_quorum_validator.go:71-87 | a document passes exactly when it is one tree without repeated names and nothing follows |
| StrictJson.NewNamesMeansDistinct | schemas/authority_quorum_validator.go:100-117 | the loop over `seen` accepts exactly pairwise different names |
| ImaChain.VerifyMeasurements | cli/ima_measurements.go:68-105 | accepts exactly when the PCR has 20 bytes, the input ended well and there are register values from twenty zero bytes to the PCR such that every line is skipped or appends its digest to the value before it and hashes |
| ImaChain.ReadingIsExact | cli/ima_measurements.go:75-92 | a line is skipped exactly when it is blank or of another register, and measured exactly when its second field spells twenty bytes, twenty zeros standing for twenty times 255 |
| ImaChain.DecodingIsExact | cli/ima_measurements.go:89-92 | decoding finds the bytes that the text spells, the high digit first, in either case |
| ImaChain.TextNormalises | cli/ima_measurements.go:68-105 | replacing the text of forty zeros normalises exactly the all-zero digest |
| ImaChain.FoldBinds | cli/ima_measurements.go:68-105 | from two digest sequences with one fold: they are equal, or an explicit collision or preimage of the zero start is returned |
| ImaChain.LogsBind | cli/ima_measurements.go:68-105 | two logs accepted for one PCR have the same normalised digests or yield that evidence |

## Left out

- Liveness of the agent: events may be dropped and an event loop returns on an invalid event, so beside safety and progress bounds there is only the existence of a complete run, Outcomes.CarriedThrough, for uploads.
- Outcomes.ResultsAreThere: stated for runs of backed steps, because Outcomes.OfferWithoutResult is a run with one that is not.
- Gate.RunGate: stated for runs of prompt steps, because the locks of the source allow the runs of module Races; for a step that is not prompt and leaves the machine waiting for data, harm is proved for uploaded datasets with known bytes, since for other hashes it depends on the hash function.
- Progress.NoStateEnteredTwice: stated for runs of lifting steps, because Progress.LapseFalls shows that the others fall.
- Runs.RunsOncePerLifetime: stated for runs of sparing steps, because Races.RunsTwice is a run with one that is not; of the steps that are not, those that leave the machine without a parked handler, or without what it needs to run again, are not followed further.
- The wrappers with a nil expected context (agent/service.go:458, 552, 1068): they bypass the fence and are not installed as actions.
- OCI pull, decryption, runner execution, file permissions and renames: each is a parameter that says success, failure or interruption, and a file is its bytes.
- Steps of one section under `mu` that touch only fields guarded by `mu` are one step, because no other goroutine can see them apart.
- Slices are sequences: sharing of the backing array by in-place deletion is not captured.
- Context polling inside the ZIP scan and the budget readers.
- ZipDirectory.FindEnd: inputs are at most 2^48 bytes long, the allocation limit of Go on 64-bit platforms; the other ZIP methods share this bound.
- zip.NewReader, entry names and link checks of the extraction, and the order of the archive that digestData writes.
- Signature verification and time parsing are parameters of the authentication; a missing metadata value is not told apart from an invalid one; the clock may repeat but not go back.
- Which characters other than the ASCII ones are decimal digits is a parameter of the timestamp results.
- The 16384-byte limit, the digests and the golden vectors of the transcript script; strings are given as their UTF-8 bytes.
- Receipt.ProposalsAreTheReceipt: the JSON text of a receipt is a codec of which only this is used, and only for commands that pass Validate: its whole text reads as the command or is refused, the same with its newline, and no proper prefix reads (Receipt.LawfulCodecExists gives a codec that does all this).
- Deletion of a receipt by others, durability over power loss, polling, checkedResponse and derivedReceipt.
- JSON tokenizing and UTF-8 validation: scanners start from the token stream; the depth-bounded scanner's caller, which decodes again, is not modelled.
- Splitting the IMA log into lines and fields; SHA-1 is a parameter of which only the output length is used.
- The POSIX reader refuses expansions rather than performing them; the PowerShell reader covers single-quoted literals.
- `manager/`, the other `cli/` commands, the schema validators apart from the duplicate scan, packaging scripts and generated code: they would add only easy members or system calls.
