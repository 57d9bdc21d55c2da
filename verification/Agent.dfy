/** The agent service of agent/service.go as values: its fields, and one function
    per locked section giving the new fields, the event handed to the state
    machine and the reply. Downloads, file operations and runner replies are
    parameters. */
module Agent {
  import opened Bytes
  import opened Framing

  datatype AgentState =
    | Idle | ReceivingManifest | ReceivingAlgorithm | ReceivingData
    | Running | ConsumingResults | Complete | Failed

  datatype AgentEvent =
    | Start | ManifestReceived | AlgorithmReceived | DataReceived
    | RunComplete | ResultsConsumed | RunFailed

  datatype Status = InProgress | Ready | Completed | Starting | FailedStatus

  /** What eventSvc.SendEvent publishes. */
  datatype Notice =
    | Reported(computation: bytes, state: AgentState, status: Status)
    | Stopped(computation: bytes)

  /** `remote` stands for a non-nil Source. */
  datatype Dataset = Dataset(hash: Digest, filename: bytes, remote: bool, decompress: bool)
  datatype Algorithm = Algorithm(hash: Digest, remote: bool, algoType: bytes, args: seq<bytes>)
  datatype Computation =
    Computation(id: bytes, datasets: seq<Dataset>, algorithm: Algorithm, consumers: nat, kbs: bool)

  const EMPTY_DIGEST: Digest := [0, 0, 0, 0, 0, 0, 0, 0, 0, 0, 0, 0, 0, 0, 0, 0, 0, 0, 0, 0, 0, 0, 0, 0, 0, 0, 0, 0, 0, 0, 0, 0]
  const NO_COMPUTATION: Computation := Computation([], [], Algorithm(EMPTY_DIGEST, false, [], []), 0, false)

  /** A dataset taken off the pending list together with the bytes stored for it. */
  datatype Delivery = Delivery(dataset: Dataset, data: bytes)

  /** The fields of agentService. `life` is the identity of `ctx`, `cancelled` and
      `parentDone` the Err of `ctx` and `parentCtx`. `cmp.datasets` is the pending
      list. `declared` and `delivered` are history: the datasets of the manifest
      accepted in this lifetime and what has been delivered since. */
  datatype Service = Service(
    life: nat, cancelled: bool, parentDone: bool,
    cmp: Computation,
    algoType: bytes, algoArgs: seq<bytes>, algoRequirements: bytes, algoReceived: bool,
    algoFile: Option<bytes>,
    result: Option<bytes>, runError: bool, resultsConsumed: bool,
    notices: seq<Notice>,
    declared: Option<seq<Dataset>>, delivered: seq<Delivery>)

  const INITIAL: Service :=
    Service(0, false, false, NO_COMPUTATION, [], [], [], false, None, None, false, false, [], None, [])

  datatype Error =
    | StateNotReady | AllManifestItemsReceived | HashMismatch | FileNameMismatch
    | DecompressionMismatch | UndeclaredDataset | UndeclaredConsumer | IOError

  datatype Outcome = Outcome(svc: Service, event: Option<AgentEvent>, error: Option<Error>)

  function Refuse(s: Service, e: Error): Outcome {
    Outcome(s, None, Some(e))
  }

  function Publish(s: Service, state: AgentState, status: Status): Service {
    s.(notices := s.notices + [Reported(s.cmp.id, state, status)])
  }

  /** A failed action records the error and sends RunFailed. */
  function Break(s: Service): Outcome {
    Outcome(s.(runError := true), Some(RunFailed), None)
  }

  /** The fence every scheduled action and late response passes under `mu`. */
  predicate Current(s: Service, life: nat) {
    s.life == life && !s.cancelled
  }

  // ----- InitComputation -----

  function InitBody(s: Service, cmp: Computation): Outcome {
    if s.cancelled then Refuse(s, StateNotReady)
    else Outcome(s.(cmp := cmp, declared := Some(cmp.datasets), delivered := []), Some(ManifestReceived), None)
  }

  // ----- Algorithm -----

  datatype AlgorithmFetch =
    | AlgorithmFetched(program: bytes, requirements: bytes, stored: bool)
    | AlgorithmFailed
    | AlgorithmInterrupted

  function WantedBundle(s: Service, program: bytes, requirements: bytes): Bundle {
    Bundle(TypeOrBin(s.cmp.algorithm.algoType), s.cmp.algorithm.args, program, requirements)
  }

  function TypeOrBin(algoType: bytes): bytes {
    if algoType == [] then BIN else algoType
  }

  function Install(s: Service, b: Bundle): Outcome {
    Outcome(s.(algoFile := Some(b.program), algoReceived := true, algoRequirements := b.requirements,
               algoType := b.algoType, algoArgs := b.args),
            Some(AlgorithmReceived), None)
  }

  /** downloadAlgorithmForContext. */
  function FetchAlgorithmBody(h: Hash, s: Service, life: nat, io: AlgorithmFetch): Outcome {
    if !Current(s, life) then Outcome(s, None, None) else
    var s := Publish(s, ReceivingAlgorithm, InProgress);
    if !(s.cmp.algorithm.remote && s.cmp.kbs) then Outcome(s, None, None) else
    match io
    case AlgorithmInterrupted => Outcome(s, None, None)
    case AlgorithmFailed => Break(s)
    case AlgorithmFetched(program, requirements, stored) =>
      var b := WantedBundle(s, program, requirements);
      if Commitment(h, b) != s.cmp.algorithm.hash || !stored then Break(s) else Install(s, b)
  }

  /** The Algo request: the uploaded bytes, and the type and arguments from its metadata. */
  datatype AlgoUpload = AlgoUpload(program: bytes, requirements: bytes, algoType: bytes, args: seq<bytes>)

  function AlgoBody(h: Hash, s: Service, up: AlgoUpload, download: Option<(bytes, bytes)>, stored: bool): Outcome {
    if s.algoReceived then Refuse(s, AllManifestItemsReceived) else
    var fetch := s.cmp.algorithm.remote && s.cmp.kbs;
    if fetch && download.None? then Refuse(s, IOError) else
    var (program, requirements) := if fetch then download.value else (up.program, up.requirements);
    var b := WantedBundle(s, program, requirements);
    if TypeOrBin(up.algoType) != b.algoType || up.args != b.args then Refuse(s, HashMismatch)
    else if Commitment(h, b) != s.cmp.algorithm.hash then Refuse(s, HashMismatch)
    else if !stored then Refuse(s, IOError)
    else Install(s, b)
  }

  // ----- Datasets -----

  const TRUE: bytes := [116, 114, 117, 101]
  const FALSE: bytes := [102, 97, 108, 115, 101]

  function Removed<T>(s: seq<T>, i: nat): seq<T>
    requires i < |s|
  {
    s[..i] + s[i + 1..]
  }

  predicate Remote(d: Dataset, kbs: bool) {
    d.remote && kbs
  }

  function FirstRemote(ds: seq<Dataset>, kbs: bool, from: nat): (r: Option<nat>)
    requires from <= |ds|
    ensures r.Some? ==> from <= r.value < |ds| && Remote(ds[r.value], kbs)
    ensures forall j :: from <= j < (if r.Some? then r.value else |ds|) ==> !Remote(ds[j], kbs)
    decreases |ds| - from
  {
    if from == |ds| then None else if Remote(ds[from], kbs) then Some(from) else FirstRemote(ds, kbs, from + 1)
  }

  function FirstWithHash(ds: seq<Dataset>, digest: Digest, from: nat): (r: Option<nat>)
    requires from <= |ds|
    ensures r.Some? ==> from <= r.value < |ds| && ds[r.value].hash == digest
    ensures forall j :: from <= j < (if r.Some? then r.value else |ds|) ==> ds[j].hash != digest
    decreases |ds| - from
  {
    if from == |ds| then None else if ds[from].hash == digest then Some(from) else FirstWithHash(ds, digest, from + 1)
  }

  /** The Data request; `flags` are the values of its decompress metadata key. */
  datatype DataUpload = DataUpload(data: bytes, filename: bytes, flags: seq<bytes>)

  predicate FlagsAgree(flags: seq<bytes>, decompress: bool) {
    |flags| > 0 ==> |flags| == 1 && flags[0] == if decompress then TRUE else FALSE
  }

  function DataBody(h: Hash, s: Service, up: DataUpload, download: Option<bytes>, stored: bool): Outcome {
    if s.cmp.datasets == [] then Refuse(s, AllManifestItemsReceived) else
    match FirstRemote(s.cmp.datasets, s.cmp.kbs, 0)
    case Some(i) =>
      if download.None? then Refuse(s, IOError)
      else DeliverBody(h, s, DataUpload(download.value, s.cmp.datasets[i].filename, []), stored)
    case None => DeliverBody(h, s, up, stored)
  }

  datatype Choice = Chosen(index: nat) | Rejected(error: Error)

  /** The second half of Data: the first pending entry with this hash is the one
      delivered, whichever entry the bytes were downloaded for. */
  function Choose(h: Hash, ds: seq<Dataset>, up: DataUpload, stored: bool): (c: Choice)
    ensures c.Chosen? ==> c.index < |ds| && h(up.data) == ds[c.index].hash
  {
    match FirstWithHash(ds, h(up.data), 0)
    case None => Rejected(UndeclaredDataset)
    case Some(i) =>
      if ds[i].filename != [] && ds[i].filename != up.filename then Rejected(FileNameMismatch)
      else if !FlagsAgree(up.flags, ds[i].decompress) then Rejected(DecompressionMismatch)
      else if !stored then Rejected(IOError)
      else Chosen(i)
  }

  function TakeDataset(s: Service, i: nat, data: bytes): Service
    requires i < |s.cmp.datasets|
  {
    s.(cmp := s.cmp.(datasets := Removed(s.cmp.datasets, i)),
       delivered := s.delivered + [Delivery(s.cmp.datasets[i], data)])
  }

  function DeliverBody(h: Hash, s: Service, up: DataUpload, stored: bool): Outcome {
    match Choose(h, s.cmp.datasets, up, stored)
    case Rejected(error) => Refuse(s, error)
    case Chosen(i) =>
      var t := TakeDataset(s, i, up.data);
      Outcome(t, if t.cmp.datasets == [] then Some(DataReceived) else None, None)
  }

  datatype Fetch = Fetched(data: bytes, stored: bool) | FetchFailed | FetchInterrupted

  datatype FetchStop = Finished | Broke | Quiet

  datatype FetchEnd = FetchEnd(pending: seq<Dataset>, got: seq<Delivery>, stop: FetchStop)

  /** The backward loop over pending[..i]: each remote entry is downloaded, checked
      against its hash, stored and deleted in place. */
  function FetchFrom(h: Hash, kbs: bool, pending: seq<Dataset>, i: nat, io: nat -> Fetch): FetchEnd
    requires i <= |pending|
    decreases i
  {
    if i == 0 then FetchEnd(pending, [], Finished) else
    var d := pending[i - 1];
    if !Remote(d, kbs) then FetchFrom(h, kbs, pending, i - 1, io) else
    match io(i - 1)
    case FetchInterrupted => FetchEnd(pending, [], Quiet)
    case FetchFailed => FetchEnd(pending, [], Broke)
    case Fetched(data, stored) =>
      if h(data) != d.hash || !stored then FetchEnd(pending, [], Broke) else
      var rest := FetchFrom(h, kbs, Removed(pending, i - 1), i - 1, io);
      rest.(got := [Delivery(d, data)] + rest.got)
  }

  function AfterFetch(s: Service, end: FetchEnd): Service {
    s.(cmp := s.cmp.(datasets := end.pending), delivered := s.delivered + end.got)
  }

  /** downloadDatasetsForContext. */
  function FetchDatasetsBody(h: Hash, s: Service, life: nat, dirMade: bool, io: nat -> Fetch): Outcome {
    if !Current(s, life) then Outcome(s, None, None) else
    var p := Publish(s, ReceivingData, InProgress);
    if FirstRemote(s.cmp.datasets, s.cmp.kbs, 0).None? then Outcome(p, None, None)
    else if !dirMade then Break(p) else
    var end := FetchFrom(h, s.cmp.kbs, s.cmp.datasets, |s.cmp.datasets|, io);
    match end.stop
    case Quiet => Outcome(AfterFetch(p, end), None, None)
    case Broke => Break(AfterFetch(p, end))
    case Finished => Outcome(AfterFetch(p, end), if end.pending == [] then Some(DataReceived) else None, None)
  }

  // ----- Running -----

  /** A launch that fails on a directory or file; `interrupted` when the
      cancellation arrived before the failure was recorded. */
  datatype Launch = Launched | LaunchFailed(interrupted: bool, algoRemoved: bool)

  /** finish, past its fence. The stored result comes with the run that made it. */
  function FinishBody(s: Service, results: Option<bytes>, algoRemoved: bool): Outcome {
    var s := if algoRemoved then s.(algoFile := None) else s;
    match results
    case None => Outcome(Publish(s.(runError := true), Running, FailedStatus), Some(RunFailed), None)
    case Some(r) => Outcome(Publish(s.(runError := false, result := Some(r)), Running, Completed), Some(RunComplete), None)
  }

  /** The bundle that a launch hands to the runner: the stored fields and the algo file. */
  function LaunchBundle(s: Service, life: nat, io: Launch): Option<Bundle> {
    if Current(s, life) && io.Launched? && s.algoFile.Some?
    then Some(Bundle(s.algoType, s.algoArgs, s.algoFile.value, s.algoRequirements)) else None
  }

  /** The first locked section of runComputationForContext. */
  function LaunchBody(s: Service, life: nat, io: Launch): Outcome {
    if !Current(s, life) then Outcome(s, None, None) else
    var started := Publish(s, Running, Starting);
    if LaunchBundle(s, life, io).Some? then Outcome(Publish(started, Running, InProgress), None, None)
    else if io.LaunchFailed? && io.interrupted then Outcome(started, None, None)
    else FinishBody(started, None, io.LaunchFailed? && io.algoRemoved)
  }

  /** The second locked section: the runner answered, with zipped results or not. */
  function RespondBody(s: Service, life: nat, results: Option<bytes>, algoRemoved: bool): Outcome {
    if !Current(s, life) then Outcome(s, None, None) else FinishBody(s, results, algoRemoved)
  }

  /** The actions of ConsumingResults, Complete and Failed. */
  function NotifyBody(s: Service, life: nat, state: AgentState): Outcome {
    if !Current(s, life) then Outcome(s, None, None) else
    var status := if state == ConsumingResults then Ready else if state == Complete then Completed else FailedStatus;
    Outcome(Publish(s, state, status), None, None)
  }

  // ----- Result -----

  function ResultBody(s: Service, seen: AgentState, index: int): Outcome {
    if index < 0 || index >= s.cmp.consumers then Refuse(s, UndeclaredConsumer)
    else if !s.resultsConsumed && seen == ConsumingResults
    then Outcome(s.(resultsConsumed := true), Some(ResultsConsumed), None)
    else Outcome(s, None, None)
  }

  // ----- StopComputation, after its cancel -----

  datatype StopEnd = RunnerRefused | DatasetsKept | ResultsKept | Cleared(algoRemoved: bool)

  /** The cleared fields of the next lifetime; the algo file stays if it could not be removed. */
  function NextLifetime(s: Service, algoRemoved: bool): Service {
    Service(s.life + 1, s.parentDone, s.parentDone, NO_COMPUTATION, [], [], [], false,
            if algoRemoved then None else s.algoFile, None, false, false, s.notices, None, [])
  }

  function StopBody(s: Service, end: StopEnd): Outcome {
    if end.RunnerRefused? then Refuse(s, IOError) else
    var t := s.(notices := s.notices + [Notice.Stopped(s.cmp.id)]);
    if end.Cleared? then Outcome(NextLifetime(t, end.algoRemoved), Some(Start), None) else Refuse(t, IOError)
  }
}
