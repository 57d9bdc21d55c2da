/** The locked sections of RPCs, scheduled actions and runner responses under one
    name, and what all of them keep. */
module Sections {
  import opened Bytes
  import opened Framing
  import opened Agent

  datatype Work =
    | Algo(algoUp: AlgoUpload, algoDownload: Option<(bytes, bytes)>, stored: bool)
    | Data(dataUp: DataUpload, dataDownload: Option<bytes>, stored: bool)
    | Result(seen: AgentState, index: int)
    | FetchAlgorithm(life: nat, algoIO: AlgorithmFetch)
    | FetchDatasets(life: nat, dirMade: bool, dataIO: nat -> Fetch)
    | Launch(life: nat, launch: Launch)
    | Notify(life: nat, state: AgentState)
    | Respond(life: nat, call: nat, results: Option<bytes>, algoRemoved: bool)

  function Perform(h: Hash, s: Service, k: Work): Outcome {
    match k
    case Algo(up, download, stored) => AlgoBody(h, s, up, download, stored)
    case Data(up, download, stored) => DataBody(h, s, up, download, stored)
    case Result(seen, index) => ResultBody(s, seen, index)
    case FetchAlgorithm(life, io) => FetchAlgorithmBody(h, s, life, io)
    case FetchDatasets(life, dirMade, io) => FetchDatasetsBody(h, s, life, dirMade, io)
    case Launch(life, launch) => LaunchBody(s, life, launch)
    case Notify(life, state) => NotifyBody(s, life, state)
    case Respond(life, _, results, algoRemoved) => RespondBody(s, life, results, algoRemoved)
  }

  /** Scheduled actions and responses carry the lifetime they were born in. */
  predicate Scheduled(k: Work) {
    !k.Algo? && !k.Data? && !k.Result?
  }

  predicate Stale(s: Service, k: Work) {
    Scheduled(k) && !Current(s, k.life)
  }

  /** A stale action or response changes nothing and sends nothing. */
  lemma StaleDoesNothing(h: Hash, s: Service, k: Work)
    requires Stale(s, k)
    ensures Perform(h, s, k) == Outcome(s, None, None)
  {
    hide AlgoBody, DataBody, ResultBody, FetchFrom, FinishBody, Break, Install;
  }

  /** The stored bundle, if the file is there (it goes away when a run finishes), carries
      the manifest's commitment. */
  ghost predicate Armed(h: Hash, s: Service) {
    s.algoFile.Some? ==>
      Commitment(h, Bundle(s.algoType, s.algoArgs, s.algoFile.value, s.algoRequirements)) == s.cmp.algorithm.hash
  }

  /** What every piece of work keeps. */
  ghost predicate Advance(h: Hash, s: Service, o: Outcome) {
    && o.svc.life == s.life && o.svc.cancelled == s.cancelled && o.svc.parentDone == s.parentDone
    && o.svc.cmp == s.cmp.(datasets := o.svc.cmp.datasets)
    && (s.cmp.datasets == [] ==> o.svc.cmp.datasets == [])
    && o.svc.declared == s.declared
    && (Armed(h, s) || o.event == Some(AlgorithmReceived) ==> Armed(h, o.svc))
    && (o.event == Some(DataReceived) ==> o.svc.cmp.datasets == [])
    && o.event != Some(Start) && o.event != Some(ManifestReceived)
  }

  lemma DeliverAdvances(h: Hash, s: Service, up: DataUpload, stored: bool)
    ensures Advance(h, s, DeliverBody(h, s, up, stored))
    ensures DeliverBody(h, s, up, stored).svc.result == s.result
  {
    hide FirstWithHash, Commitment, FlagsAgree;
  }

  lemma DataAdvances(h: Hash, s: Service, up: DataUpload, download: Option<bytes>, stored: bool)
    ensures
      var o := DataBody(h, s, up, download, stored);
      Advance(h, s, o) && o.svc.result == s.result
  {
    hide DeliverBody, FirstRemote, Commitment;
    var ds := s.cmp.datasets;
    if ds != [] {
      DeliverAdvances(h, s, up, stored);
      var r := FirstRemote(ds, s.cmp.kbs, 0);
      if r.Some? && download.Some? {
        DeliverAdvances(h, s, DataUpload(download.value, ds[r.value].filename, []), stored);
      }
    }
  }

  lemma AlgoAdvances(h: Hash, s: Service, up: AlgoUpload, download: Option<(bytes, bytes)>, stored: bool)
    ensures
      var o := AlgoBody(h, s, up, download, stored);
      Advance(h, s, o) && o.svc.result == s.result
  {
    hide Commitment;
  }

  lemma FetchAlgorithmAdvances(h: Hash, s: Service, life: nat, io: AlgorithmFetch)
    ensures
      var o := FetchAlgorithmBody(h, s, life, io);
      Advance(h, s, o) && o.svc.result == s.result
  {
    hide Commitment;
  }

  lemma FetchDatasetsAdvances(h: Hash, s: Service, life: nat, dirMade: bool, io: nat -> Fetch)
    ensures
      var o := FetchDatasetsBody(h, s, life, dirMade, io);
      Advance(h, s, o) && o.svc.result == s.result
  {
    hide FetchDatasetsBody, Commitment;
    FetchDatasetsShape(h, s, life, dirMade, io);
  }

  /** The download loop touches four fields. */
  lemma FetchDatasetsShape(h: Hash, s: Service, life: nat, dirMade: bool, io: nat -> Fetch)
    ensures
      var o := FetchDatasetsBody(h, s, life, dirMade, io);
      && o.svc == s.(cmp := s.cmp.(datasets := o.svc.cmp.datasets), delivered := o.svc.delivered,
                     runError := o.svc.runError, notices := o.svc.notices)
      && (s.cmp.datasets == [] ==> o.svc.cmp.datasets == [])
      && (o.event == Some(DataReceived) ==> o.svc.cmp.datasets == [])
      && o.event in {None, Some(DataReceived), Some(RunFailed)}
  {
    hide FetchFrom, FirstRemote;
  }

  lemma PublishAdvances(h: Hash, s: Service, state: AgentState, status: Status)
    ensures
      var p := Publish(s, state, status);
      p == s.(notices := p.notices) && Advance(h, s, Outcome(p, None, None))
  {
    hide Commitment;
  }

  lemma LaunchAdvances(h: Hash, s: Service, life: nat, launch: Launch)
    ensures
      var o := LaunchBody(s, life, launch);
      Advance(h, s, o) && o.svc.result == s.result
  {
    hide Commitment, Publish, FinishBody;
    var p := Publish(s, Running, Starting);
    PublishAdvances(h, s, Running, Starting);
    PublishAdvances(h, p, Running, InProgress);
    if launch.LaunchFailed? {
      FinishAdvances(h, p, None, launch.algoRemoved);
    }
    FinishAdvances(h, p, None, false);
  }

  lemma FinishAdvances(h: Hash, s: Service, results: Option<bytes>, algoRemoved: bool)
    ensures
      var o := FinishBody(s, results, algoRemoved);
      && Advance(h, s, o)
      && o.svc.result == if results.Some? then results else s.result
  {
    hide Commitment;
  }

  lemma RespondAdvances(h: Hash, s: Service, life: nat, results: Option<bytes>, algoRemoved: bool)
    ensures
      var o := RespondBody(s, life, results, algoRemoved);
      && Advance(h, s, o)
      && o.svc.result == if Current(s, life) && results.Some? then results else s.result
  {
    hide Commitment, FinishBody;
    FinishAdvances(h, s, results, algoRemoved);
  }

  lemma ResultAdvances(h: Hash, s: Service, seen: AgentState, index: int)
    ensures
      var o := ResultBody(s, seen, index);
      Advance(h, s, o) && o.svc.result == s.result
  {
    hide Commitment;
  }

  lemma NotifyAdvances(h: Hash, s: Service, life: nat, state: AgentState)
    ensures
      var o := NotifyBody(s, life, state);
      Advance(h, s, o) && o.svc.result == s.result
  {
    hide Commitment;
  }

  function NewResult(s: Service, k: Work): Option<bytes> {
    if k.Respond? && Current(s, k.life) then k.results else None
  }

  lemma PerformAdvances(h: Hash, s: Service, k: Work)
    ensures
      var o := Perform(h, s, k);
      && Advance(h, s, o)
      && o.svc.result == if NewResult(s, k).Some? then NewResult(s, k) else s.result
  {
    hide AlgoBody, DataBody, FetchAlgorithmBody, FetchDatasetsBody, LaunchBody, RespondBody, Advance, ResultBody, NotifyBody;
    match k
    case Algo(up, download, stored) => AlgoAdvances(h, s, up, download, stored);
    case Data(up, download, stored) => DataAdvances(h, s, up, download, stored);
    case FetchAlgorithm(life, io) => FetchAlgorithmAdvances(h, s, life, io);
    case FetchDatasets(life, dirMade, io) => FetchDatasetsAdvances(h, s, life, dirMade, io);
    case Launch(life, launch) => LaunchAdvances(h, s, life, launch);
    case Respond(life, _, results, algoRemoved) => RespondAdvances(h, s, life, results, algoRemoved);
    case Result(seen, index) => ResultAdvances(h, s, seen, index);
    case Notify(life, state) => NotifyAdvances(h, s, life, state);
  }
}
