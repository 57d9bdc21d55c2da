/** When each locked section of agent/service.go accepts, refuses, fails or signals, on the
    fields and inputs alone. */
module Decisions {
  import opened Bytes
  import opened Framing
  import opened Agent
  import opened Sections
  import opened Datasets

  /** The context of lifetime `life` is the service's and is not cancelled. */
  predicate Live(s: Service, life: nat) {
    s.life == life && !s.cancelled
  }

  // ----- Algo -----

  /** The manifest names a remote program and key release is on. */
  predicate RemoteProgram(s: Service) {
    s.cmp.algorithm.remote && s.cmp.kbs
  }

  /** The program and requirements that an Algo request is judged by. */
  predicate ProgramOffered(s: Service, up: AlgoUpload, download: Option<(bytes, bytes)>, program: bytes, requirements: bytes) {
    if RemoteProgram(s) then download == Some((program, requirements))
    else program == up.program && requirements == up.requirements
  }

  /** An empty type stands for "bin". */
  function OrBin(algoType: bytes): bytes {
    if algoType == [] then [98, 105, 110] else algoType
  }

  function Committed(s: Service, program: bytes, requirements: bytes): Bundle {
    Bundle(OrBin(s.cmp.algorithm.algoType), s.cmp.algorithm.args, program, requirements)
  }

  /** The fields after a program was stored. */
  function Stored(s: Service, b: Bundle): Service {
    s.(algoFile := Some(b.program), algoReceived := true, algoRequirements := b.requirements,
       algoType := b.algoType, algoArgs := b.args)
  }

  /** Algo takes a program exactly when none was received, its metadata name the manifest's
      type and arguments, the bundle has the manifest's commitment and it can be stored. */
  lemma AlgoDecides(h: Hash, s: Service, up: AlgoUpload, download: Option<(bytes, bytes)>, stored: bool)
    ensures
      var o := AlgoBody(h, s, up, download, stored);
      && (o.error.Some? ==> o.svc == s && o.event == None)
      && (o.error == Some(AllManifestItemsReceived) <==> s.algoReceived)
      && (!s.algoReceived && RemoteProgram(s) && download == None ==> o.error == Some(IOError))
      && (forall p, r :: !s.algoReceived && ProgramOffered(s, up, download, p, r) ==>
           if OrBin(up.algoType) != OrBin(s.cmp.algorithm.algoType) || up.args != s.cmp.algorithm.args
              || Commitment(h, Committed(s, p, r)) != s.cmp.algorithm.hash
           then o.error == Some(HashMismatch)
           else if !stored then o.error == Some(IOError)
           else o == Outcome(Stored(s, Committed(s, p, r)), Some(AlgorithmReceived), None))
  {
    hide Commitment;
  }

  /** The scheduled download, with everything it may do. */
  lemma DownloadDecides(h: Hash, s: Service, life: nat, io: AlgorithmFetch)
    ensures
      var o := FetchAlgorithmBody(h, s, life, io);
      var seen := s.(notices := s.notices + [Reported(s.cmp.id, ReceivingAlgorithm, InProgress)]);
      if !Live(s, life) then o == Outcome(s, None, None)
      else if !RemoteProgram(s) || io == AlgorithmInterrupted then o == Outcome(seen, None, None)
      else if io.AlgorithmFetched? && io.stored && Commitment(h, Committed(s, io.program, io.requirements)) == s.cmp.algorithm.hash
      then o == Outcome(Stored(seen, Committed(s, io.program, io.requirements)), Some(AlgorithmReceived), None)
      else o == Outcome(seen.(runError := true), Some(RunFailed), None)
  {
    hide Commitment;
  }

  // ----- Data -----

  predicate IsRemote(s: Service, i: nat) {
    i < |s.cmp.datasets| && s.cmp.datasets[i].remote && s.cmp.kbs
  }

  predicate FirstIsRemote(s: Service, i: nat) {
    IsRemote(s, i) && forall j :: 0 <= j < i ==> !IsRemote(s, j)
  }

  /** What a Data request is judged by: the download for the first remote entry under that
      entry's name, or the upload. */
  predicate DataOffered(s: Service, up: DataUpload, download: Option<bytes>, offer: DataUpload) {
    || (exists i: nat | i < |s.cmp.datasets| ::
          FirstIsRemote(s, i) && download.Some? && offer == DataUpload(download.value, s.cmp.datasets[i].filename, []))
    || ((forall i: nat | i < |s.cmp.datasets| :: !IsRemote(s, i)) && offer == up)
  }

  /** Entry `i` is the first with this digest. */
  predicate FirstOf(ds: seq<Dataset>, digest: Digest, i: nat) {
    i < |ds| && ds[i].hash == digest && forall j :: 0 <= j < i ==> ds[j].hash != digest
  }

  predicate NameFits(d: Dataset, filename: bytes) {
    d.filename == [] || d.filename == filename
  }

  /** No flag at all, or the single word "true" or "false" that the entry has. */
  predicate FlagFits(d: Dataset, flags: seq<bytes>) {
    flags == [] || flags == [if d.decompress then [116, 114, 117, 101] else [102, 97, 108, 115, 101]]
  }

  function Delivered(s: Service, i: nat, data: bytes): Service
    requires i < |s.cmp.datasets|
  {
    s.(cmp := s.cmp.(datasets := s.cmp.datasets[..i] + s.cmp.datasets[i + 1..]),
       delivered := s.delivered + [Delivery(s.cmp.datasets[i], data)])
  }

  lemma ChoiceDecides(h: Hash, s: Service, offer: DataUpload, stored: bool)
    ensures
      var o := DeliverBody(h, s, offer, stored);
      var ds := s.cmp.datasets;
      && (o.error.Some? ==> o.svc == s && o.event == None)
      && ((forall i :: 0 <= i < |ds| ==> ds[i].hash != h(offer.data)) ==> o.error == Some(UndeclaredDataset))
      && (forall i: nat :: FirstOf(ds, h(offer.data), i) ==>
           if !NameFits(ds[i], offer.filename) then o.error == Some(FileNameMismatch)
           else if !FlagFits(ds[i], offer.flags) then o.error == Some(DecompressionMismatch)
           else if !stored then o.error == Some(IOError)
           else o == Outcome(Delivered(s, i, offer.data), if |ds| == 1 then Some(DataReceived) else None, None))
  {
    var ds := s.cmp.datasets;
    var r := FirstWithHash(ds, h(offer.data), 0);
    forall i: nat | FirstOf(ds, h(offer.data), i)
      ensures r == Some(i)
    {
    }
    if r.Some? {
      assert |Removed(ds, r.value)| == |ds| - 1;
    }
  }

  /** Data on every input: the offer is judged against the first entry with its digest. */
  lemma DataDecides(h: Hash, s: Service, up: DataUpload, download: Option<bytes>, stored: bool)
    ensures
      var o := DataBody(h, s, up, download, stored);
      var ds := s.cmp.datasets;
      && (o.error.Some? ==> o.svc == s && o.event == None)
      && (o.error == Some(AllManifestItemsReceived) <==> ds == [])
      && ((exists i: nat :: FirstIsRemote(s, i)) && download == None ==> o.error == Some(IOError))
      && (forall offer :: ds != [] && DataOffered(s, up, download, offer) ==> o == DeliverBody(h, s, offer, stored))
  {
    hide DeliverBody;
    var ds := s.cmp.datasets;
    if ds != [] {
      var r := FirstRemote(ds, s.cmp.kbs, 0);
      assert r.Some? ==> FirstIsRemote(s, r.value);
      forall i: nat | i < |ds| && FirstIsRemote(s, i)
        ensures r == Some(i)
      {
        assert r.Some? ==> IsRemote(s, r.value);
      }
      assert r.None? ==> forall i: nat | i < |ds| :: !IsRemote(s, i);
      NotItemsError(h, s, up, stored);
      if r.Some? && download.Some? {
        NotItemsError(h, s, DataUpload(download.value, ds[r.value].filename, []), stored);
      }
    }
  }

  lemma NotItemsError(h: Hash, s: Service, offer: DataUpload, stored: bool)
    ensures
      var o := DeliverBody(h, s, offer, stored);
      o.error != Some(AllManifestItemsReceived) && (o.error.Some? ==> o.svc == s && o.event == None)
  {
  }

  // ----- The scheduled download of the data -----

  /** Below `i`, every remote entry from `from` on fits, and the one before `from` does not. */
  predicate StopsAt(h: Hash, kbs: bool, pending: seq<Dataset>, i: nat, io: nat -> Fetch, from: nat)
    requires from <= i <= |pending|
  {
    && (forall j :: from <= j < i && pending[j].remote && kbs ==> Datasets.Fits(h, pending[j], io(j)))
    && (from > 0 ==> pending[from - 1].remote && kbs && !Datasets.Fits(h, pending[from - 1], io(from - 1)))
  }

  lemma {:induction false} SomeStop(h: Hash, kbs: bool, pending: seq<Dataset>, i: nat, io: nat -> Fetch) returns (from: nat)
    requires i <= |pending|
    ensures from <= i && StopsAt(h, kbs, pending, i, io, from)
    decreases i
  {
    hide Datasets.Fits;
    if i == 0 || (pending[i - 1].remote && kbs && !Datasets.Fits(h, pending[i - 1], io(i - 1))) {
      from := i;
    } else {
      from := SomeStop(h, kbs, pending, i - 1, io);
    }
  }

  /** The loop goes down to the last remote entry that does not fit. Above it the local
      entries stay; the entry itself and all below it are untouched. It stops quietly
      when that download was interrupted, and broken otherwise. */
  lemma {:induction false} FetchStops(h: Hash, kbs: bool, pending: seq<Dataset>, i: nat, io: nat -> Fetch, from: nat)
    requires from <= i <= |pending| && StopsAt(h, kbs, pending, i, io, from)
    ensures
      var end := FetchFrom(h, kbs, pending, i, io);
      && end.pending == pending[..from] + LocalOnly(pending[from..i], kbs) + pending[i..]
      && end.stop == if from == 0 then Finished else if io(from - 1).FetchInterrupted? then Quiet else Broke
    decreases i
  {
    hide FetchFrom, LocalOnly, StopsAt, Datasets.Fits;
    if i == from {
      StopsHere(h, kbs, pending, i, io);
      assert pending == pending[..from] + [] + pending[i..];
      LocalStep(pending[from..i], kbs);
    } else {
      LocalStep(pending[from..i], kbs);
      GoesOn(h, kbs, pending, i, io, from);
      Slices(pending, i, from);
      if pending[i - 1].remote && kbs {
        FetchStops(h, kbs, Removed(pending, i - 1), i - 1, io, from);
      } else {
        FetchStops(h, kbs, pending, i - 1, io, from);
        Regroups(pending[..from], LocalOnly(pending[from..i - 1], kbs), pending[i - 1], pending[i..]);
      }
    }
  }

  lemma Slices<T>(s: seq<T>, i: nat, from: nat)
    requires from < i <= |s|
    ensures
      var left := Removed(s, i - 1);
      && s[from..i][..i - 1 - from] == s[from..i - 1] && s[from..i][i - 1 - from] == s[i - 1] && s[i - 1..] == [s[i - 1]] + s[i..]
      && left[..from] == s[..from] && left[from..i - 1] == s[from..i - 1] && left[i - 1..] == s[i..]
  {
  }

  lemma LocalStep(ds: seq<Dataset>, kbs: bool)
    ensures LocalOnly(ds, kbs) ==
      if ds == [] then [] else
      LocalOnly(ds[..|ds| - 1], kbs) + if ds[|ds| - 1].remote && kbs then [] else [ds[|ds| - 1]]
  {
  }

  lemma StopsHere(h: Hash, kbs: bool, pending: seq<Dataset>, i: nat, io: nat -> Fetch)
    requires i <= |pending| && StopsAt(h, kbs, pending, i, io, i)
    ensures FetchFrom(h, kbs, pending, i, io).pending == pending
    ensures FetchFrom(h, kbs, pending, i, io).stop == if i == 0 then Finished else if io(i - 1).FetchInterrupted? then Quiet else Broke
  {
  }

  lemma GoesOn(h: Hash, kbs: bool, pending: seq<Dataset>, i: nat, io: nat -> Fetch, from: nat)
    requires from < i <= |pending| && StopsAt(h, kbs, pending, i, io, from)
    ensures
      var next := if pending[i - 1].remote && kbs then Removed(pending, i - 1) else pending;
      var a, b := FetchFrom(h, kbs, pending, i, io), FetchFrom(h, kbs, next, i - 1, io);
      a.pending == b.pending && a.stop == b.stop && StopsAt(h, kbs, next, i - 1, io, from)
  {
  }

  lemma Regroups<T>(a: seq<T>, b: seq<T>, x: T, c: seq<T>)
    ensures a + b + ([x] + c) == a + (b + [x]) + c
  {
  }

  /** The whole section, given where its loop stops. */
  lemma DownloadsDecide(h: Hash, s: Service, life: nat, dirMade: bool, io: nat -> Fetch, from: nat)
    requires
      var ds := s.cmp.datasets;
      from <= |ds| && StopsAt(h, s.cmp.kbs, ds, |ds|, io, from)
    ensures
      var o := FetchDatasetsBody(h, s, life, dirMade, io);
      var ds := s.cmp.datasets;
      var left := ds[..from] + LocalOnly(ds[from..], s.cmp.kbs);
      if !Live(s, life) then o == Outcome(s, None, None) else
      && o.error == None && o.svc.notices == s.notices + [Reported(s.cmp.id, ReceivingData, InProgress)]
      && o.svc.runError == (s.runError || o.event == Some(RunFailed))
      && if forall i: nat | i < |ds| :: !IsRemote(s, i) then o.event == None && o.svc.cmp == s.cmp
         else if !dirMade then o.event == Some(RunFailed) && o.svc.cmp == s.cmp
         else if from > 0 then o.svc.cmp.datasets == left && o.event == if io(from - 1).FetchInterrupted? then None else Some(RunFailed)
         else o.svc.cmp.datasets == left && o.event == if left == [] then Some(DataReceived) else None
  {
    hide FetchFrom, Datasets.Fits, LocalOnly;
    var ds := s.cmp.datasets;
    var r := FirstRemote(ds, s.cmp.kbs, 0);
    assert r.Some? ==> IsRemote(s, r.value);
    FetchStops(h, s.cmp.kbs, ds, |ds|, io, from);
    assert ds[from..|ds|] == ds[from..];
    assert ds[..from] + LocalOnly(ds[from..], s.cmp.kbs) + ds[|ds|..] == ds[..from] + LocalOnly(ds[from..], s.cmp.kbs);
  }

  // ----- Running -----

  /** What the service reports of the running computation. */
  function Told(s: Service, statuses: seq<Status>): seq<Notice> {
    s.notices + seq(|statuses|, i requires 0 <= i < |statuses| => Reported(s.cmp.id, Running, statuses[i]))
  }

  /** The runner's answer, in the lifetime that asked: with results they are stored and the
      run is complete, without them it has failed and the stored result stays. */
  lemma ResponseDecides(s: Service, life: nat, results: Option<bytes>, algoRemoved: bool)
    ensures
      var o := RespondBody(s, life, results, algoRemoved);
      var kept := s.(algoFile := if algoRemoved then None else s.algoFile);
      if !Live(s, life) then o == Outcome(s, None, None)
      else if results.Some?
      then o == Outcome(kept.(result := results, runError := false, notices := Told(s, [Completed])), Some(RunComplete), None)
      else o == Outcome(kept.(runError := true, notices := Told(s, [FailedStatus])), Some(RunFailed), None)
  {
  }

  /** A launch, in its lifetime: it hands the stored program to the runner, stops without a
      word when it was interrupted, and fails the run otherwise. */
  lemma LaunchDecides(s: Service, life: nat, io: Launch)
    ensures
      var o := LaunchBody(s, life, io);
      var request := LaunchBundle(s, life, io);
      if !Live(s, life) then o == Outcome(s, None, None) && request == None
      else if io.Launched? && s.algoFile.Some?
      then
        && o == Outcome(s.(notices := Told(s, [Starting, InProgress])), None, None)
        && request == Some(Bundle(s.algoType, s.algoArgs, s.algoFile.value, s.algoRequirements))
      else if io.LaunchFailed? && io.interrupted then o == Outcome(s.(notices := Told(s, [Starting])), None, None) && request == None
      else
        && request == None && o.event == Some(RunFailed) && o.error == None
        && o.svc == s.(runError := true, notices := Told(s, [Starting, FailedStatus]), algoFile := o.svc.algoFile)
        && o.svc.algoFile == if io.LaunchFailed? && io.algoRemoved then None else s.algoFile
  {
    var o := LaunchBody(s, life, io);
    if Live(s, life) {
      assert s.notices + [Reported(s.cmp.id, Running, Starting)] == Told(s, [Starting]);
      assert Told(s, [Starting]) + [Reported(s.cmp.id, Running, InProgress)] == Told(s, [Starting, InProgress]);
      assert Told(s, [Starting]) + [Reported(s.cmp.id, Running, FailedStatus)] == Told(s, [Starting, FailedStatus]);
    }
  }

  /** The actions of the last three states report them under their own status. */
  lemma NotifyDecides(s: Service, life: nat, state: AgentState)
    requires state == ConsumingResults || state == Complete || state == Failed
    ensures
      var o := NotifyBody(s, life, state);
      var status := match state case ConsumingResults => Ready case Complete => Completed case _ => FailedStatus;
      o == Outcome(if Live(s, life) then s.(notices := s.notices + [Reported(s.cmp.id, state, status)]) else s, None, None)
  {
  }

  /** Result answers declared consumers only, and the first one to ask in ConsumingResults
      consumes. */
  lemma ResultDecides(s: Service, seen: AgentState, index: int)
    ensures
      var o := ResultBody(s, seen, index);
      if !(0 <= index < s.cmp.consumers) then o == Outcome(s, None, Some(UndeclaredConsumer))
      else if seen == ConsumingResults && !s.resultsConsumed
      then o == Outcome(s.(resultsConsumed := true), Some(ResultsConsumed), None)
      else o == Outcome(s, None, None)
  {
  }

  /** StopComputation keeps the lifetime unless everything could be removed; the next one
      starts as the first did, with the reports kept and the program file if it stayed. */
  lemma StopDecides(s: Service, end: StopEnd)
    ensures
      var o := StopBody(s, end);
      var told := s.notices + [Notice.Stopped(s.cmp.id)];
      match end
      case RunnerRefused => o == Outcome(s, None, Some(IOError))
      case Cleared(removed) =>
        && o.event == Some(Start) && o.error == None
        && o.svc == INITIAL.(life := s.life + 1, cancelled := s.parentDone, parentDone := s.parentDone, notices := told,
                             algoFile := if removed then None else s.algoFile)
      case _ => o == Outcome(s.(notices := told), None, Some(IOError))
  {
  }

  // ----- Which section signals what -----

  /** The section fails the computation. */
  ghost predicate Breaks(h: Hash, s: Service, k: Work) {
    match k
    case FetchAlgorithm(life, io) =>
      && Live(s, life) && RemoteProgram(s) && io != AlgorithmInterrupted
      && (io.AlgorithmFetched? ==>
           !io.stored || Commitment(h, Committed(s, io.program, io.requirements)) != s.cmp.algorithm.hash)
    case FetchDatasets(life, dirMade, io) =>
      && Live(s, life) && (exists i: nat :: IsRemote(s, i))
      && (!dirMade || exists from: nat | 0 < from <= |s.cmp.datasets| ::
            StopsAt(h, s.cmp.kbs, s.cmp.datasets, |s.cmp.datasets|, io, from) && !io(from - 1).FetchInterrupted?)
    case Launch(life, launch) =>
      Live(s, life) && if launch.Launched? then s.algoFile.None? else !launch.interrupted
    case Respond(life, _, results, _) => Live(s, life) && results.None?
    case _ => false
  }

  /** What a section's event says about the fields it leaves. */
  ghost predicate Signals(h: Hash, s: Service, k: Work, o: Outcome) {
    && (o.event == Some(RunComplete) <==> k.Respond? && Live(s, k.life) && k.results.Some?)
    && (o.event == Some(RunComplete) ==> o.svc.result == k.results && !o.svc.runError)
    && (o.event == Some(RunFailed) <==> Breaks(h, s, k))
    && (o.event == Some(RunFailed) ==> o.svc.runError)
    && (o.event != Some(RunComplete) ==> o.svc.result == s.result)
    && (o.event != Some(RunComplete) && o.event != Some(RunFailed) ==> o.svc.runError == s.runError)
    && (o.event == Some(DataReceived) <==> s.cmp.datasets != [] && o.svc.cmp.datasets == [])
    && (o.event == Some(ResultsConsumed) <==> !s.resultsConsumed && o.svc.resultsConsumed)
    && (o.svc.resultsConsumed <==> s.resultsConsumed || (k.Result? && 0 <= k.index < s.cmp.consumers && k.seen == ConsumingResults))
  }

  lemma SectionsSignal(h: Hash, s: Service, k: Work)
    ensures Signals(h, s, k, Perform(h, s, k))
  {
    hide AlgoBody, DataBody, FetchAlgorithmBody, FetchDatasetsBody, LaunchBody, RespondBody, ResultBody, Signals;
    match k
    case Algo(up, download, stored) => AlgoSignals(h, s, up, download, stored);
    case Data(up, download, stored) => DataSignals(h, s, up, download, stored);
    case FetchAlgorithm(life, io) => DownloadSignals(h, s, life, io);
    case FetchDatasets(life, dirMade, io) => DownloadsSignal(h, s, life, dirMade, io);
    case Launch(life, launch) => LaunchSignals(h, s, life, launch);
    case Respond(life, call, results, algoRemoved) => ResponseSignals(h, s, life, call, results, algoRemoved);
    case Result(seen, index) => ResultSignals(h, s, seen, index);
    case Notify(life, state) => NotifySignals(h, s, life, state);
  }

  lemma AlgoSignals(h: Hash, s: Service, up: AlgoUpload, download: Option<(bytes, bytes)>, stored: bool)
    ensures Signals(h, s, Algo(up, download, stored), AlgoBody(h, s, up, download, stored))
  {
    hide Commitment;
  }

  lemma DataSignals(h: Hash, s: Service, up: DataUpload, download: Option<bytes>, stored: bool)
    ensures Signals(h, s, Data(up, download, stored), DataBody(h, s, up, download, stored))
  {
    hide DataBody;
    DataShape(h, s, up, download, stored);
  }

  lemma DataShape(h: Hash, s: Service, up: DataUpload, download: Option<bytes>, stored: bool)
    ensures OnlyDelivers(s, DataBody(h, s, up, download, stored))
  {
    hide DeliverBody, FirstRemote, OnlyDelivers;
    DeliverShape(h, s, up, stored);
    var ds := s.cmp.datasets;
    var r := FirstRemote(ds, s.cmp.kbs, 0);
    if r.Some? && download.Some? {
      DeliverShape(h, s, DataUpload(download.value, ds[r.value].filename, []), stored);
    }
    RefusalShape(s, AllManifestItemsReceived);
    RefusalShape(s, IOError);
  }

  lemma RefusalShape(s: Service, e: Error)
    ensures OnlyDelivers(s, Refuse(s, e))
  {
  }

  /** A delivery touches the pending list and its history only. */
  predicate OnlyDelivers(s: Service, o: Outcome) {
    && o.svc == s.(cmp := s.cmp.(datasets := o.svc.cmp.datasets), delivered := o.svc.delivered)
    && (o.event == Some(DataReceived) <==> s.cmp.datasets != [] && o.svc.cmp.datasets == [])
    && o.event in {None, Some(DataReceived)}
  }

  lemma DeliverShape(h: Hash, s: Service, offer: DataUpload, stored: bool)
    ensures OnlyDelivers(s, DeliverBody(h, s, offer, stored))
  {
    hide FirstWithHash, FlagsAgree;
  }

  lemma DownloadSignals(h: Hash, s: Service, life: nat, io: AlgorithmFetch)
    ensures Signals(h, s, FetchAlgorithm(life, io), FetchAlgorithmBody(h, s, life, io))
  {
    hide FetchAlgorithmBody, Commitment;
    DownloadDecides(h, s, life, io);
  }

  lemma DownloadsSignal(h: Hash, s: Service, life: nat, dirMade: bool, io: nat -> Fetch)
    ensures Signals(h, s, FetchDatasets(life, dirMade, io), FetchDatasetsBody(h, s, life, dirMade, io))
  {
    hide FetchDatasetsBody, Datasets.Fits, LocalOnly;
    var ds := s.cmp.datasets;
    var from := SomeStop(h, s.cmp.kbs, ds, |ds|, io);
    DownloadsDecide(h, s, life, dirMade, io, from);
    FetchDatasetsShape(h, s, life, dirMade, io);
    if from > 0 {
      assert (ds[..from] + LocalOnly(ds[from..], s.cmp.kbs))[from - 1] == ds[from - 1];
    }
    forall other: nat | 0 < other <= |ds| && StopsAt(h, s.cmp.kbs, ds, |ds|, io, other)
      ensures other == from
    {
      OneStop(h, s.cmp.kbs, ds, |ds|, io, from, other);
    }
  }

  lemma OneStop(h: Hash, kbs: bool, pending: seq<Dataset>, i: nat, io: nat -> Fetch, from: nat, other: nat)
    requires from <= i <= |pending| && other <= i && StopsAt(h, kbs, pending, i, io, from) && StopsAt(h, kbs, pending, i, io, other)
    ensures from == other
  {
    hide Datasets.Fits;
  }

  lemma LaunchSignals(h: Hash, s: Service, life: nat, launch: Launch)
    ensures Signals(h, s, Work.Launch(life, launch), LaunchBody(s, life, launch))
  {
    hide LaunchBody;
    LaunchDecides(s, life, launch);
  }

  lemma ResponseSignals(h: Hash, s: Service, life: nat, call: nat, results: Option<bytes>, algoRemoved: bool)
    ensures Signals(h, s, Respond(life, call, results, algoRemoved), RespondBody(s, life, results, algoRemoved))
  {
    hide RespondBody;
    ResponseDecides(s, life, results, algoRemoved);
  }

  lemma ResultSignals(h: Hash, s: Service, seen: AgentState, index: int)
    ensures Signals(h, s, Result(seen, index), ResultBody(s, seen, index))
  {
  }

  lemma NotifySignals(h: Hash, s: Service, life: nat, state: AgentState)
    ensures Signals(h, s, Notify(life, state), NotifyBody(s, life, state))
  {
  }
}
