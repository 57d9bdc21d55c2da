/** agentService and stateMachine as objects with fields updated in place. Each method of
    `Instance` is one section under `mu`. */
module AgentService {
  import opened Bytes
  import opened Framing
  import opened Agent
  import opened Protocol

  class Instance {
    const h: Hash
    var life: nat
    var cancelled: bool
    var parentDone: bool
    var cmp: Computation
    var algoType: bytes
    var algoArgs: seq<bytes>
    var algoRequirements: bytes
    var algoReceived: bool
    var algoFile: Option<bytes>
    var result: Option<bytes>
    var runError: bool
    var resultsConsumed: bool
    var notices: seq<Notice>
    ghost var declared: Option<seq<Dataset>>
    ghost var delivered: seq<Delivery>

    ghost function View(): Service
      reads this
    {
      Service(life, cancelled, parentDone, cmp, algoType, algoArgs, algoRequirements, algoReceived, algoFile,
              result, runError, resultsConsumed, notices, declared, delivered)
    }

    constructor (h: Hash)
      ensures this.h == h && View() == INITIAL
    {
      this.h := h;
      life, cancelled, parentDone, cmp := 0, false, false, NO_COMPUTATION;
      algoType, algoArgs, algoRequirements, algoReceived, algoFile := [], [], [], false, None;
      result, runError, resultsConsumed, notices := None, false, false, [];
      declared, delivered := None, [];
    }

    method PublishEvent(state: AgentState, status: Status)
      modifies this`notices
      ensures View() == Publish(old(View()), state, status)
    {
      notices := notices + [Reported(cmp.id, state, status)];
    }

    method InitComputation(manifest: Computation) returns (event: Option<AgentEvent>, error: Option<Error>)
      modifies this
      ensures Outcome(View(), event, error) == InitBody(old(View()), manifest)
      ensures error.Some? <==> old(cancelled)
      ensures error.Some? ==> View() == old(View())
      ensures error.None? ==> cmp == manifest && declared == Some(manifest.datasets) && delivered == []
    {
      if cancelled {
        return None, Some(StateNotReady);
      }
      cmp := manifest;
      declared, delivered := Some(manifest.datasets), [];
      return Some(ManifestReceived), None;
    }

    /** The verified program is on disk; its type, arguments and requirements are kept. */
    method Keep(bundle: Bundle)
      modifies this`algoFile, this`algoType, this`algoArgs, this`algoRequirements, this`algoReceived
      ensures View() == Install(old(View()), bundle).svc
    {
      algoFile := Some(bundle.program);
      algoType := bundle.algoType;
      algoArgs := bundle.args;
      algoRequirements := bundle.requirements;
      algoReceived := true;
    }

    method DownloadAlgorithm(expected: nat, io: AlgorithmFetch) returns (event: Option<AgentEvent>)
      modifies this
      ensures Outcome(View(), event, None) == FetchAlgorithmBody(h, old(View()), expected, io)
      ensures expected != old(life) || old(cancelled) ==> View() == old(View()) && event == None
    {
      hide Commitment;
      event := None;
      if life != expected || cancelled {
        return;
      }
      PublishEvent(ReceivingAlgorithm, InProgress);
      if cmp.algorithm.remote && cmp.kbs {
        match io
        case AlgorithmInterrupted => return;
        case AlgorithmFailed =>
          runError := true;
          return Some(RunFailed);
        case AlgorithmFetched(program, requirements, stored) =>
          var bundle := Bundle(TypeOrBin(cmp.algorithm.algoType), cmp.algorithm.args, program, requirements);
          var commitment := AlgorithmCommitment(h, bundle);
          if commitment != cmp.algorithm.hash || !stored {
            runError := true;
            return Some(RunFailed);
          }
          Keep(bundle);
          return Some(AlgorithmReceived);
      }
    }

    method Algo(up: AlgoUpload, download: Option<(bytes, bytes)>, stored: bool)
      returns (event: Option<AgentEvent>, error: Option<Error>)
      modifies this
      ensures Outcome(View(), event, error) == AlgoBody(h, old(View()), up, download, stored)
      ensures error.Some? ==> View() == old(View()) && event == None
      ensures old(algoReceived) ==> error == Some(AllManifestItemsReceived)
      ensures error.None? ==> event == Some(AlgorithmReceived) && algoReceived && algoFile.Some? && cmp == old(cmp)
      ensures error.None? ==>
        Commitment(h, Bundle(algoType, algoArgs, algoFile.value, algoRequirements)) == cmp.algorithm.hash
    {
      hide Commitment;
      event, error := None, None;
      if algoReceived {
        return None, Some(AllManifestItemsReceived);
      }
      var program, requirements := up.program, up.requirements;
      if cmp.algorithm.remote && cmp.kbs {
        if download.None? {
          return None, Some(IOError);
        }
        program, requirements := download.value.0, download.value.1;
      }
      var bundle := Bundle(TypeOrBin(cmp.algorithm.algoType), cmp.algorithm.args, program, requirements);
      if TypeOrBin(up.algoType) != bundle.algoType || up.args != bundle.args {
        return None, Some(HashMismatch);
      }
      var commitment := AlgorithmCommitment(h, bundle);
      if commitment != cmp.algorithm.hash {
        return None, Some(HashMismatch);
      }
      if !stored {
        return None, Some(IOError);
      }
      Keep(bundle);
      return Some(AlgorithmReceived), None;
    }

    /** The loop that picks the first remote entry, and the one that picks the
        first entry with a given hash. */
    method FindRemote() returns (index: int)
      ensures FirstRemote(cmp.datasets, cmp.kbs, 0) == if index < 0 then None else Some(index)
    {
      for i := 0 to |cmp.datasets|
        invariant FirstRemote(cmp.datasets, cmp.kbs, 0) == FirstRemote(cmp.datasets, cmp.kbs, i)
      {
        if cmp.datasets[i].remote && cmp.kbs {
          return i;
        }
      }
      return -1;
    }

    method FindHash(digest: Digest) returns (index: int)
      ensures FirstWithHash(cmp.datasets, digest, 0) == if index < 0 then None else Some(index)
    {
      for i := 0 to |cmp.datasets|
        invariant FirstWithHash(cmp.datasets, digest, 0) == FirstWithHash(cmp.datasets, digest, i)
      {
        if digest == cmp.datasets[i].hash {
          return i;
        }
      }
      return -1;
    }

    method Data(up: DataUpload, download: Option<bytes>, stored: bool)
      returns (event: Option<AgentEvent>, error: Option<Error>)
      modifies this
      ensures Outcome(View(), event, error) == DataBody(h, old(View()), up, download, stored)
    {
      event, error := None, None;
      if |cmp.datasets| == 0 {
        return None, Some(AllManifestItemsReceived);
      }
      var source := up;
      var matchedIndex := FindRemote();
      if matchedIndex >= 0 {
        if download.None? {
          return None, Some(IOError);
        }
        source := DataUpload(download.value, cmp.datasets[matchedIndex].filename, []);
      }
      event, error := Deliver(source, stored);
    }

    method Deliver(source: DataUpload, stored: bool) returns (event: Option<AgentEvent>, error: Option<Error>)
      modifies this
      ensures Outcome(View(), event, error) == DeliverBody(h, old(View()), source, stored)
    {
      event, error := None, None;
      var i := FindHash(h(source.data));
      if i < 0 {
        return None, Some(UndeclaredDataset);
      }
      var d := cmp.datasets[i];
      if d.filename != [] && d.filename != source.filename {
        return None, Some(FileNameMismatch);
      }
      if !FlagsAgree(source.flags, d.decompress) {
        return None, Some(DecompressionMismatch);
      }
      if !stored {
        return None, Some(IOError);
      }
      cmp := cmp.(datasets := cmp.datasets[..i] + cmp.datasets[i + 1..]);
      delivered := delivered + [Delivery(d, source.data)];
      if |cmp.datasets| == 0 {
        event := Some(DataReceived);
      }
    }

    /** The backward loop that deletes from the list it walks. */
    method DownloadPending(io: nat -> Fetch) returns (stop: FetchStop)
      modifies this`cmp, this`delivered
      ensures
        var s := old(View());
        var end := FetchFrom(h, s.cmp.kbs, s.cmp.datasets, |s.cmp.datasets|, io);
        View() == AfterFetch(s, end) && stop == end.stop
    {
      ghost var end := FetchFrom(h, cmp.kbs, cmp.datasets, |cmp.datasets|, io);
      ghost var got: seq<Delivery> := [];
      var i := |cmp.datasets|;
      while i > 0
        invariant 0 <= i <= |cmp.datasets|
        invariant cmp == old(cmp).(datasets := cmp.datasets) && delivered == old(delivered) + got
        invariant
          var rest := FetchFrom(h, cmp.kbs, cmp.datasets, i, io);
          end == FetchEnd(rest.pending, got + rest.got, rest.stop)
      {
        i := i - 1;
        var d := cmp.datasets[i];
        if d.remote && cmp.kbs {
          match io(i)
          case FetchInterrupted => return Quiet;
          case FetchFailed => return Broke;
          case Fetched(data, stored) =>
            if h(data) != d.hash || !stored {
              return Broke;
            }
            ghost var rest := FetchFrom(h, cmp.kbs, Removed(cmp.datasets, i), i, io).got;
            assert got + ([Delivery(d, data)] + rest) == (got + [Delivery(d, data)]) + rest;
            cmp := cmp.(datasets := cmp.datasets[..i] + cmp.datasets[i + 1..]);
            delivered := delivered + [Delivery(d, data)];
            got := got + [Delivery(d, data)];
        }
      }
      return Finished;
    }

    method DownloadDatasets(expected: nat, dirMade: bool, io: nat -> Fetch) returns (event: Option<AgentEvent>)
      modifies this
      ensures Outcome(View(), event, None) == FetchDatasetsBody(h, old(View()), expected, dirMade, io)
      ensures expected != old(life) || old(cancelled) ==> View() == old(View()) && event == None
    {
      event := None;
      if life != expected || cancelled {
        return;
      }
      PublishEvent(ReceivingData, InProgress);
      var remote := FindRemote();
      if remote < 0 {
        return;
      }
      if !dirMade {
        runError := true;
        return Some(RunFailed);
      }
      var stop := DownloadPending(io);
      if stop == Broke {
        runError := true;
        return Some(RunFailed);
      }
      if stop == Finished && |cmp.datasets| == 0 {
        return Some(DataReceived);
      }
    }

    /** finish, past its fence. */
    method Finish(results: Option<bytes>, algoRemoved: bool) returns (event: Option<AgentEvent>)
      modifies this
      ensures Outcome(View(), event, None) == FinishBody(old(View()), results, algoRemoved)
    {
      if algoRemoved {
        algoFile := None;
      }
      runError := results.None?;
      if results.None? {
        PublishEvent(Running, FailedStatus);
        return Some(RunFailed);
      }
      result := results;
      PublishEvent(Running, Completed);
      return Some(RunComplete);
    }

    method StartRun(expected: nat, launch: Launch) returns (request: Option<Bundle>, event: Option<AgentEvent>)
      modifies this
      ensures Outcome(View(), event, None) == LaunchBody(old(View()), expected, launch)
      ensures request == LaunchBundle(old(View()), expected, launch)
      ensures expected != old(life) || old(cancelled) ==> View() == old(View()) && request == None && event == None
    {
      request, event := None, None;
      if life != expected || cancelled {
        return;
      }
      PublishEvent(Running, Starting);
      if launch.Launched? && algoFile.Some? {
        request := Some(Bundle(algoType, algoArgs, algoFile.value, algoRequirements));
        PublishEvent(Running, InProgress);
      } else if !(launch.LaunchFailed? && launch.interrupted) {
        event := Finish(None, launch.LaunchFailed? && launch.algoRemoved);
      }
    }

    method RunResponse(expected: nat, results: Option<bytes>, algoRemoved: bool) returns (event: Option<AgentEvent>)
      modifies this
      ensures Outcome(View(), event, None) == RespondBody(old(View()), expected, results, algoRemoved)
      ensures expected != old(life) || old(cancelled) ==> View() == old(View()) && event == None
      ensures expected == old(life) && !old(cancelled) && results.Some? ==> event == Some(RunComplete) && result == results && !runError
      ensures expected == old(life) && !old(cancelled) && results.None? ==> event == Some(RunFailed) && result == old(result) && runError
    {
      event := None;
      if life == expected && !cancelled {
        event := Finish(results, algoRemoved);
      }
    }

    /** The actions of ConsumingResults, Complete and Failed. */
    method Notify(expected: nat, state: AgentState) returns (event: Option<AgentEvent>)
      modifies this`notices
      ensures Outcome(View(), event, None) == NotifyBody(old(View()), expected, state)
      ensures expected != old(life) || old(cancelled) ==> View() == old(View())
    {
      event := None;
      if life == expected && !cancelled {
        PublishEvent(state, if state == ConsumingResults then Ready else if state == Complete then Completed else FailedStatus);
      }
    }

    method Result(seen: AgentState, index: int)
      returns (data: Option<bytes>, failed: bool, event: Option<AgentEvent>, error: Option<Error>)
      modifies this`resultsConsumed
      ensures Outcome(View(), event, error) == ResultBody(old(View()), seen, index)
      ensures error.None? <==> 0 <= index < old(cmp).consumers
      ensures error.None? ==> data == old(result) && failed == old(runError)
      ensures error.Some? ==> data == None && event == None && View() == old(View())
    {
      if index < 0 || index >= cmp.consumers {
        return None, false, None, Some(UndeclaredConsumer);
      }
      event := None;
      if !resultsConsumed && seen == ConsumingResults {
        resultsConsumed := true;
        event := Some(ResultsConsumed);
      }
      return result, runError, event, None;
    }

    method ForgetAlgorithm(algoRemoved: bool)
      modifies this`algoFile, this`algoType, this`algoArgs, this`algoRequirements, this`algoReceived
      ensures View() == old(View()).(algoFile := if algoRemoved then None else old(algoFile),
        algoType := [], algoArgs := [], algoRequirements := [], algoReceived := false)
    {
      if algoRemoved {
        algoFile := None;
      }
      algoReceived, algoType, algoArgs, algoRequirements := false, [], [], [];
    }

    method ForgetRun()
      modifies this`cmp, this`result, this`runError, this`resultsConsumed, this`declared, this`delivered
      ensures View() == old(View()).(cmp := NO_COMPUTATION, result := None, runError := false,
        resultsConsumed := false, declared := None, delivered := [])
    {
      cmp := NO_COMPUTATION;
      result, runError, resultsConsumed := None, false, false;
      declared, delivered := None, [];
    }

    /** StopComputation after its cancel: it fails partway and keeps the lifetime, or
        clears everything and opens the next one. */
    method StopComputation(end: StopEnd) returns (event: Option<AgentEvent>, error: Option<Error>)
      modifies this
      ensures Outcome(View(), event, error) == StopBody(old(View()), end)
      ensures error.Some? ==> View() == old(View()).(notices := notices)
    {
      if end.RunnerRefused? {
        return None, Some(IOError);
      }
      notices := notices + [Stopped(cmp.id)];
      if end.DatasetsKept? || end.ResultsKept? {
        return None, Some(IOError);
      }
      ForgetAlgorithm(end.algoRemoved);
      ForgetRun();
      life, cancelled := life + 1, parentDone;
      return Some(Start), None;
    }
  }

  /** The states of setLifecycleActions, in order. */
  const ACTION_STATES: seq<AgentState> := [ReceivingAlgorithm, ReceivingData, Running, ConsumingResults, Complete, Failed]

  lemma AllActive()
    ensures forall s :: s in ACTION_STATES <==> s in ACTIVE
  {
    var a := ACTION_STATES;
    assert a[0] == ReceivingAlgorithm && a[1] == ReceivingData && a[2] == Running;
    assert a[3] == ConsumingResults && a[4] == Complete && a[5] == Failed;
  }

  lemma ExtendedNext(table: Table, ts: seq<Transition>)
    ensures Extended(table, ts) == if ts == [] then table else Extended(Added(table, ts[0]), ts[1..])
  {
  }

  /** The state machine: its current state, its transitions and, for each state, the
      lifetime captured by the installed action. */
  class StateMachine {
    var currentState: AgentState
    var transitions: Table
    var actions: map<AgentState, nat>

    ghost function View(): Machine
      reads this
    {
      Machine(currentState, transitions, actions)
    }

    constructor ()
      ensures View() == Machine(Idle, map[], map[])
    {
      currentState, transitions, actions := Idle, map[], map[];
    }

    method AddTransition(t: Transition)
      modifies this`transitions
      ensures transitions == Added(old(transitions), t)
    {
      transitions := transitions[(t.from, t.event) := t.to];
    }

    method SetAction(state: AgentState, life: nat)
      modifies this`actions
      ensures actions == old(actions)[state := life]
    {
      actions := actions[state := life];
    }

    method AddTransitions(ts: seq<Transition>)
      modifies this`transitions
      ensures transitions == Extended(old(transitions), ts)
    {
      hide Extended, Added;
      assert ts[0..] == ts;
      for i := 0 to |ts|
        invariant Extended(transitions, ts[i..]) == Extended(old(transitions), ts)
      {
        ExtendedNext(transitions, ts[i..]);
        AddTransition(ts[i]);
        assert ts[i..][1..] == ts[i + 1..];
      }
      ExtendedNext(transitions, []);
    }

    /** setLifecycleActions: every action now carries the lifetime `life`. */
    method SetLifecycleActions(life: nat)
      modifies this`actions
      ensures actions == old(actions) + Bindings(life)
    {
      for i := 0 to |ACTION_STATES|
        invariant actions == old(actions) + map s | s in ACTION_STATES[..i] :: life
      {
        SetAction(ACTION_STATES[i], life);
        assert ACTION_STATES[..i + 1] == ACTION_STATES[..i] + [ACTION_STATES[i]];
      }
      AllActive();
      assert ACTION_STATES[..6] == ACTION_STATES;
    }

    /** Reset moves the state and nothing else: transitions and actions survive. */
    method Reset()
      modifies this`currentState
      ensures currentState == Idle
    {
      currentState := Idle;
    }
  }
}
