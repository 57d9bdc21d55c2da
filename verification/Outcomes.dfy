/** Where sections take the machine: what a response, a failure and a collected result
    lead to, what is there when results are offered, and that every computation whose
    parts are supplied can be carried through. */
module Outcomes {
  import opened Bytes
  import opened Framing
  import opened Agent
  import opened Sections
  import opened Decisions
  import opened Protocol
  import opened Fence
  import opened Routing
  import opened Progress
  import opened Gate
  import opened Harm

  // ----- Results are there when they are offered -----

  predicate Offering(s: AgentState) {
    s == ConsumingResults || s == Complete
  }

  /** Where results are offered, and on the way there, a result is stored. */
  predicate Backed(w: World) {
    Offering(w.machine.state) || Own(w) == Got(RunComplete) || (Own(w).Chose? && Offering(Own(w).next)) ==> w.svc.result.Some?
  }

  /** A handler of an ended lifetime moves the machine to where results are offered only
      when there is one. */
  predicate Backing(w: World, l: Label) {
    Stray(w, l) && Offering(Target(w, l)) ==> w.svc.result.Some?
  }

  ghost predicate BackedInv(w: World) {
    Sane(w) && RouteInv(w) && Backed(w)
  }

  lemma ResultStays(h: Hash, w: World, l: Label)
    ensures
      var v := Step(h, w, l);
      v.svc.life == w.svc.life && w.svc.result.Some? ==> v.svc.result.Some?
  {
    hide Perform, Enabled, Requests, Passes, TransitionsFor, Added;
    if l.Do? {
      PerformLife(h, w.svc, l.work);
    }
  }

  lemma CompletionIsBacked(h: Hash, w: World, l: Label)
    requires Sane(w)
    ensures
      var v := Step(h, w, l);
      Own(v) == Got(RunComplete) ==> Own(w) == Got(RunComplete) || v.svc.result.Some?
  {
    hide Perform, Enabled, Requests, NewResult, Passes, TransitionsFor, Added, Signals, Bound, Dated, Sourced;
    if l.Do? {
      PerformLife(h, w.svc, l.work);
      CompletionHasResult(h, w.svc, l.work);
    }
  }

  lemma CompletionHasResult(h: Hash, s: Service, k: Work)
    ensures Perform(h, s, k).event == Some(RunComplete) ==> Perform(h, s, k).svc.result.Some?
  {
    hide Perform, Breaks;
    SectionsSignal(h, s, k);
  }

  /** Exact for every step. */
  lemma BackingIsExact(h: Hash, w: World, l: Label)
    requires BackedInv(w)
    ensures BackedInv(Step(h, w, l)) <==> Backing(w, l)
  {
    hide Sane, RouteInv, Step;
    SaneStep(h, w, l);
    StepRoutes(h, w, l);
    MachineMoves(h, w, l);
    OwnNext(h, w, l);
    ResultStays(h, w, l);
    CompletionIsBacked(h, w, l);
    if Own(w).Got? {
      RoutesClimb(w, Own(w).event);
    }
    if Stray(w, l) {
      StrayKeepsOwn(h, w, l);
    }
  }

  lemma {:induction false} BackedExec(h: Hash, w: World, ls: seq<Label>)
    requires BackedInv(w) && Along(h, w, ls, Backing)
    ensures BackedInv(Exec(h, w, ls))
    decreases |ls|
  {
    hide BackedInv, Step, Backing;
    if ls != [] {
      BackingIsExact(h, w, ls[0]);
      BackedExec(h, Step(h, w, ls[0]), ls[1..]);
    }
  }

  lemma BackedStart(sent: bool)
    ensures BackedInv(Initial(sent))
  {
    hide Sane, RouteInv;
    SaneStart(sent);
    RouteStart(sent);
  }

  /** In every such run, a machine that offers results has one, and the runner gave it in
      answer to a request of this lifetime. */
  lemma ResultsAreThere(h: Hash, sent: bool, ls: seq<Label>)
    ensures
      var w := Exec(h, Initial(sent), ls);
      Along(h, Initial(sent), ls, Backing) && Offering(w.machine.state) ==>
        w.svc.result.Some? && w.source.Some? && w.source.value < |w.issued| && w.issued[w.source.value].life == w.svc.life
  {
    hide Along, Exec, Initial, RouteInv, Bound, Looped, Dated;
    if Along(h, Initial(sent), ls, Backing) {
      BackedStart(sent);
      BackedExec(h, Initial(sent), ls);
    }
  }

  // ----- A section that signals moves the machine -----

  /** The live machine is idle: its handler waits and `mu` is free. */
  predicate AtRest(w: World) {
    Own(w) == Parked && w.hold.Free? && !w.svc.cancelled
  }

  /** The section has run, and its event was delivered and handled. */
  function AfterSignal(h: Hash, w: World, k: Work, next: AgentState): World {
    AfterHandling(Consume(w, k).(svc := Perform(h, w.svc, k).svc), next)
  }

  function Signal(life: nat, k: Work): seq<Label> {
    [Do(k, true)] + ([Pick(life)] + [Commit(life)])
  }

  lemma Signalled(h: Hash, w: World, k: Work, event: AgentEvent, next: AgentState)
    requires AtRest(w) && Enabled(w, k) && Perform(h, w.svc, k).event == Some(event)
    requires Leads(w.machine.table, w.machine.state, event, next)
    ensures Reaches(h, w, Signal(w.svc.life, k), AfterSignal(h, w, k, next))
  {
    hide Reaches, Perform, Enabled, Consume, StepInit, StepStop, NewResult;
    PerformLife(h, w.svc, k);
    ConsumeFrame(w, k);
    One(h, w, Do(k, true));
    var v := Step(h, w, Do(k, true));
    assert v == Consume(w, k).(svc := Perform(h, w.svc, k).svc, loops := w.loops[w.svc.life := Got(event)]);
    Handles(h, v, event, next);
    assert v.loops[w.svc.life := Parked] == w.loops[w.svc.life := Parked];
    assert AfterHandling(v, next) == AfterSignal(h, w, k, next);
    Chain(h, w, [Do(k, true)], v, [Pick(w.svc.life)] + [Commit(w.svc.life)], AfterSignal(h, w, k, next));
  }

  lemma ConsumeFrame(w: World, k: Work)
    ensures
      var v := Consume(w, k);
      v.svc == w.svc && v.machine == w.machine && v.loops == w.loops && v.tickets <= w.tickets && v.hold == w.hold
  {
    hide Requests, NewResult;
  }

  /** The call that `w` waits for, made in this lifetime. */
  predicate Awaits(w: World, call: nat) {
    w.machine.state == Running && call in w.open && call < |w.issued| && w.issued[call].life == w.svc.life
  }

  /** The runner's answer takes a Running machine to ConsumingResults with the results
      stored, or to Failed with the error recorded and the result kept as it was. */
  lemma Answers(h: Hash, w: World, call: nat, results: Option<bytes>, algoRemoved: bool)
    requires AtRest(w) && RouteInv(w) && Awaits(w, call)
    ensures
      var k := Respond(w.svc.life, call, results, algoRemoved);
      var v := Exec(h, w, Signal(w.svc.life, k));
      && AtRest(v) && v.svc.life == w.svc.life && v.issued == w.issued
      && v.svc == Perform(h, w.svc, k).svc
      && (results.Some? ==>
           v.machine.state == ConsumingResults && v.svc.result == results && !v.svc.runError && v.source == Some(call))
      && (results.None? ==>
           v.machine.state == Failed && v.svc.result == w.svc.result && v.svc.runError && v.source == w.source)
  {
    hide Perform, Routed, Basic, Settled, Listed, Exec, Along, Orderly;
    var k := Respond(w.svc.life, call, results, algoRemoved);
    var next := if results.Some? then ConsumingResults else Failed;
    SectionsSignal(h, w.svc, k);
    PerformLife(h, w.svc, k);
    Signalled(h, w, k, if results.Some? then RunComplete else RunFailed, next);
  }

  /** A section that fails the computation takes a machine that is on its way to Failed,
      with the error recorded. */
  lemma FailureIsFinal(h: Hash, w: World, k: Work)
    requires AtRest(w) && RouteInv(w) && Enabled(w, k)
    requires w.machine.state == ReceivingAlgorithm || w.machine.state == ReceivingData || w.machine.state == Running
    ensures Breaks(h, w.svc, k) ==>
      var v := Exec(h, w, Signal(w.svc.life, k));
      AtRest(v) && v.machine.state == Failed && v.svc.runError && v.svc.result == w.svc.result && v.svc.life == w.svc.life
  {
    hide Perform, Routed, Basic, Settled, Listed, Exec, Along, Orderly, Breaks, Enabled, Consume;
    if Breaks(h, w.svc, k) {
      SectionsSignal(h, w.svc, k);
      PerformLife(h, w.svc, k);
      ConsumeFrame(w, k);
      Signalled(h, w, k, RunFailed, Failed);
    }
  }

  /** The first declared consumer to ask takes the machine to Complete. */
  lemma Collects(h: Hash, w: World, index: int)
    requires AtRest(w) && RouteInv(w) && w.machine.state == ConsumingResults
    requires 0 <= index < w.svc.cmp.consumers && !w.svc.resultsConsumed
    ensures
      var ls := [Check(ResultTicket(ConsumingResults))] + Signal(w.svc.life, Result(ConsumingResults, index));
      var v := w.(svc := w.svc.(resultsConsumed := true));
      Reaches(h, w, ls, AfterHandling(v, Complete))
  {
    hide Perform, Routed, Basic, Settled, Listed, Reaches;
    var t := ResultTicket(ConsumingResults);
    var k := Result(ConsumingResults, index);
    Checks(h, w, t);
    var u := w.(tickets := w.tickets + multiset{t});
    CollectSection(h, w.svc, index);
    Signalled(h, u, k, ResultsConsumed, Complete);
    assert u.tickets - multiset{t} == w.tickets;
    Chain(h, w, [Check(t)], u, Signal(w.svc.life, k), AfterSignal(h, u, k, Complete));
  }

  lemma CollectSection(h: Hash, s: Service, index: int)
    requires 0 <= index < s.cmp.consumers && !s.resultsConsumed
    ensures Perform(h, s, Result(ConsumingResults, index)) == Outcome(s.(resultsConsumed := true), Some(ResultsConsumed), None)
  {
    ResultDecides(s, ConsumingResults, index);
  }

  // ----- A computation is carried through -----

  /** A machine at rest that waits for a manifest, with nothing received in this lifetime. */
  ghost predicate Waiting(w: World) {
    && Sane(w) && RouteInv(w) && AtRest(w) && w.machine.state == ReceivingManifest
    && Task(Running, w.svc.life) !in w.tasks && !w.svc.algoReceived && !w.svc.resultsConsumed
  }

  function Wanted(cmp: Computation, program: bytes, requirements: bytes): Bundle {
    Bundle(OrBin(cmp.algorithm.algoType), cmp.algorithm.args, program, requirements)
  }

  /** The program, and the bytes of every dataset, that a manifest for uploads commits to. */
  predicate Supplied(h: Hash, cmp: Computation, program: bytes, requirements: bytes, data: seq<bytes>) {
    && !cmp.kbs && Commitment(h, Wanted(cmp, program, requirements)) == cmp.algorithm.hash
    && |data| == |cmp.datasets| && forall i :: 0 <= i < |data| ==> h(data[i]) == cmp.datasets[i].hash
  }

  /** The manifest is accepted. */
  lemma Opens(h: Hash, w: World, cmp: Computation) returns (ls: seq<Label>, v: World)
    requires Waiting(w)
    ensures Reaches(h, w, ls, v) && Sane(v) && RouteInv(v) && AtRest(v) && v.machine.state == ReceivingAlgorithm
    ensures v.svc == w.svc.(cmp := cmp, declared := Some(cmp.datasets), delivered := [])
    ensures v.issued == w.issued && v.open == w.open
  {
    hide Reaches, Sane, Step, FilingRun, Extended, TransitionsFor, RouteInv;
    BasicTable(w);
    Checks(h, w, InitTicket);
    var w1 := w.(tickets := w.tickets + multiset{InitTicket});
    Files(h, w1, cmp);
    var w2 := AfterFiling(w1, cmp);
    BasicExtended(w.machine.table, cmp.datasets);
    Handles(h, w2, ManifestReceived, ReceivingAlgorithm);
    v := AfterHandling(w2, ReceivingAlgorithm);
    var a, e := [Check(InitTicket)], w.svc.life;
    Chain(h, w, a, w1, [Init(cmp)] + FilingRun(cmp.datasets), w2);
    a := a + ([Init(cmp)] + FilingRun(cmp.datasets));
    Chain(h, w, a, w2, [Pick(e)] + [Commit(e)], v);
    ls := a + ([Pick(e)] + [Commit(e)]);
    InvariantReached(h, w, ls, v);
  }

  lemma RoutesFor(w: World)
    requires RouteInv(w) && w.hold.Free? && w.svc.declared.Some?
    ensures Agrees(w.machine.table, w.svc.declared.value) && Closing(w.machine.table)
  {
    hide Routed, Agrees, Listed, Basic;
  }

  function Upload(cmp: Computation, program: bytes, requirements: bytes): Work {
    Algo(AlgoUpload(program, requirements, cmp.algorithm.algoType, cmp.algorithm.args), None, true)
  }

  lemma UploadSection(h: Hash, s: Service, program: bytes, requirements: bytes)
    requires !s.algoReceived && !s.cmp.kbs && Commitment(h, Wanted(s.cmp, program, requirements)) == s.cmp.algorithm.hash
    ensures Perform(h, s, Upload(s.cmp, program, requirements))
      == Outcome(Stored(s, Wanted(s.cmp, program, requirements)), Some(AlgorithmReceived), None)
  {
    hide AlgoBody, Commitment;
    var k := Upload(s.cmp, program, requirements);
    AlgoDecides(h, s, k.algoUp, None, true);
    assert ProgramOffered(s, k.algoUp, None, program, requirements);
    assert Committed(s, program, requirements) == Wanted(s.cmp, program, requirements);
  }

  /** The program is uploaded: the machine runs, or waits for data if any is declared. */
  lemma TakesProgram(h: Hash, w: World, program: bytes, requirements: bytes) returns (ls: seq<Label>, v: World)
    requires Sane(w) && RouteInv(w) && AtRest(w) && w.machine.state == ReceivingAlgorithm && w.svc.declared == Some(w.svc.cmp.datasets)
    requires !w.svc.algoReceived && !w.svc.cmp.kbs
    requires Commitment(h, Wanted(w.svc.cmp, program, requirements)) == w.svc.cmp.algorithm.hash
    ensures Reaches(h, w, ls, v) && Sane(v) && RouteInv(v) && AtRest(v)
    ensures v.machine.state == if w.svc.cmp.datasets == [] then Running else ReceivingData
    ensures v.svc == Stored(w.svc, Wanted(w.svc.cmp, program, requirements)) && v.issued == w.issued && v.open == w.open
    ensures w.svc.cmp.datasets == [] ==> Task(Running, w.svc.life) in v.tasks
  {
    hide Reaches, Sane, RouteInv, Step, Perform, Commitment;
    var cmp := w.svc.cmp;
    var k := Upload(cmp, program, requirements);
    Checks(h, w, AlgoTicket);
    var u := w.(tickets := w.tickets + multiset{AlgoTicket});
    UploadSection(h, w.svc, program, requirements);
    RoutesFor(w);
    var next := if cmp.datasets == [] then Running else ReceivingData;
    Signalled(h, u, k, AlgorithmReceived, next);
    v := AfterSignal(h, u, k, next);
    ls := [Check(AlgoTicket)] + Signal(w.svc.life, k);
    Chain(h, w, [Check(AlgoTicket)], u, Signal(w.svc.life, k), v);
    InvariantReached(h, w, ls, v);
    RunningIsBound(w);
  }

  lemma RunningIsBound(w: World)
    requires Sane(w) && !w.hold.Stopping?
    ensures Running in w.machine.actions && w.machine.actions[Running] == w.svc.life
  {
    ActionsAreOwn(w, Running);
  }

  /** The data is uploaded: the machine runs. */
  lemma TakesData(h: Hash, w: World, data: seq<bytes>) returns (ls: seq<Label>, v: World)
    requires Sane(w) && RouteInv(w) && AtRest(w) && w.machine.state == ReceivingData && w.svc.declared == Some(w.svc.cmp.datasets)
    requires w.svc.cmp.datasets != [] && !w.svc.cmp.kbs && |data| == |w.svc.cmp.datasets|
    requires forall i :: 0 <= i < |data| ==> h(data[i]) == w.svc.cmp.datasets[i].hash
    ensures Reaches(h, w, ls, v) && Sane(v) && RouteInv(v) && AtRest(v) && v.machine.state == Running
    ensures v.svc == w.svc.(cmp := w.svc.cmp.(datasets := []), delivered := v.svc.delivered)
    ensures v.issued == w.issued && v.open == w.open && Task(Running, w.svc.life) in v.tasks
  {
    hide Reaches, Sane, RouteInv, Step;
    var a, u := Delivers(h, w, data);
    RoutesFor(w);
    Handles(h, u, DataReceived, Running);
    v := AfterHandling(u, Running);
    ls := a + ([Pick(w.svc.life)] + [Commit(w.svc.life)]);
    Chain(h, w, a, u, [Pick(w.svc.life)] + [Commit(w.svc.life)], v);
    InvariantReached(h, w, ls, v);
    RunningIsBound(w);
  }

  /** The request for the stored program goes out. */
  lemma Launches(h: Hash, w: World) returns (ls: seq<Label>, v: World)
    requires Sane(w) && RouteInv(w) && AtRest(w) && w.machine.state == Running
    requires Task(Running, w.svc.life) in w.tasks && w.svc.algoFile.Some?
    ensures Reaches(h, w, ls, v) && Sane(v) && RouteInv(v) && AtRest(v) && v.machine.state == Running
    ensures v.svc == w.svc.(notices := v.svc.notices)
    ensures v.issued == w.issued + [Request(w.svc)] && Awaits(v, |w.issued|)
  {
    hide Reaches, Sane, RouteInv, Step, LaunchBody;
    var l := Do(Work.Launch(w.svc.life, Launched), false);
    LaunchStep(h, w);
    LaunchDecides(w.svc, w.svc.life, Launched);
    One(h, w, l);
    ls, v := [l], Step(h, w, l);
    InvariantReached(h, w, ls, v);
  }

  lemma ReachesRunning(h: Hash, w: World, cmp: Computation, program: bytes, requirements: bytes, data: seq<bytes>)
    returns (ls: seq<Label>, v: World)
    requires Waiting(w) && Supplied(h, cmp, program, requirements, data)
    ensures Reaches(h, w, ls, v) && Sane(v) && RouteInv(v) && AtRest(v) && v.svc.life == w.svc.life
    ensures v.issued == w.issued + [Issue(w.svc.life, cmp.id, Wanted(cmp, program, requirements), cmp.algorithm.hash, [])]
    ensures Awaits(v, |w.issued|)
    ensures v.svc.cmp == cmp.(datasets := []) && v.svc.declared == Some(cmp.datasets) && !v.svc.resultsConsumed
  {
    hide Reaches, Sane, RouteInv, Step, Commitment, AtRest, Awaits;
    var a, w1 := Opens(h, w, cmp);
    var b, w2 := TakesProgram(h, w1, program, requirements);
    Chain(h, w, a, w1, b, w2);
    ls := a + b;
    var w3 := w2;
    if cmp.datasets != [] {
      var c;
      c, w3 := TakesData(h, w2, data);
      Chain(h, w, ls, w2, c, w3);
      ls := ls + c;
    }
    var d;
    d, v := Launches(h, w3);
    Chain(h, w, ls, w3, d, v);
    ls := ls + d;
  }

  /** From every machine that waits for a manifest: for every manifest for uploads, every
      program and data that it commits to, every result of the runner and every declared
      consumer, there is a run that makes one request, for that program, with no data
      pending, and ends in Complete with that result. */
  lemma CarriedThrough(h: Hash, w: World, cmp: Computation, program: bytes, requirements: bytes, data: seq<bytes>,
                       results: bytes, consumer: nat) returns (ls: seq<Label>)
    requires Waiting(w) && Supplied(h, cmp, program, requirements, data) && consumer < cmp.consumers
    ensures
      var v := Exec(h, w, ls);
      && v.machine.state == Complete && v.svc.life == w.svc.life
      && v.svc.result == Some(results) && !v.svc.runError && v.source == Some(|w.issued|)
      && v.issued == w.issued + [Issue(w.svc.life, cmp.id, Wanted(cmp, program, requirements), cmp.algorithm.hash, [])]
      && v.svc.declared == Some(cmp.datasets) && v.svc.cmp.datasets == []
  {
    hide Reaches, Sane, RouteInv, Step, Commitment, Exec, Wanted, Supplied, Waiting, Perform;
    var a, u := ReachesRunning(h, w, cmp, program, requirements, data);
    var k := Respond(w.svc.life, |w.issued|, Some(results), false);
    Answers(h, u, |w.issued|, Some(results), false);
    var b := Signal(w.svc.life, k);
    var x := Exec(h, u, b);
    ResponseSection(h, u.svc, k);
    ExecRoutes(h, u, b);
    Collects(h, x, consumer);
    var c := [Check(ResultTicket(ConsumingResults))] + Signal(w.svc.life, Result(ConsumingResults, consumer));
    ls := a + b + c;
    ExecSplits(h, w, a + b, c);
    ExecSplits(h, w, a, b);
    Ends(h, w, a, u);
    Ends(h, x, c, AfterHandling(x.(svc := x.svc.(resultsConsumed := true)), Complete));
  }

  lemma Ends(h: Hash, w: World, ls: seq<Label>, v: World)
    requires Reaches(h, w, ls, v)
    ensures Exec(h, w, ls) == v
  {
    hide Exec, Along, Orderly;
  }

  lemma ResponseSection(h: Hash, s: Service, k: Work)
    requires k.Respond? && Live(s, k.life)
    ensures
      var t := Perform(h, s, k).svc;
      t == s.(algoFile := t.algoFile, result := t.result, runError := t.runError, notices := t.notices)
  {
    hide RespondBody;
    ResponseDecides(s, k.life, k.results, k.algoRemoved);
  }

  /** The first lifetime waits for its manifest once Start is handled. */
  lemma FirstWaits(h: Hash) returns (w: World)
    ensures Reaches(h, Initial(true), [Pick(0)] + [Commit(0)], w) && Waiting(w) && w.issued == []
  {
    hide Reaches, Sane, RouteInv, Step;
    var u := Initial(true);
    SaneStart(true);
    RouteStart(true);
    Handles(h, u, Start, ReceivingManifest);
    w := AfterHandling(u, ReceivingManifest);
    InvariantReached(h, u, [Pick(0)] + [Commit(0)], w);
  }

  // ----- Results offered without one -----

  /** A handler that has chosen to offer results and is overtaken by a stop offers them in
      the next lifetime, which has none. */
  lemma StaleOffer(h: Hash, w: World)
    requires Own(w).Chose? && Offering(Own(w).next) && w.hold.Free?
    ensures
      var v := Exec(h, w, [Cancel] + ([Stop(Cleared(true))] + [Commit(w.svc.life)]));
      Offering(v.machine.state) && v.svc.result == None && v.svc.life == w.svc.life + 1
  {
    hide StepDo, StepInit, Offering;
    var a := Step(h, w, Cancel);
    var b := Step(h, a, Stop(Cleared(true)));
    var c := Step(h, b, Commit(w.svc.life));
    assert c.svc.result == None && c.svc.life == w.svc.life + 1 && c.machine.state == Own(w).next;
    hide Step;
    ExecSplits(h, w, [Cancel], [Stop(Cleared(true))] + [Commit(w.svc.life)]);
    ExecSplits(h, a, [Stop(Cleared(true))], [Commit(w.svc.life)]);
    SingleStep(h, w, Cancel);
    SingleStep(h, a, Stop(Cleared(true)));
    SingleStep(h, b, Commit(w.svc.life));
  }

  lemma SingleStep(h: Hash, w: World, l: Label)
    ensures Exec(h, w, [l]) == Step(h, w, l)
  {
    hide Step;
    assert [l][1..] == [];
    assert Exec(h, Step(h, w, l), []) == Step(h, w, l);
  }

  /** Such a run exists for every hash function. */
  lemma OfferWithoutResult(h: Hash) returns (ls: seq<Label>)
    ensures
      var v := Exec(h, Initial(true), ls);
      Offering(v.machine.state) && v.svc.result == None
  {
    hide Reaches, Sane, RouteInv, Step, Exec, Waiting, Commitment, Initial, Perform;
    var w := FirstWaits(h);
    var cmp := Manifest(h([]), [], false);
    EmptyProgram(h);
    var a, u := ReachesRunning(h, w, cmp, [], [], []);
    var k := Respond(u.svc.life, |w.issued|, Some([]), false);
    var b, x := AnswerChosen(h, u, k);
    var c := [Cancel] + ([Stop(Cleared(true))] + [Commit(x.svc.life)]);
    StaleOffer(h, x);
    var first := [Pick(0)] + [Commit(0)];
    Chain(h, Initial(true), first, w, a, u);
    Chain(h, Initial(true), first + a, u, b, x);
    Ends(h, Initial(true), first + a + b, x);
    ExecSplits(h, Initial(true), first + a + b, c);
    ls := first + a + b + c;
  }

  lemma EmptyProgram(h: Hash)
    ensures Supplied(h, Manifest(h([]), [], false), [], [], [])
  {
    hide Frame;
  }

  lemma AnswerChosen(h: Hash, w: World, k: Work) returns (ls: seq<Label>, v: World)
    requires AtRest(w) && RouteInv(w) && k.Respond? && Awaits(w, k.call) && k.life == w.svc.life && k.results.Some?
    ensures Reaches(h, w, ls, v) && Own(v) == Chose(ConsumingResults) && v.hold.Free?
  {
    hide Reaches, Perform, Consume, StepInit, StepStop, Routed, Basic, Settled, Listed, Breaks;
    SectionsSignal(h, w.svc, k);
    PerformLife(h, w.svc, k);
    ConsumeFrame(w, k);
    One(h, w, Do(k, true));
    var u := Step(h, w, Do(k, true));
    Handles(h, u, RunComplete, ConsumingResults);
    v := u.(loops := u.loops[u.svc.life := Chose(ConsumingResults)]);
    ls := [Do(k, true)] + [Pick(u.svc.life)];
    Chain(h, w, [Do(k, true)], u, [Pick(u.svc.life)], v);
  }

  // ----- A handler that is gone -----

  /** The handler of the current lifetime has returned. */
  predicate Gone(w: World) {
    w.svc.life in w.loops && w.loops[w.svc.life] == Exited && !w.hold.Stopping?
  }

  lemma GoneStays(h: Hash, w: World, l: Label)
    requires Sane(w) && Gone(w)
    ensures
      var v := Step(h, w, l);
      v.svc.life == w.svc.life ==> Gone(v) && (Steady(w, l) ==> v.machine.state == w.machine.state)
  {
    hide Step, Sane;
    MachineMoves(h, w, l);
    if l.Do? {
      GoneWorks(h, w, l.work, l.sent);
    } else {
      GoneElse(h, w, l);
    }
  }

  lemma GoneWorks(h: Hash, w: World, k: Work, sent: bool)
    requires Gone(w)
    ensures Gone(Step(h, w, Do(k, sent)))
  {
    hide Perform, Enabled, Consume, NewResult, StepInit, StepStop;
    PerformLife(h, w.svc, k);
    ConsumeFrame(w, k);
  }

  lemma GoneElse(h: Hash, w: World, l: Label)
    requires Sane(w) && Gone(w) && !l.Do?
    ensures Step(h, w, l).svc.life == w.svc.life ==> Gone(Step(h, w, l))
  {
    hide StepDo, Passes, TransitionsFor, Added, Bound, Dated, Sourced;
  }

  lemma {:induction false} LifeGrows(h: Hash, w: World, ls: seq<Label>)
    ensures Exec(h, w, ls).svc.life >= w.svc.life
    decreases |ls|
  {
    hide Step;
    if ls != [] {
      MachineMoves(h, w, ls[0]);
      LifeGrows(h, Step(h, w, ls[0]), ls[1..]);
    }
  }

  /** Without its handler the machine stays where it is for the rest of the lifetime. */
  lemma {:induction false} NoHandlerNoMove(h: Hash, w: World, ls: seq<Label>)
    requires Sane(w) && Gone(w) && Along(h, w, ls, Steady)
    ensures
      var v := Exec(h, w, ls);
      v.svc.life == w.svc.life ==> Gone(v) && v.machine.state == w.machine.state
    decreases |ls|
  {
    hide Step, Sane, Gone, Steady;
    if ls != [] {
      var u := Step(h, w, ls[0]);
      GoneStays(h, w, ls[0]);
      SaneStep(h, w, ls[0]);
      MachineMoves(h, w, ls[0]);
      LifeGrows(h, u, ls[1..]);
      if u.svc.life == w.svc.life {
        NoHandlerNoMove(h, u, ls[1..]);
      }
    }
  }

  /** A failure that comes in when the machine is past its run has no transition: its event
      ends the handler. From then on no consumer moves the machine, whatever the run. */
  lemma LateFailureStrands(h: Hash, w: World, k: Work, ls: seq<Label>)
    requires AtRest(w) && Sane(w) && RouteInv(w) && Enabled(w, k)
    requires w.machine.state == ConsumingResults || w.machine.state == Complete || w.machine.state == Failed
    ensures
      var u := Step(h, Step(h, w, Do(k, true)), Pick(w.svc.life));
      var v := Exec(h, u, ls);
      Breaks(h, w.svc, k) && Along(h, u, ls, Steady) && v.svc.life == w.svc.life ==> v.machine.state == w.machine.state
  {
    hide Perform, Enabled, Consume, StepInit, StepStop, Breaks, Exec, Along, Sane, RouteInv;
    if Breaks(h, w.svc, k) {
      SectionsSignal(h, w.svc, k);
      PerformLife(h, w.svc, k);
      ConsumeFrame(w, k);
      NoRouteForFailure(w);
      var x := Step(h, w, Do(k, true));
      assert x.loops == w.loops[w.svc.life := Got(RunFailed)] && x.machine == w.machine && x.svc.life == w.svc.life;
      var u := Step(h, x, Pick(w.svc.life));
      SaneStep(h, w, Do(k, true));
      SaneStep(h, x, Pick(w.svc.life));
      assert Gone(u) && u.machine.state == w.machine.state && u.svc.life == w.svc.life;
      if Along(h, u, ls, Steady) {
        NoHandlerNoMove(h, u, ls);
      }
    }
  }

  lemma NoRouteForFailure(w: World)
    requires RouteInv(w) && (w.machine.state == ConsumingResults || w.machine.state == Complete || w.machine.state == Failed)
    ensures (w.machine.state, RunFailed) !in w.machine.table
  {
    RoutesClimb(w, RunFailed);
  }

  // ----- Events and handlers -----

  /** An event sent while the handler is busy or gone is lost. */
  lemma EventLost(h: Hash, w: World, k: Work, sent: bool)
    requires Own(w) != Parked
    ensures Step(h, w, Do(k, sent)).loops == w.loops
  {
    hide Perform, Enabled, Consume, NewResult, StepInit, StepStop;
    PerformLife(h, w.svc, k);
    ConsumeFrame(w, k);
  }

  /** A waiting handler returns on its own exactly when its lifetime has ended or is
      cancelled. */
  lemma HandlerReturns(h: Hash, w: World, loop: nat)
    requires loop in w.loops && w.loops[loop] == Parked
    ensures loop in Step(h, w, LoopReturns(loop)).loops
    ensures Step(h, w, LoopReturns(loop)).loops[loop] == Exited <==> loop != w.svc.life || w.svc.cancelled
  {
    hide StepDo, StepInit, StepStop;
  }

  // ----- State checks -----

  /** Each request gets past its state check in its own states only. */
  lemma ChecksDecide(h: Hash, w: World, seen: AgentState)
    ensures Step(h, w, Check(InitTicket)) != w <==> w.machine.state == ReceivingManifest
    ensures Step(h, w, Check(AlgoTicket)) != w <==> w.machine.state == ReceivingAlgorithm
    ensures Step(h, w, Check(DataTicket)) != w <==> w.machine.state == ReceivingData
    ensures Step(h, w, Check(ResultTicket(seen))) != w <==>
      seen == w.machine.state && (seen == ConsumingResults || seen == Complete || seen == Failed)
  {
    hide StepDo, StepInit, StepStop;
    More(w.tickets, InitTicket);
    More(w.tickets, AlgoTicket);
    More(w.tickets, DataTicket);
    More(w.tickets, ResultTicket(seen));
  }

  lemma More(tickets: multiset<Ticket>, t: Ticket)
    ensures tickets + multiset{t} != tickets
  {
    assert (tickets + multiset{t})[t] == tickets[t] + 1;
  }
}
