/** What the schedule conditions of modules Gate and Runs are worth: from whatever world of a
    run that has kept them, a step that breaks them leads to a request that the runner
    should not get, whenever the machine can still get to Running. */
module Harm {
  import opened Bytes
  import opened Framing
  import opened Agent
  import opened Sections
  import opened Protocol
  import opened Fence
  import opened Routing
  import opened Progress
  import opened Runs
  import opened Gate

  // ----- Runs -----

  /** A run of prompt steps, none of them a commit of an ended lifetime, leads from `w` to `v`. */
  ghost predicate Reaches(h: Hash, w: World, ls: seq<Label>, v: World) {
    Exec(h, w, ls) == v && Orderly(h, w, ls) && Along(h, w, ls, Steady)
  }

  lemma {:induction false} Chain(h: Hash, u: World, a: seq<Label>, v: World, b: seq<Label>, x: World)
    requires Reaches(h, u, a, v) && Reaches(h, v, b, x)
    ensures Reaches(h, u, a + b, x)
    decreases |a|
  {
    hide Step, Prompt, Steady;
    if a == [] {
      assert a + b == b;
    } else {
      assert (a + b)[0] == a[0] && (a + b)[1..] == a[1..] + b;
      Chain(h, Step(h, u, a[0]), a[1..], v, b, x);
    }
  }

  lemma One(h: Hash, w: World, l: Label)
    requires Prompt(h, w, l) && Steady(w, l)
    ensures Reaches(h, w, [l], Step(h, w, l))
  {
    hide Step, Prompt, Steady;
    var v := Step(h, w, l);
    assert Exec(h, v, []) == v && Orderly(h, v, []) && Along(h, v, [], Steady);
    assert [l][1..] == [];
  }

  lemma Then(h: Hash, u: World, a: seq<Label>, v: World, l: Label)
    requires Reaches(h, u, a, v) && Prompt(h, v, l) && Steady(v, l)
    ensures Reaches(h, u, a + [l], Step(h, v, l))
  {
    hide Step, Prompt, Steady, Reaches;
    One(h, v, l);
    Chain(h, u, a, v, [l], Step(h, v, l));
  }

  lemma Stay(h: Hash, w: World)
    ensures Reaches(h, w, [], w)
  {
  }

  // ----- A heading run arrives -----

  /** The machine needs no more than its own steps to run. */
  predicate Heading(w: World) {
    || Task(Running, w.svc.life) in w.tasks
    || Own(w) == Chose(Running)
    || (Own(w).Got? && (w.machine.state, Own(w).event) in w.machine.table
        && w.machine.table[(w.machine.state, Own(w).event)] == Running)
  }

  lemma Arrives(h: Hash, w: World) returns (ls: seq<Label>, v: World)
    requires Sane(w) && Heading(w) && !w.hold.Stopping?
    ensures Reaches(h, w, ls, v)
    ensures v.svc == w.svc && v.issued == w.issued && v.hold == w.hold && Task(Running, w.svc.life) in v.tasks
    ensures Task(Running, w.svc.life) !in w.tasks ==> v.machine.state == Running
  {
    hide Reaches, Dated, Sourced, StepDo, StepInit, StepStop;
    ls, v := [], w;
    Stay(h, w);
    if Task(Running, w.svc.life) !in w.tasks {
      var e := w.svc.life;
      if Own(w).Got? {
        Then(h, w, ls, v, Pick(e));
        ls, v := ls + [Pick(e)], Step(h, v, Pick(e));
      }
      Then(h, w, ls, v, Commit(e));
      ls, v := ls + [Commit(e)], Step(h, v, Commit(e));
    }
  }

  /** InitComputation finishes with its event dropped, and the machine stays where it is. */
  lemma {:induction false} Settles(h: Hash, w: World) returns (ls: seq<Label>, v: World)
    requires w.hold.Filing?
    ensures Reaches(h, w, ls, v)
    ensures v == w.(hold := Free, machine := w.machine.(table := v.machine.table))
    decreases |w.hold.rest|
  {
    hide Reaches, StepDo, StepInit, StepStop, Added;
    if w.hold.rest == [] {
      One(h, w, Finish(false));
      ls, v := [Finish(false)], Step(h, w, Finish(false));
    } else {
      var w1 := Step(h, w, AddTransition);
      One(h, w, AddTransition);
      ls, v := Settles(h, w1);
      Chain(h, w, [AddTransition], w1, ls, v);
      ls := [AddTransition] + ls;
    }
  }

  lemma SettlesOrStays(h: Hash, w: World) returns (ls: seq<Label>, v: World)
    requires !w.hold.Stopping?
    ensures Reaches(h, w, ls, v)
    ensures v == w.(hold := Free, machine := w.machine.(table := v.machine.table))
  {
    hide Reaches;
    if w.hold.Free? {
      Stay(h, w);
      ls, v := [], w;
    } else {
      ls, v := Settles(h, w);
    }
  }

  /** The request that a launch makes of these fields. */
  function Request(s: Service): Issue
    requires s.algoFile.Some?
  {
    Issue(s.life, s.cmp.id, Bundle(s.algoType, s.algoArgs, s.algoFile.value, s.algoRequirements),
          s.cmp.algorithm.hash, s.cmp.datasets)
  }

  lemma LaunchStep(h: Hash, w: World)
    requires w.hold.Free? && Task(Running, w.svc.life) in w.tasks && !w.svc.cancelled && w.svc.algoFile.Some?
    ensures
      var v := Step(h, w, Do(Launch(w.svc.life, Launched), false));
      && v.issued == w.issued + [Request(w.svc)] && v.svc == LaunchBody(w.svc, w.svc.life, Launched).svc
      && v.machine == w.machine && v.loops == w.loops && v.hold == Free
      && v.open == w.open + {|w.issued|} && v.source == w.source && v.tasks == w.tasks - multiset{Task(Running, w.svc.life)}
      && v.tickets == w.tickets
  {
    hide LaunchBody;
  }

  /** A heading machine runs what is stored, whatever the manifest says. */
  lemma HeadingRuns(h: Hash, w: World) returns (ls: seq<Label>, v: World)
    requires Sane(w) && Heading(w) && !w.hold.Stopping? && !w.svc.cancelled && w.svc.algoFile.Some?
    ensures Reaches(h, w, ls, v) && v.issued == w.issued + [Request(w.svc)] && v.svc.life == w.svc.life
    ensures Task(Running, w.svc.life) !in w.tasks ==> v.machine.state == Running
  {
    hide Reaches, Sane, Step;
    var a, u := Arrives(h, w);
    var b, x := SettlesOrStays(h, u);
    Chain(h, w, a, u, b, x);
    var l := Do(Launch(w.svc.life, Launched), false);
    LaunchStep(h, x);
    LaunchLife(x.svc);
    Then(h, w, a + b, x, l);
    ls, v := a + b + [l], Step(h, x, l);
  }

  lemma LaunchLife(s: Service)
    ensures LaunchBody(s, s.life, Launched).svc.life == s.life
  {
  }

  /** Every step that is not prompt and leaves the machine heading for Running, with the
      program on disk, is followed by prompt steps that hand the runner a request it
      should not get. */
  lemma LapseDoesHarm(h: Hash, w: World, l: Label) returns (ls: seq<Label>)
    requires GateInv(h, w) && !Prompt(h, w, l)
    requires
      var v := Step(h, w, l);
      Heading(v) && !v.hold.Stopping? && !v.svc.cancelled && v.svc.algoFile.Some?
    ensures Orderly(h, Step(h, w, l), ls) && !AllGood(h, Exec(h, Step(h, w, l), ls).issued)
  {
    hide Sane, RouteInv, Step, Heading, Prompt, Exec, Orderly, Along;
    var v := Step(h, w, l);
    SaneStep(h, w, l);
    StepRoutes(h, w, l);
    PromptIsExact(h, w, l);
    var x;
    ls, x := HeadingRuns(h, v);
    if AllGood(h, x.issued) {
      GoodMeansMet(h, v, x.issued);
    }
  }

  lemma GoodMeansMet(h: Hash, v: World, issued: seq<Issue>)
    requires v.svc.algoFile.Some? && issued == v.issued + [Request(v.svc)] && AllGood(h, issued)
    ensures Met(StageOf(h, v)) && AllGood(h, v.issued)
  {
    hide Commitment;
    assert Good(h, issued[|v.issued|]);
    forall i | 0 <= i < |v.issued|
      ensures Good(h, v.issued[i])
    {
      assert issued[i] == v.issued[i];
    }
  }

  // ----- A waiting run arrives with its data -----

  lemma Checks(h: Hash, w: World, t: Ticket)
    requires Passes(w.machine.state, t)
    ensures Reaches(h, w, [Check(t)], w.(tickets := w.tickets + multiset{t}))
  {
    hide Reaches, StepDo, StepInit, StepStop;
    One(h, w, Check(t));
  }

  /** The first pending entry is uploaded with its file name. */
  function FirstUpload(s: Service, data: bytes): Work
    requires s.cmp.datasets != []
  {
    Data(DataUpload(data, s.cmp.datasets[0].filename, []), None, true)
  }

  lemma TakesFirst(h: Hash, s: Service, data: bytes)
    requires s.cmp.datasets != [] && !s.cmp.kbs && h(data) == s.cmp.datasets[0].hash
    ensures
      var ds := s.cmp.datasets[1..];
      Perform(h, s, FirstUpload(s, data)) ==
        Outcome(s.(cmp := s.cmp.(datasets := ds), delivered := s.delivered + [Delivery(s.cmp.datasets[0], data)]),
                if ds == [] then Some(DataReceived) else None, None)
  {
    assert Removed(s.cmp.datasets, 0) == s.cmp.datasets[1..];
  }

  lemma UploadsFirst(h: Hash, w: World, data: bytes)
    requires w.machine.state == ReceivingData && w.hold.Free? && w.svc.life in w.loops && w.loops[w.svc.life] == Parked
    requires w.svc.cmp.datasets != [] && !w.svc.cmp.kbs && h(data) == w.svc.cmp.datasets[0].hash
    ensures
      var o := Perform(h, w.svc, FirstUpload(w.svc, data));
      Reaches(h, w, [Check(DataTicket)] + [Do(FirstUpload(w.svc, data), true)], Send(w.(svc := o.svc), o.event, true))
  {
    hide Reaches, StepInit, StepStop, Perform, Send;
    Checks(h, w, DataTicket);
    var v := w.(tickets := w.tickets + multiset{DataTicket});
    assert v.tickets - multiset{DataTicket} == w.tickets;
    Then(h, w, [Check(DataTicket)], v, Do(FirstUpload(w.svc, data), true));
  }

  /** Given bytes for every pending entry, a machine that waits for data gets it all. */
  lemma {:induction false} Delivers(h: Hash, w: World, data: seq<bytes>) returns (ls: seq<Label>, v: World)
    requires w.machine.state == ReceivingData && w.hold.Free? && w.svc.life in w.loops && w.loops[w.svc.life] == Parked
    requires w.svc.cmp.datasets != [] && !w.svc.cmp.kbs && |data| == |w.svc.cmp.datasets|
    requires forall i :: 0 <= i < |data| ==> h(data[i]) == w.svc.cmp.datasets[i].hash
    ensures Reaches(h, w, ls, v)
    ensures v == w.(svc := w.svc.(cmp := w.svc.cmp.(datasets := []), delivered := v.svc.delivered),
                    loops := w.loops[w.svc.life := Got(DataReceived)])
    decreases |data|
  {
    hide Reaches, Perform, Step;
    TakesFirst(h, w.svc, data[0]);
    UploadsFirst(h, w, data[0]);
    ls := [Check(DataTicket)] + [Do(FirstUpload(w.svc, data[0]), true)];
    var o := Perform(h, w.svc, FirstUpload(w.svc, data[0]));
    v := Send(w.(svc := o.svc), o.event, true);
    if |data| > 1 {
      var u, a := v, ls;
      ls, v := Delivers(h, u, data[1..]);
      Chain(h, w, a, u, ls, v);
      ls := a + ls;
    }
  }

  /** The machine waits for data, or needs no more than its own handler to do so. */
  predicate DataBound(w: World) {
    || (w.machine.state == ReceivingData && Own(w) == Parked)
    || Own(w) == Chose(ReceivingData)
    || (Own(w).Got? && (w.machine.state, Own(w).event) in w.machine.table
        && w.machine.table[(w.machine.state, Own(w).event)] == ReceivingData)
  }

  lemma ArrivesForData(h: Hash, w: World) returns (ls: seq<Label>, v: World)
    requires Sane(w) && DataBound(w) && !w.hold.Stopping?
    ensures Reaches(h, w, ls, v)
    ensures v.svc == w.svc && v.issued == w.issued && v.hold == w.hold && v.machine.state == ReceivingData && Own(v) == Parked
  {
    hide Reaches, Dated, Sourced, StepDo, StepInit, StepStop;
    ls, v := [], w;
    Stay(h, w);
    if Own(w) != Parked {
      var e := w.svc.life;
      if Own(w).Got? {
        Then(h, w, ls, v, Pick(e));
        ls, v := ls + [Pick(e)], Step(h, v, Pick(e));
      }
      Then(h, w, ls, v, Commit(e));
      ls, v := ls + [Commit(e)], Step(h, v, Commit(e));
    }
  }

  /** Bytes for every pending entry. */
  predicate Supplies(h: Hash, s: Service, data: seq<bytes>) {
    && |data| == |s.cmp.datasets| > 0 && !s.cmp.kbs
    && forall i :: 0 <= i < |data| ==> h(data[i]) == s.cmp.datasets[i].hash
  }

  /** A machine that waits for data runs what is stored once the data is there. */
  lemma WaitingRuns(h: Hash, w: World, data: seq<bytes>) returns (ls: seq<Label>, v: World)
    requires Sane(w) && RouteInv(w) && DataBound(w) && !w.hold.Stopping? && !w.svc.cancelled && w.svc.algoFile.Some?
    requires Supplies(h, w.svc, data)
    ensures Reaches(h, w, ls, v) && v.svc.life == w.svc.life
    ensures v.issued == w.issued + [Request(w.svc.(cmp := w.svc.cmp.(datasets := [])))]
  {
    hide Reaches, Sane, RouteInv, DataBound, Step;
    var a, u := ArrivesForData(h, w);
    var b, x := SettlesOrStays(h, u);
    Chain(h, w, a, u, b, x);
    var c, y := Delivers(h, x, data);
    Chain(h, w, a + b, x, c, y);
    InvariantReached(h, w, a + b + c, y);
    DeclaredData(w);
    DataRuns(y);
    var d, z := HeadingRuns(h, y);
    Chain(h, w, a + b + c, y, d, z);
    ls, v := a + b + c + d, z;
  }

  lemma DeclaredData(w: World)
    requires RouteInv(w) && w.svc.cmp.datasets != []
    ensures w.svc.declared.Some? && w.svc.declared.value != []
  {
    hide Routed, Basic, Closing, Settled;
  }

  lemma DataBoundNeeds(h: Hash, w: World)
    requires RouteInv(w) && DataBound(w)
    ensures NeedsAlgo(StageOf(h, w))
  {
    hide Basic, Closing, Settled, Listed, Armed;
    if Own(w).Got? {
      RoutesClimb(w, Own(w).event);
    }
  }

  /** The live machine waits for data, with an unfit bundle stored and the data at hand. */
  ghost predicate UnfitForData(h: Hash, w: World, data: seq<bytes>) {
    DataBound(w) && !w.hold.Stopping? && !w.svc.cancelled && !Armed(h, w.svc) && Supplies(h, w.svc, data)
  }

  /** A step that leaves the machine waiting for data with an unfit bundle stored is not
      prompt, and does harm once bytes with the pending hashes are delivered. */
  lemma WaitingLapseDoesHarm(h: Hash, w: World, l: Label, data: seq<bytes>) returns (ls: seq<Label>)
    requires GateInv(h, w)
    ensures UnfitForData(h, Step(h, w, l), data) ==>
      !Prompt(h, w, l) && Orderly(h, Step(h, w, l), ls) && !AllGood(h, Exec(h, Step(h, w, l), ls).issued)
  {
    hide Exec, Orderly, Along, Sane, RouteInv, AllGood, Step, DataBound, Prompt, Supplies;
    var v := Step(h, w, l);
    ls := [];
    if UnfitForData(h, v, data) {
      SaneStep(h, w, l);
      StepRoutes(h, w, l);
      PromptIsExact(h, w, l);
      DataBoundNeeds(h, v);
      var x;
      ls, x := WaitingRuns(h, v, data);
      UnfitIsBad(h, v, x.issued);
    }
  }

  lemma UnfitIsBad(h: Hash, v: World, issued: seq<Issue>)
    requires v.svc.algoFile.Some? && !Armed(h, v.svc)
    requires issued == v.issued + [Request(v.svc.(cmp := v.svc.cmp.(datasets := [])))]
    ensures !AllGood(h, issued)
  {
    hide Commitment;
    assert !Good(h, issued[|v.issued|]);
  }

  lemma InvariantReached(h: Hash, w: World, ls: seq<Label>, v: World)
    requires Sane(w) && RouteInv(w) && Reaches(h, w, ls, v)
    ensures Sane(v) && RouteInv(v)
  {
    hide Sane, RouteInv, Exec;
    SaneExec(h, w, ls);
    ExecRoutes(h, w, ls);
  }

  lemma DataRuns(w: World)
    requires RouteInv(w) && w.hold.Free? && w.svc.declared.Some? && w.svc.declared.value != []
    requires w.machine.state == ReceivingData && Own(w) == Got(DataReceived)
    ensures Heading(w)
  {
    hide Routed;
  }

  // ----- From ReceivingAlgorithm and ReceivingManifest -----

  /** A manifest for the program without bytes. */
  function Manifest(hash: Digest, datasets: seq<Dataset>, remote: bool): Computation {
    Computation([], datasets, Algorithm(hash, remote, [], []), 0, remote)
  }

  lemma BasicExtended(table: Table, datasets: seq<Dataset>)
    requires Basic(table)
    ensures
      var t := Extended(table, TransitionsFor(datasets));
      Basic(t) && Agrees(t, datasets)
    ensures datasets == [] ==> Extended(table, TransitionsFor(datasets)) == Added(table, TransitionsFor(datasets)[0])
    ensures datasets != [] ==>
      Extended(table, TransitionsFor(datasets)) == Added(Added(table, TransitionsFor(datasets)[0]), TransitionsFor(datasets)[1])
  {
    var ts := TransitionsFor(datasets);
    assert Extended(table, ts) == Extended(Added(table, ts[0]), ts[1..]);
    if datasets != [] {
      assert Extended(Added(table, ts[0]), ts[1..]) == Extended(Added(Added(table, ts[0]), ts[1]), ts[1..][1..]);
    }
  }

  /** The event in hand is handled. */
  function AfterHandling(w: World, next: AgentState): World {
    w.(machine := w.machine.(state := next), loops := w.loops[w.svc.life := Parked],
       tasks := if next in w.machine.actions then w.tasks + multiset{Task(next, w.machine.actions[next])} else w.tasks)
  }

  lemma Handles(h: Hash, w: World, event: AgentEvent, next: AgentState)
    requires w.svc.life in w.loops && w.loops[w.svc.life] == Got(event)
    requires (w.machine.state, event) in w.machine.table && w.machine.table[(w.machine.state, event)] == next
    ensures Reaches(h, w, [Pick(w.svc.life)] + [Commit(w.svc.life)], AfterHandling(w, next))
    ensures Reaches(h, w, [Pick(w.svc.life)], w.(loops := w.loops[w.svc.life := Chose(next)]))
  {
    hide Reaches, StepDo, StepInit, StepStop;
    var e := w.svc.life;
    One(h, w, Pick(e));
    var v := Step(h, w, Pick(e));
    Then(h, w, [Pick(e)], v, Commit(e));
    assert v.loops[e := Parked] == w.loops[e := Parked];
  }

  function FilingRun(datasets: seq<Dataset>): seq<Label> {
    (if datasets == [] then [AddTransition] else [AddTransition] + [AddTransition]) + [Finish(true)]
  }

  /** A manifest is accepted and its event delivered. */
  function AfterFiling(w: World, cmp: Computation): World {
    w.(svc := w.svc.(cmp := cmp, declared := Some(cmp.datasets), delivered := []),
       machine := w.machine.(table := Extended(w.machine.table, TransitionsFor(cmp.datasets))),
       tickets := w.tickets - multiset{InitTicket}, loops := w.loops[w.svc.life := Got(ManifestReceived)])
  }

  lemma FilesOn(h: Hash, w: World, datasets: seq<Dataset>)
    requires w.hold == Filing(TransitionsFor(datasets)) && w.svc.life in w.loops && w.loops[w.svc.life] == Parked
    requires Basic(w.machine.table)
    ensures Reaches(h, w, FilingRun(datasets),
      w.(machine := w.machine.(table := Extended(w.machine.table, TransitionsFor(datasets))), hold := Free,
         loops := w.loops[w.svc.life := Got(ManifestReceived)]))
  {
    hide Reaches, StepDo, StepInit, StepStop, Extended, Added;
    BasicExtended(w.machine.table, datasets);
    One(h, w, AddTransition);
    var ls, v := [AddTransition], Step(h, w, AddTransition);
    if datasets != [] {
      Then(h, w, ls, v, AddTransition);
      ls, v := ls + [AddTransition], Step(h, v, AddTransition);
    }
    assert v.hold == Filing([]);
    Then(h, w, ls, v, Finish(true));
  }

  lemma Files(h: Hash, w: World, cmp: Computation)
    requires InitTicket in w.tickets && w.hold.Free? && !w.svc.cancelled && Basic(w.machine.table)
    requires w.svc.life in w.loops && w.loops[w.svc.life] == Parked
    requires w.machine.state == ReceivingManifest && Task(Running, w.svc.life) !in w.tasks
    ensures Reaches(h, w, [Init(cmp)] + FilingRun(cmp.datasets), AfterFiling(w, cmp))
  {
    hide Reaches, StepDo, StepStop, Extended, TransitionsFor, FilingRun;
    One(h, w, Init(cmp));
    var v := Step(h, w, Init(cmp));
    FilesOn(h, v, cmp.datasets);
    Chain(h, w, [Init(cmp)], v, FilingRun(cmp.datasets), AfterFiling(w, cmp));
  }

  /** The scheduled download brings a program, and its event is delivered. */
  function AfterDownload(w: World, program: bytes, requirements: bytes): World {
    w.(svc := Install(Publish(w.svc, ReceivingAlgorithm, InProgress), WantedBundle(w.svc, program, requirements)).svc,
       tasks := w.tasks - multiset{Task(ReceivingAlgorithm, w.svc.life)}, loops := w.loops[w.svc.life := Got(AlgorithmReceived)])
  }

  function Download(life: nat, program: bytes, requirements: bytes): Label {
    Do(FetchAlgorithm(life, AlgorithmFetched(program, requirements, true)), true)
  }

  /** The download is on its way and would bring what the manifest commits to. */
  predicate Fetchable(h: Hash, w: World, program: bytes, requirements: bytes) {
    && Task(ReceivingAlgorithm, w.svc.life) in w.tasks && w.svc.cmp.algorithm.remote && w.svc.cmp.kbs
    && Commitment(h, WantedBundle(w.svc, program, requirements)) == w.svc.cmp.algorithm.hash
  }

  lemma Downloads(h: Hash, w: World, program: bytes, requirements: bytes)
    requires Fetchable(h, w, program, requirements) && w.hold.Free? && !w.svc.cancelled
    requires w.svc.life in w.loops && w.loops[w.svc.life] == Parked
    ensures Reaches(h, w, [Download(w.svc.life, program, requirements)], AfterDownload(w, program, requirements))
  {
    hide Reaches, StepInit, StepStop, Commitment;
    assert w.issued + [] == w.issued;
    One(h, w, Download(w.svc.life, program, requirements));
  }

  /** One more request, of lifetime `life`. */
  predicate OneMore(before: seq<Issue>, after: seq<Issue>, life: nat) {
    |after| == |before| + 1 && after[..|before|] == before && after[|before|].life == life
  }

  predicate Straight(w: World) {
    var key := (ReceivingAlgorithm, AlgorithmReceived);
    key in w.machine.table && w.machine.table[key] == Running
  }

  /** A machine at ReceivingAlgorithm with its download on its way runs what it brings. */
  lemma FetchingRuns(h: Hash, w: World, program: bytes, requirements: bytes) returns (ls: seq<Label>, v: World)
    requires Sane(w) && w.machine.state == ReceivingAlgorithm && Own(w) == Parked && w.hold.Free? && !w.svc.cancelled
    requires Fetchable(h, w, program, requirements) && Straight(w)
    ensures Reaches(h, w, ls, v) && v.svc.life == w.svc.life && OneMore(w.issued, v.issued, w.svc.life)
    ensures Task(Running, w.svc.life) !in w.tasks ==> v.machine.state == Running
  {
    hide Reaches, Sane, Step, Fetchable;
    var l, x := Download(w.svc.life, program, requirements), AfterDownload(w, program, requirements);
    Downloads(h, w, program, requirements);
    StepIs(h, w, l, x);
    SaneStep(h, w, l);
    ls, v := HeadingRuns(h, x);
    Chain(h, w, [l], x, ls, v);
    ls := [l] + ls;
  }

  lemma StepIs(h: Hash, w: World, l: Label, v: World)
    requires Reaches(h, w, [l], v)
    ensures v == Step(h, w, l)
  {
    hide Step, Orderly, Along;
    assert [l][1..] == [];
    assert Exec(h, w, [l]) == Exec(h, Step(h, w, l), []);
  }

  /** The next manifest of a machine back at ReceivingManifest. */
  function NextManifest(h: Hash): Computation {
    Manifest(h([]), [], true)
  }

  /** A machine at ReceivingManifest takes a manifest and runs. */
  lemma ReopenedRuns(h: Hash, w: World) returns (ls: seq<Label>, v: World)
    requires Sane(w) && RouteInv(w) && w.machine.state == ReceivingManifest && Own(w) == Parked && w.hold.Free? && !w.svc.cancelled
    requires Task(Running, w.svc.life) !in w.tasks
    ensures Reaches(h, w, ls, v) && v.svc.life == w.svc.life && OneMore(w.issued, v.issued, w.svc.life)
  {
    hide Reaches, Sane, Step, FilingRun, Extended, TransitionsFor, RouteInv;
    BasicTable(w);
    Checks(h, w, InitTicket);
    var w1 := w.(tickets := w.tickets + multiset{InitTicket});
    Files(h, w1, NextManifest(h));
    var w2 := AfterFiling(w1, NextManifest(h));
    BasicExtended(w.machine.table, []);
    Handles(h, w2, ManifestReceived, ReceivingAlgorithm);
    var w3 := AfterHandling(w2, ReceivingAlgorithm);
    ActionsAreOwn(w, ReceivingAlgorithm);
    HasDownload(w);
    var a, e := [Check(InitTicket)], w.svc.life;
    Chain(h, w, a, w1, [Init(NextManifest(h))] + FilingRun([]), w2);
    a := a + ([Init(NextManifest(h))] + FilingRun([]));
    Chain(h, w, a, w2, [Pick(e)] + [Commit(e)], w3);
    a := a + ([Pick(e)] + [Commit(e)]);
    InvariantReached(h, w, a, w3);
    NextFetchable(h, w3);
    ls, v := FetchingRuns(h, w3, [], []);
    Chain(h, w, a, w3, ls, v);
    ls := a + ls;
  }

  lemma BasicTable(w: World)
    requires RouteInv(w)
    ensures Basic(w.machine.table)
  {
  }

  lemma HasDownload(w: World)
    requires Sane(w)
    ensures ReceivingAlgorithm in w.machine.actions
  {
  }

  lemma NextFetchable(h: Hash, w: World)
    requires w.svc.cmp == NextManifest(h) && Task(ReceivingAlgorithm, w.svc.life) in w.tasks
    ensures Fetchable(h, w, [], [])
  {
    hide Frame;
  }

  // ----- A second request -----

  /** Launches that wait become requests. */
  lemma {:induction false} AllLaunch(h: Hash, w: World) returns (ls: seq<Label>, v: World)
    requires w.hold.Free? && !w.svc.cancelled && w.svc.algoFile.Some? && Launches(w) >= 2
    ensures Reaches(h, w, ls, v) && v.svc.life == w.svc.life && IssuedIn(v.issued, v.svc.life) >= 2
    decreases w.tasks[Task(Running, w.svc.life)]
  {
    hide Reaches, Step, IssuedIn;
    if IssuedIn(w.issued, w.svc.life) >= 2 {
      Stay(h, w);
      ls, v := [], w;
    } else {
      var l := Do(Launch(w.svc.life, Launched), false);
      LaunchStep(h, w);
      LaunchLife(w.svc);
      IssuedInGrows(w.issued, [Request(w.svc)], w.svc.life);
      One(h, w, l);
      var x := Step(h, w, l);
      ls, v := AllLaunch(h, x);
      Chain(h, w, [l], x, ls, v);
      ls := [l] + ls;
    }
  }

  /** A step that is not sparing and leaves two launches, or one and a handler about to
      start another, leads to two requests in the lifetime. */
  lemma LapseRunsTwice(h: Hash, w: World, l: Label) returns (ls: seq<Label>)
    requires RunInv(w) && !Sparing(w, l)
    requires
      var v := Step(h, w, l);
      && !v.hold.Stopping? && !v.svc.cancelled && v.svc.algoFile.Some?
      && (Launches(v) >= 2 || (Launches(v) == 1 && Own(v) == Chose(Running)))
    ensures
      var v := Step(h, w, l);
      Along(h, v, ls, Steady) && IssuedIn(Exec(h, v, ls).issued, v.svc.life) >= 2
  {
    hide Step, Sane, RouteInv, Launches, IssuedIn, Exec, Along, Orderly, Sparing, Single;
    var v := Step(h, w, l);
    SaneStep(h, w, l);
    var a, u := Doubles(h, v);
    var b, x := SettlesOrStays(h, u);
    Chain(h, v, a, u, b, x);
    LaunchesFrame(u, x);
    var c, y := AllLaunch(h, x);
    Chain(h, v, a + b, x, c, y);
    ls := a + b + c;
  }

  lemma LaunchesFrame(u: World, x: World)
    requires x.svc == u.svc && x.tasks == u.tasks && x.issued == u.issued
    ensures Launches(x) == Launches(u)
  {
  }

  lemma Doubles(h: Hash, w: World) returns (ls: seq<Label>, v: World)
    requires Sane(w) && !w.hold.Stopping? && (Launches(w) >= 2 || (Launches(w) == 1 && Own(w) == Chose(Running)))
    ensures Reaches(h, w, ls, v) && v.svc == w.svc && v.hold == w.hold && Launches(v) >= 2
  {
    hide Reaches, Sane, IssuedIn, StepDo, StepInit, StepStop;
    if Launches(w) >= 2 {
      Stay(h, w);
      ls, v := [], w;
    } else {
      var l := Commit(w.svc.life);
      OwnFires(w);
      CommitCounts(w, w.svc.life);
      One(h, w, l);
      ls, v := [l], Step(h, w, l);
    }
  }

  /** The machine is back before Running and can get there again: at ReceivingManifest
      always, at ReceivingAlgorithm if the download brings what the manifest commits to,
      at ReceivingData if what is pending is delivered. */
  predicate Repeatable(h: Hash, w: World, program: bytes, requirements: bytes, data: seq<bytes>) {
    || w.machine.state == ReceivingManifest
    || (w.machine.state == ReceivingAlgorithm && Fetchable(h, w, program, requirements) && Straight(w))
    || (w.machine.state == ReceivingData && w.svc.algoFile.Some? && Supplies(h, w.svc, data))
  }

  /** A step that is not sparing and moves a machine that has run back to where it can
      start again leads to a second request in the lifetime. */
  lemma FallRunsTwice(h: Hash, w: World, l: Label, program: bytes, requirements: bytes, data: seq<bytes>) returns (ls: seq<Label>)
    requires RunInv(w) && !Sparing(w, l) && IssuedIn(w.issued, w.svc.life) == 1
    requires
      var v := Step(h, w, l);
      Own(v) == Parked && v.hold.Free? && !v.svc.cancelled && Repeatable(h, v, program, requirements, data)
    ensures
      var v := Step(h, w, l);
      Along(h, v, ls, Steady) && IssuedIn(Exec(h, v, ls).issued, v.svc.life) == 2
  {
    hide Step, Sane, RouteInv, IssuedIn, Exec, Along, Orderly, Fetchable, Straight, Supplies;
    var v := Step(h, w, l);
    SaneStep(h, w, l);
    StepRoutes(h, w, l);
    StrayKeepsOwn(h, w, l);
    StrayStarts(h, w, l);
    var x;
    if v.machine.state == ReceivingManifest {
      ls, x := ReopenedRuns(h, v);
    } else if v.machine.state == ReceivingAlgorithm {
      ls, x := FetchingRuns(h, v, program, requirements);
    } else {
      ls, x := WaitingRuns(h, v, data);
    }
    assert x.issued == v.issued + [x.issued[|v.issued|]];
    IssuedInGrows(v.issued, [x.issued[|v.issued|]], v.svc.life);
  }

  lemma StrayStarts(h: Hash, w: World, l: Label)
    requires Stray(w, l) && Launches(w) <= 1 && IssuedIn(w.issued, w.svc.life) == 1
    ensures Target(w, l) != Running ==> Task(Running, w.svc.life) !in Step(h, w, l).tasks
  {
    hide StepDo, StepInit, StepStop, IssuedIn;
  }
}
