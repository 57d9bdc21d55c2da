/** The locks of the source allow steps that break the schedule conditions of modules Gate
    and Runs: three runs from the very first world. */
module Races {
  import opened Bytes
  import opened Framing
  import opened Agent
  import opened Sections
  import opened Protocol
  import opened Fence
  import opened Routing
  import opened Progress
  import opened Runs
  import opened Gate
  import opened Harm

  // ----- Stretches of a run -----

  const PENDING: seq<Dataset> := [Dataset(EMPTY_DIGEST, [], false, false)]
  const UPLOAD: Work := Algo(AlgoUpload([], [], [], []), None, true)

  /** The program without bytes is uploaded, and the event delivered. */
  function AfterUpload(w: World): World {
    w.(svc := w.svc.(algoFile := Some([]), algoReceived := true, algoRequirements := [], algoType := BIN, algoArgs := []),
       loops := w.loops[w.svc.life := Got(AlgorithmReceived)])
  }

  lemma Uploads(h: Hash, w: World, datasets: seq<Dataset>)
    requires w.machine.state == ReceivingAlgorithm && w.svc.life in w.loops && w.loops[w.svc.life] == Parked && w.hold.Free?
    requires w.svc.cmp == Manifest(h([]), datasets, false) && !w.svc.algoReceived
    ensures Reaches(h, w, [Check(AlgoTicket)] + [Do(UPLOAD, true)], AfterUpload(w))
  {
    hide Reaches, StepInit, StepStop, Frame;
    Checks(h, w, AlgoTicket);
    var v := w.(tickets := w.tickets + multiset{AlgoTicket});
    assert AlgoBody(h, v.svc, AlgoUpload([], [], [], []), None, true) == Install(v.svc, Bundle(BIN, [], [], []));
    assert v.tickets - multiset{AlgoTicket} == w.tickets;
    Then(h, w, [Check(AlgoTicket)], v, Do(UPLOAD, true));
  }

  const BIND: seq<Label> := [SetAction(ReceivingAlgorithm)] + [SetAction(ReceivingData)] + [SetAction(Running)]
    + [SetAction(ConsumingResults)] + [SetAction(Complete)] + [SetAction(Failed)]

  lemma BindsOne(h: Hash, u: World, a: seq<Label>, w: World, s: AgentState)
    requires Reaches(h, u, a, w) && w.hold.Stopping? && s in w.hold.left
    ensures Reaches(h, u, a + [SetAction(s)],
      w.(machine := w.machine.(actions := w.machine.actions[s := w.svc.life]), hold := Stopping(w.hold.left - {s})))
  {
    hide Reaches, StepDo, StepInit, StepStop;
    Then(h, u, a, w, SetAction(s));
  }

  lemma Binds(h: Hash, w: World)
    requires w.hold == Stopping(ACTIVE) && w.machine.actions.Keys == ACTIVE
    ensures Reaches(h, w, BIND, w.(machine := w.machine.(actions := Bindings(w.svc.life)), hold := Stopping({})))
  {
    hide Reaches;
    var e, m := w.svc.life, w.machine.actions;
    Stay(h, w);
    BindsOne(h, w, [], w, ReceivingAlgorithm);
    assert [] + [SetAction(ReceivingAlgorithm)] == [SetAction(ReceivingAlgorithm)];
    var ls, v := [SetAction(ReceivingAlgorithm)], BoundTo(w, ReceivingAlgorithm);
    BindsOne(h, w, ls, v, ReceivingData);
    ls, v := ls + [SetAction(ReceivingData)], BoundTo(v, ReceivingData);
    BindsOne(h, w, ls, v, Running);
    ls, v := ls + [SetAction(Running)], BoundTo(v, Running);
    BindsOne(h, w, ls, v, ConsumingResults);
    ls, v := ls + [SetAction(ConsumingResults)], BoundTo(v, ConsumingResults);
    BindsOne(h, w, ls, v, Complete);
    ls, v := ls + [SetAction(Complete)], BoundTo(v, Complete);
    BindsOne(h, w, ls, v, Failed);
    ls, v := ls + [SetAction(Failed)], BoundTo(v, Failed);
    assert v.machine.actions == Bindings(e);
    assert v.hold.left == {};
  }

  function BoundTo(w: World, s: AgentState): World
    requires w.hold.Stopping?
  {
    w.(machine := w.machine.(actions := w.machine.actions[s := w.svc.life]), hold := Stopping(w.hold.left - {s}))
  }

  /** A full stop, with the Start event of the next lifetime delivered. */
  function AfterRestart(w: World): World {
    var life := w.svc.life + 1;
    World(INITIAL.(life := life, notices := w.svc.notices + [Stopped(w.svc.cmp.id)]),
          Machine(Idle, w.machine.table, Bindings(life)), w.loops[life := Got(Start)], w.tasks, w.issued, w.open, None,
          w.tickets, Free)
  }

  const RESTART: seq<Label> := [Cancel] + [Stop(Cleared(true))] + BIND + [Finish(true)]

  lemma Restarts(h: Hash, w: World)
    requires w.hold.Free? && !w.svc.parentDone && w.machine.actions.Keys == ACTIVE
    ensures Reaches(h, w, RESTART, AfterRestart(w))
  {
    hide Reaches, StepDo, StepInit, Bindings;
    One(h, w, Cancel);
    var w1 := Step(h, w, Cancel);
    Then(h, w, [Cancel], w1, Stop(Cleared(true)));
    var w2 := Step(h, w1, Stop(Cleared(true)));
    Binds(h, w2);
    var w3 := w2.(machine := w2.machine.(actions := Bindings(w2.svc.life)), hold := Stopping({}));
    Chain(h, w, [Cancel] + [Stop(Cleared(true))], w2, BIND, w3);
    Then(h, w, [Cancel] + [Stop(Cleared(true))] + BIND, w3, Finish(true));
    assert w3.loops[w3.svc.life := Parked][w3.svc.life := Got(Start)] == w3.loops[w3.svc.life := Got(Start)];
  }

  // ----- Three schedules -----

  function Table1(datasets: seq<Dataset>): Table {
    Extended(BASE, TransitionsFor(datasets))
  }

  /** A manifest is awaited, and two InitComputation checks have passed. */
  function Awaiting(): World {
    World(INITIAL, Machine(ReceivingManifest, BASE, Bindings(0)), map[0 := Parked], multiset{}, [], {}, None,
          multiset{InitTicket, InitTicket}, Free)
  }

  const AWAIT: seq<Label> := [Pick(0)] + [Commit(0)] + [Check(InitTicket)] + [Check(InitTicket)]

  lemma Awaits(h: Hash)
    ensures Reaches(h, Initial(true), AWAIT, Awaiting())
  {
    hide Reaches, Step;
    var w0 := Initial(true);
    assert w0.loops == map[0 := Got(Start)];
    Handles(h, w0, Start, ReceivingManifest);
    var w1 := AfterHandling(w0, ReceivingManifest);
    Checks(h, w1, InitTicket);
    var w2 := w1.(tickets := w1.tickets + multiset{InitTicket});
    Checks(h, w2, InitTicket);
    assert w2.(tickets := w2.tickets + multiset{InitTicket}) == Awaiting();
    Chain(h, w0, [Pick(0)] + [Commit(0)], w1, [Check(InitTicket)], w2);
    Chain(h, w0, [Pick(0)] + [Commit(0)] + [Check(InitTicket)], w2, [Check(InitTicket)], Awaiting());
  }

  /** The first manifest is in and its event in hand. */
  function FirstFiled(cmp: Computation): World {
    World(INITIAL.(cmp := cmp, declared := Some(cmp.datasets)), Machine(ReceivingManifest, Table1(cmp.datasets), Bindings(0)),
          map[0 := Got(ManifestReceived)], multiset{}, [], {}, None, multiset{InitTicket}, Free)
  }

  function FirstFiling(cmp: Computation): seq<Label> {
    AWAIT + ([Init(cmp)] + FilingRun(cmp.datasets))
  }

  lemma FirstFiles(h: Hash, cmp: Computation)
    ensures Reaches(h, Initial(true), FirstFiling(cmp), FirstFiled(cmp))
  {
    hide Reaches, Step, Initial, FilingRun, Extended, TransitionsFor, Bindings;
    Awaits(h);
    var w := Awaiting();
    Files(h, w, cmp);
    assert AfterFiling(w, cmp) == FirstFiled(cmp);
    Chain(h, Initial(true), AWAIT, w, [Init(cmp)] + FilingRun(cmp.datasets), FirstFiled(cmp));
  }

  /** The upload is in and its event picked up, but not yet committed. */
  function Poised(h: Hash): World {
    var cmp := Manifest(h([]), [], false);
    World(INITIAL.(cmp := cmp, declared := Some([]), algoFile := Some([]), algoReceived := true, algoType := BIN),
          Machine(ReceivingAlgorithm, Table1([]), Bindings(0)), map[0 := Chose(Running)], multiset{Task(ReceivingAlgorithm, 0)},
          [], {}, None, multiset{InitTicket}, Free)
  }

  function FirstOpened(cmp: Computation): World {
    FirstFiled(cmp).(machine := Machine(ReceivingAlgorithm, Table1(cmp.datasets), Bindings(0)), loops := map[0 := Parked],
                     tasks := multiset{Task(ReceivingAlgorithm, 0)})
  }

  lemma FirstOpens(h: Hash, cmp: Computation)
    ensures Reaches(h, FirstFiled(cmp), [Pick(0)] + [Commit(0)], FirstOpened(cmp))
  {
    hide Reaches, Step, Extended, TransitionsFor;
    BasicExtended(BASE, cmp.datasets);
    Handles(h, FirstFiled(cmp), ManifestReceived, ReceivingAlgorithm);
    assert AfterHandling(FirstFiled(cmp), ReceivingAlgorithm) == FirstOpened(cmp);
  }

  lemma Poises(h: Hash) returns (ls: seq<Label>)
    ensures Reaches(h, Initial(true), ls, Poised(h))
  {
    hide Reaches, Step, Initial, FirstFiling, Extended, FirstFiled;
    var w0, cmp := Initial(true), Manifest(h([]), [], false);
    BasicExtended(BASE, []);
    FirstFiles(h, cmp);
    var w1 := FirstFiled(cmp);
    FirstOpens(h, cmp);
    var w2 := FirstOpened(cmp);
    PoisedIs(h);
    Uploads(h, w2, []);
    var w3 := AfterUpload(w2);
    Handles(h, w3, AlgorithmReceived, Running);
    assert w3.loops[0 := Chose(Running)] == map[0 := Chose(Running)];
    Chain(h, w0, FirstFiling(cmp), w1, [Pick(0)] + [Commit(0)], w2);
    ls := FirstFiling(cmp) + ([Pick(0)] + [Commit(0)]);
    Chain(h, w0, ls, w2, [Check(AlgoTicket)] + [Do(UPLOAD, true)], w3);
    ls := ls + ([Check(AlgoTicket)] + [Do(UPLOAD, true)]);
    Chain(h, w0, ls, w3, [Pick(0)], Poised(h));
    ls := ls + [Pick(0)];
  }

  lemma PoisedIs(h: Hash)
    ensures
      var cmp := Manifest(h([]), [], false);
      && Poised(h) == AfterUpload(FirstOpened(cmp)).(loops := map[0 := Chose(Running)])
      && FirstOpened(cmp).svc == INITIAL.(cmp := cmp, declared := Some([]))
  {
  }

  lemma SaneWhenReached(h: Hash, ls: seq<Label>, w: World)
    requires Reaches(h, Initial(true), ls, w)
    ensures Sane(w)
  {
    hide Exec, Orderly, Along, Sane, Initial;
    SaneStart(true);
    SaneExec(h, Initial(true), ls);
  }

  /** A second InitComputation whose check passed before the first one ran replaces the
      manifest behind the back of an accepted algorithm. With that one late section
      between two orderly runs, and whatever hash the new manifest declares, the runner is
      asked to execute the bundle of the manifest before it, with the new one's dataset
      pending. */
  lemma OvertakenManifest(h: Hash, wanted: Digest)
    ensures exists a: seq<Label>, cmp: Computation, b: seq<Label> ::
      var v := Step(h, Exec(h, Initial(true), a), Init(cmp));
      && Orderly(h, Initial(true), a) && Orderly(h, v, b)
      && Exec(h, v, b).issued == [Issue(0, [], Bundle(BIN, [], [], []), wanted, PENDING)]
  {
    hide Orderly, Along, Exec, Initial, Sane, Extended, TransitionsFor, Bindings, StepDo, StepStop;
    var a := Poises(h);
    var w, cmp := Poised(h), Manifest(wanted, PENDING, false);
    SaneWhenReached(h, a, w);
    SaneStep(h, w, Init(cmp));
    var v := Step(h, w, Init(cmp));
    var b, x := HeadingRuns(h, v);
    assert [] + [Request(v.svc)] == [Request(v.svc)];
  }

  /** The next lifetime awaits a manifest, beside the stalled handler of the first. */
  function Renewed(w: World): World {
    AfterHandling(AfterRestart(w), ReceivingManifest)
  }

  const RENEW: seq<Label> := RESTART + ([Pick(1)] + [Commit(1)])

  lemma Renews(h: Hash, w: World)
    requires w.svc.life == 0 && w.hold.Free? && !w.svc.parentDone && w.machine.actions.Keys == ACTIVE && Basic(w.machine.table)
    ensures Reaches(h, w, RENEW, Renewed(w))
  {
    hide Reaches, Step;
    Restarts(h, w);
    var v := AfterRestart(w);
    Handles(h, v, Start, ReceivingManifest);
    Chain(h, w, RESTART, v, [Pick(1)] + [Commit(1)], Renewed(w));
  }

  /** The second computation, up to ReceivingAlgorithm. */
  function Reopened(w: World, cmp: Computation): World {
    AfterHandling(AfterFiling(Renewed(w), cmp), ReceivingAlgorithm)
  }

  lemma ReopenedShape(w: World, cmp: Computation)
    requires w.svc.life == 0
    ensures Reopened(w, cmp) ==
      World(INITIAL.(life := 1, notices := w.svc.notices + [Stopped(w.svc.cmp.id)], cmp := cmp, declared := Some(cmp.datasets)),
            Machine(ReceivingAlgorithm, Extended(w.machine.table, TransitionsFor(cmp.datasets)), Bindings(1)),
            w.loops[1 := Parked], w.tasks + multiset{Task(ReceivingAlgorithm, 1)}, w.issued, w.open, None,
            w.tickets - multiset{InitTicket}, Free)
  {
    hide Extended, TransitionsFor, Renewed;
    RenewedShape(w);
    assert w.loops[1 := Parked][1 := Got(ManifestReceived)][1 := Parked] == w.loops[1 := Parked];
  }

  lemma RenewedShape(w: World)
    requires w.svc.life == 0
    ensures Renewed(w) ==
      World(INITIAL.(life := 1, notices := w.svc.notices + [Stopped(w.svc.cmp.id)]),
            Machine(ReceivingManifest, w.machine.table, Bindings(1)), w.loops[1 := Parked], w.tasks, w.issued, w.open, None,
            w.tickets, Free)
  {
    assert w.loops[1 := Got(Start)][1 := Parked] == w.loops[1 := Parked];
  }

  function Reopening(cmp: Computation): seq<Label> {
    RENEW + ([Init(cmp)] + FilingRun(cmp.datasets)) + ([Pick(1)] + [Commit(1)])
  }

  lemma Reopens(h: Hash, w: World, cmp: Computation)
    requires w.svc.life == 0 && w.hold.Free? && !w.svc.parentDone && w.machine.actions.Keys == ACTIVE && Basic(w.machine.table)
    requires InitTicket in w.tickets && Task(Running, 1) !in w.tasks
    ensures Reaches(h, w, Reopening(cmp), Reopened(w, cmp))
  {
    hide Reaches, Step, FilingRun, Extended, TransitionsFor;
    Renews(h, w);
    var v := Renewed(w);
    Files(h, v, cmp);
    BasicExtended(w.machine.table, cmp.datasets);
    var x := AfterFiling(v, cmp);
    Handles(h, x, ManifestReceived, ReceivingAlgorithm);
    Chain(h, w, RENEW, v, [Init(cmp)] + FilingRun(cmp.datasets), x);
    Chain(h, w, RENEW + ([Init(cmp)] + FilingRun(cmp.datasets)), x, [Pick(1)] + [Commit(1)], Reopened(w, cmp));
  }

  /** An event picked up before StopComputation and committed after it moves the next
      lifetime's machine straight to Running: with that one commit between two orderly
      runs, the runner is asked to run while a declared dataset is pending. */
  lemma StalledHandler(h: Hash)
    ensures exists a: seq<Label>, b: seq<Label> ::
      var v := Step(h, Exec(h, Initial(true), a), Commit(0));
      && Orderly(h, Initial(true), a) && Orderly(h, v, b)
      && Exec(h, v, b).issued == [Issue(1, [], Bundle(BIN, [], [], []), h([]), PENDING)]
  {
    hide Orderly, Along, Exec, Initial, Sane, Stalled, Step;
    var a := Stalls(h);
    var w := Stalled(h);
    SaneWhenReached(h, a, w);
    SaneStep(h, w, Commit(0));
    var v := Step(h, w, Commit(0));
    StalledMoves(h);
    var b, x := HeadingRuns(h, v);
    assert [] + [Request(v.svc)] == [Request(v.svc)];
  }

  function Stalled(h: Hash): World {
    AfterUpload(Reopened(Poised(h), Manifest(h([]), PENDING, false)))
  }

  lemma Stalls(h: Hash) returns (a: seq<Label>)
    ensures Reaches(h, Initial(true), a, Stalled(h))
  {
    hide Reaches, Initial, Extended, TransitionsFor, Reopening, Reopened, AfterUpload;
    var cmp := Manifest(h([]), PENDING, false);
    a := Poises(h);
    BasicExtended(BASE, []);
    Reopens(h, Poised(h), cmp);
    ReopenedShape(Poised(h), cmp);
    var w := Reopened(Poised(h), cmp);
    Chain(h, Initial(true), a, Poised(h), Reopening(cmp), w);
    Uploads(h, w, PENDING);
    a := a + Reopening(cmp);
    Chain(h, Initial(true), a, w, [Check(AlgoTicket)] + [Do(UPLOAD, true)], AfterUpload(w));
    a := a + ([Check(AlgoTicket)] + [Do(UPLOAD, true)]);
  }

  lemma StalledMoves(h: Hash)
    ensures
      var v := Step(h, Stalled(h), Commit(0));
      && Task(Running, 1) in v.tasks && v.hold.Free? && !v.svc.cancelled && v.svc.algoFile.Some? && v.issued == []
      && v.svc.life == 1 && Request(v.svc) == Issue(1, [], Bundle(BIN, [], [], []), h([]), PENDING)
  {
    hide Reopened, Extended, TransitionsFor, StepDo, StepInit, StepStop;
    ReopenedShape(Poised(h), Manifest(h([]), PENDING, false));
  }

  // ----- Two runs in one lifetime -----

  /** The run is launched and answered, and the event of the answer dropped. */
  function AfterRun(w: World): World
    requires w.svc.algoFile.Some?
  {
    w.(svc := w.svc.(notices := w.svc.notices + [Reported(w.svc.cmp.id, Running, Starting)] + [Reported(w.svc.cmp.id, Running, InProgress)]
                                + [Reported(w.svc.cmp.id, Running, Completed)],
                     algoFile := None, runError := false, result := Some([])),
       tasks := w.tasks - multiset{Task(Running, w.svc.life)}, issued := w.issued + [Request(w.svc)], source := Some(|w.issued|))
  }

  function RunAndAnswer(life: nat, call: nat): seq<Label> {
    [Do(Launch(life, Launched), false)] + [Do(Respond(life, call, Some([]), true), false)]
  }

  lemma IsAnswered(h: Hash, w: World)
    requires w.hold.Free? && Task(Running, w.svc.life) in w.tasks && !w.svc.cancelled && w.svc.algoFile.Some?
    requires |w.issued| !in w.open
    ensures Reaches(h, w, RunAndAnswer(w.svc.life, |w.issued|), AfterRun(w))
  {
    hide Reaches, StepInit, StepStop;
    var e, c := w.svc.life, |w.issued|;
    LaunchStep(h, w);
    One(h, w, Do(Launch(e, Launched), false));
    var v := Step(h, w, Do(Launch(e, Launched), false));
    assert v.open - {c} == w.open;
    Then(h, w, [Do(Launch(e, Launched), false)], v, Do(Respond(e, c, Some([]), true), false));
  }

  /** The first lifetime's handler has chosen ReceivingAlgorithm and stalls. */
  function Halted(h: Hash): World {
    FirstFiled(Manifest(h([]), [], false)).(loops := map[0 := Chose(ReceivingAlgorithm)])
  }

  lemma Halts(h: Hash) returns (ls: seq<Label>)
    ensures Reaches(h, Initial(true), ls, Halted(h))
  {
    hide Reaches, Step, Initial, FirstFiling, Extended;
    var cmp := Manifest(h([]), [], false);
    BasicExtended(BASE, []);
    FirstFiles(h, cmp);
    var w := FirstFiled(cmp);
    Handles(h, w, ManifestReceived, ReceivingAlgorithm);
    assert w.(loops := w.loops[0 := Chose(ReceivingAlgorithm)]) == Halted(h);
    Chain(h, Initial(true), FirstFiling(cmp), w, [Pick(0)], Halted(h));
    ls := FirstFiling(cmp) + [Pick(0)];
  }

  /** The second lifetime is at ReceivingAlgorithm, beside that handler. */
  function SecondOpen(h: Hash): World {
    Reopened(Halted(h), NextManifest(h))
  }

  predicate Ready(h: Hash, w: World) {
    && w.svc.life == 1 && w.hold.Free? && !w.svc.cancelled && w.svc.cmp == NextManifest(h)
    && w.loops == map[0 := Chose(ReceivingAlgorithm), 1 := Parked] && w.open == {}
    && Agrees(w.machine.table, []) && w.machine.actions == Bindings(1)
  }

  lemma SecondOpens(h: Hash) returns (ls: seq<Label>)
    ensures Reaches(h, Initial(true), ls, SecondOpen(h))
    ensures
      var w := SecondOpen(h);
      Ready(h, w) && w.tasks == multiset{Task(ReceivingAlgorithm, 1)} && w.issued == [] && w.machine.state == ReceivingAlgorithm
  {
    hide Reaches, Initial, Extended, TransitionsFor, Reopening, Reopened;
    var cmp := NextManifest(h);
    ls := Halts(h);
    BasicExtended(BASE, []);
    BasicExtended(Table1([]), []);
    Reopens(h, Halted(h), cmp);
    ReopenedShape(Halted(h), cmp);
    Chain(h, Initial(true), ls, Halted(h), Reopening(cmp), SecondOpen(h));
    ls := ls + Reopening(cmp);
  }

  /** A ready world that downloads, runs and is answered. */
  lemma RunsThrough(h: Hash, w: World) returns (ls: seq<Label>, v: World)
    requires Ready(h, w) && w.tasks == multiset{Task(ReceivingAlgorithm, 1)} && w.machine.state == ReceivingAlgorithm && w.issued == []
    ensures Reaches(h, w, ls, v) && Ready(h, v) && v.machine.state == Running && v.tasks == multiset{}
    ensures |v.issued| == 1 && v.issued[0].life == 1
  {
    hide Reaches, Step, Agrees;
    var l := Download(1, [], []);
    NextFetchable(h, w);
    Downloads(h, w, [], []);
    var w1 := AfterDownload(w, [], []);
    AgreesRuns(w.machine.table);
    Handles(h, w1, AlgorithmReceived, Running);
    var w2 := AfterHandling(w1, Running);
    IsAnswered(h, w2);
    v := AfterRun(w2);
    Chain(h, w, [l], w1, [Pick(1)] + [Commit(1)], w2);
    Chain(h, w, [l] + ([Pick(1)] + [Commit(1)]), w2, RunAndAnswer(1, 0), v);
    ls := [l] + ([Pick(1)] + [Commit(1)]) + RunAndAnswer(1, 0);
  }

  lemma AgreesRuns(table: Table)
    requires Agrees(table, [])
    ensures (ReceivingAlgorithm, AlgorithmReceived) in table && table[(ReceivingAlgorithm, AlgorithmReceived)] == Running
  {
  }

  lemma FallsBack(h: Hash, w: World)
    requires Ready(h, w) && w.tasks == multiset{}
    ensures Step(h, w, Commit(0)) ==
      w.(machine := w.machine.(state := ReceivingAlgorithm), loops := map[0 := Parked, 1 := Parked],
         tasks := multiset{Task(ReceivingAlgorithm, 1)})
  {
    hide StepDo, StepInit, StepStop;
    assert w.loops[0 := Parked] == map[0 := Parked, 1 := Parked];
  }

  /** Back at ReceivingAlgorithm by the stalled commit, the download and the run repeat. */
  lemma RunsAgain(h: Hash, w: World) returns (ls: seq<Label>, v: World)
    requires Sane(w) && Ready(h, w) && w.machine.state == Running && w.tasks == multiset{}
    requires |w.issued| == 1 && w.issued[0].life == 1
    ensures
      var u := Step(h, w, Commit(0));
      && u.machine.state == ReceivingAlgorithm && u.svc.life == 1
      && Reaches(h, u, ls, v) && v.svc.life == 1 && v.machine.state == Running && IssuedIn(v.issued, 1) == 2
  {
    hide Reaches, Sane, Agrees, Step, IssuedIn;
    var u := Step(h, w, Commit(0));
    FallsBack(h, w);
    SaneStep(h, w, Commit(0));
    AgreesRuns(u.machine.table);
    NextFetchable(h, u);
    ls, v := FetchingRuns(h, u, [], []);
    IssuedTwice(w.issued, v.issued[1]);
    assert v.issued == w.issued + [v.issued[1]];
  }

  lemma IssuedTwice(issued: seq<Issue>, i: Issue)
    requires |issued| == 1 && issued[0].life == 1 && i.life == 1
    ensures IssuedIn(issued + [i], 1) == 2
  {
    IssuedInGrows([], issued, 1);
    assert [] + issued == issued;
    IssuedInGrows(issued, [i], 1);
  }

  /** One commit of an ended lifetime between two steady runs: the machine of the next
      lifetime falls back from Running to ReceivingAlgorithm and reaches Running again,
      and the runner is asked to run twice in that lifetime. */
  lemma RunsTwice(h: Hash)
    ensures exists a: seq<Label>, b: seq<Label> ::
      var u := Exec(h, Initial(true), a);
      var v := Step(h, u, Commit(0));
      var x := Exec(h, v, b);
      && Along(h, Initial(true), a, Steady) && Along(h, v, b, Steady)
      && u.svc.life == 1 && v.svc.life == 1 && x.svc.life == 1
      && u.machine.state == Running && v.machine.state == ReceivingAlgorithm && x.machine.state == Running
      && IssuedIn(x.issued, 1) == 2
  {
    hide Orderly, Along, Exec, Initial, Sane, Step, SecondOpen, IssuedIn;
    var a := SecondOpens(h);
    var w := SecondOpen(h);
    var b, v := RunsThrough(h, w);
    Chain(h, Initial(true), a, w, b, v);
    a := a + b;
    SaneWhenReached(h, a, v);
    var c, x := RunsAgain(h, v);
  }
}
