/** The run gate: what the runner is asked to execute is what the manifest in force
    commits to, with all its data. */
module Gate {
  import opened Bytes
  import opened Framing
  import opened Agent
  import opened Sections
  import opened Protocol
  import opened Fence
  import opened Routing
  import opened Progress

  // ----- How close a run is -----

  /** What decides whether and how a run starts. `algo`: the stored bundle is the
      manifest's; `clear`: no dataset is pending; `run`: a Running action of the current
      lifetime waits for `mu`. */
  datatype Stage = Stage(state: AgentState, loop: Loop, table: Table, algo: bool, clear: bool, run: bool)

  ghost function StageOf(h: Hash, w: World): Stage {
    Stage(w.machine.state, Own(w), w.machine.table, Armed(h, w.svc), w.svc.cmp.datasets == [],
          Task(Running, w.svc.life) in w.tasks)
  }

  /** Nothing on the way to Running looks at the bundle again. */
  predicate NeedsAlgo(g: Stage) {
    || g.run || g.state == ReceivingData || g.loop == Chose(ReceivingData) || g.loop == Chose(Running)
    || (g.state == ReceivingAlgorithm && g.loop == Got(AlgorithmReceived))
  }

  /** Nothing on the way to Running looks at the pending list again. */
  predicate NeedsClear(g: Stage) {
    var key := (ReceivingAlgorithm, AlgorithmReceived);
    || g.run || g.loop == Chose(Running)
    || (g.state == ReceivingData && g.loop == Got(DataReceived))
    || (g.state == key.0 && g.loop == Got(key.1) && key in g.table && g.table[key] == Running)
  }

  predicate Met(g: Stage) {
    (NeedsAlgo(g) ==> g.algo) && (NeedsClear(g) ==> g.clear)
  }

  // ----- Orderly runs -----

  /** The stage after another lifetime's handler moves the machine to `next`. */
  function Moved(g: Stage, next: AgentState, runs: bool): Stage {
    g.(state := next, run := g.run || (next == Running && runs))
  }

  /** A step is prompt unless it is one of two. An InitComputation section, which its state
      check may have let pass long ago, replaces the manifest while a run that no longer
      looks at it is on its way, and the new manifest does not fit what is stored. Or the
      handler of an earlier lifetime moves the machine to where a run is on its way, and
      what is stored does not fit the manifest. */
  ghost predicate Prompt(h: Hash, w: World, l: Label) {
    var g := StageOf(h, w);
    match l
    case Init(cmp) =>
      InitTicket in w.tickets && w.hold.Free? && !w.svc.cancelled ==>
        (NeedsAlgo(g) ==> Armed(h, w.svc.(cmp := cmp))) && (NeedsClear(g) ==> cmp.datasets == [])
    case Commit(loop) =>
      loop in w.loops && w.loops[loop].Chose? && loop != w.svc.life ==>
        Met(Moved(g, w.loops[loop].next, Running in w.machine.actions && w.machine.actions[Running] == w.svc.life))
    case _ => true
  }

  ghost predicate Orderly(h: Hash, w: World, ls: seq<Label>)
    decreases |ls|
  {
    ls == [] || (Prompt(h, w, ls[0]) && Orderly(h, Step(h, w, ls[0]), ls[1..]))
  }

  // ----- The invariant -----

  /** The request carried a bundle with the manifest's commitment, and no declared
      dataset was pending. */
  predicate Good(h: Hash, i: Issue) {
    Commitment(h, i.bundle) == i.wanted && i.pending == []
  }

  ghost predicate AllGood(h: Hash, issued: seq<Issue>) {
    forall i :: 0 <= i < |issued| ==> Good(h, issued[i])
  }

  ghost predicate GateInv(h: Hash, w: World) {
    Sane(w) && RouteInv(w) && Met(StageOf(h, w)) && AllGood(h, w.issued)
  }

  // ----- Work -----

  /** Work only brings the bundle, clears the list and uses up goroutines. */
  lemma WorkMeets(h: Hash, w: World, k: Work)
    requires Met(StageOf(h, w)) && w.hold.Free? && Enabled(w, k)
    ensures Met(StageOf(h, Consume(w, k).(svc := Perform(h, w.svc, k).svc)))
  {
    hide Perform, Requests, NewResult, Armed;
    PerformAdvances(h, w.svc, k);
    assert Consume(w, k).tasks <= w.tasks;
  }

  lemma SendMeets(h: Hash, w: World, event: Option<AgentEvent>, sent: bool)
    requires Met(StageOf(h, w)) && RouteInv(w) && w.hold.Free?
    requires event == Some(AlgorithmReceived) ==> Armed(h, w.svc)
    requires event == Some(DataReceived) ==> w.svc.cmp.datasets == []
    ensures Met(StageOf(h, Send(w, event, sent)))
  {
    hide Armed, Routed;
  }

  /** The request is made from the stored bundle. */
  lemma RequestIsGood(h: Hash, w: World, k: Work)
    requires Enabled(w, k) && Met(StageOf(h, w))
    ensures AllGood(h, Requests(w.svc, k))
  {
    hide Commitment;
    if Requests(w.svc, k) != [] {
      assert TaskOf(k) == Task(Running, w.svc.life);
    }
  }

  lemma GateDo(h: Hash, w: World, k: Work, sent: bool)
    requires GateInv(h, w)
    ensures GateInv(h, StepDo(h, w, k, sent))
  {
    hide Perform, Enabled, Sane, RouteInv, StageOf, Met, Requests, NewResult, Armed, Send, Good;
    SaneDo(h, w, k, sent);
    DoRoutes(h, w, k, sent);
    if w.hold.Free? && Enabled(w, k) {
      PerformAdvances(h, w.svc, k);
      var o := Perform(h, w.svc, k);
      var v := Consume(w, k).(svc := o.svc);
      WorkMeets(h, w, k);
      RequestIsGood(h, w, k);
      DoRoutes(h, w, k, false);
      NotSent(v, o.event);
      SendMeets(h, v, o.event, sent);
      SendFrame(v, o.event, sent);
    }
  }

  lemma NotSent(w: World, event: Option<AgentEvent>)
    ensures Send(w, event, false) == w
  {
  }

  // ----- The other steps -----

  lemma GateFrame(h: Hash, w: World, v: World)
    requires AllGood(h, w.issued) && v.issued == w.issued && Sane(v) && RouteInv(v)
    ensures GateInv(h, v) <==> Met(StageOf(h, v))
  {
  }

  lemma AddMeets(h: Hash, w: World)
    requires RouteInv(w) && Met(StageOf(h, w))
    ensures Met(StageOf(h, StepAdd(w)))
  {
    hide Armed, Routed, Agrees, Extended;
  }

  lemma PickMeets(h: Hash, w: World, loop: nat)
    requires RouteInv(w) && Met(StageOf(h, w))
    ensures Met(StageOf(h, StepPick(w, loop)))
  {
    hide Armed, Settled, Listed;
    if loop == w.svc.life && loop in w.loops && w.loops[loop].Got? {
      var key := (w.machine.state, w.loops[loop].event);
      assert key in w.machine.table ==> Sound(key.0, key.1, w.machine.table[key]);
    }
  }

  lemma StopMeets(h: Hash, w: World, end: StopEnd)
    requires Sane(w) && Met(StageOf(h, w))
    ensures Met(StageOf(h, StepStop(w, end)))
  {
    hide Armed;
    if w.svc.cancelled && w.hold.Free? {
      var v := StepStop(w, end);
      if end.Cleared? {
        assert Task(Running, v.svc.life) !in v.tasks;
        LoopsAreOld(w);
      } else {
        ArmedFrame(h, w.svc, v.svc);
      }
    }
  }

  lemma ArmedFrame(h: Hash, s: Service, t: Service)
    requires t.algoFile == s.algoFile && t.algoType == s.algoType && t.algoArgs == s.algoArgs
    requires t.algoRequirements == s.algoRequirements && t.cmp == s.cmp
    ensures Armed(h, t) == Armed(h, s)
  {
  }

  lemma FinishMeets(h: Hash, w: World, sent: bool)
    requires Sane(w) && Met(StageOf(h, w))
    ensures Met(StageOf(h, StepFinish(w, sent)))
  {
    hide Armed, Bound, Dated, Sourced;
  }

  lemma SmallMeets(h: Hash, w: World, l: Label)
    requires Met(StageOf(h, w)) && (l.Check? || l.Cancel? || l.ParentDone? || l.SetAction? || l.LoopReturns?)
    ensures Met(StageOf(h, Step(h, w, l)))
  {
    hide Armed, Passes;
    ArmedFrame(h, w.svc, Step(h, w, l).svc);
  }

  lemma InitMeets(h: Hash, w: World, cmp: Computation)
    requires Met(StageOf(h, w))
    ensures Met(StageOf(h, StepInit(w, cmp))) <==> Prompt(h, w, Init(cmp))
  {
    hide Armed, TransitionsFor;
    if InitTicket in w.tickets && w.hold.Free? && !w.svc.cancelled {
      ArmedFrame(h, w.svc.(cmp := cmp), StepInit(w, cmp).svc);
    }
  }

  lemma CommitMeets(h: Hash, w: World, loop: nat)
    requires Sane(w) && Met(StageOf(h, w))
    ensures Met(StageOf(h, StepCommit(w, loop))) <==> Prompt(h, w, Commit(loop))
  {
    hide Armed, Dated, Sourced;
    if loop in w.loops && w.loops[loop].Chose? {
      var next := w.loops[loop].next;
      assert next in w.machine.actions ==>
        (Task(Running, w.svc.life) in StepCommit(w, loop).tasks <==>
          Task(Running, w.svc.life) in w.tasks || (next == Running && w.machine.actions[next] == w.svc.life));
    }
  }

  /** Promptness is exact for every step: it keeps the gate's invariant if and only if it is prompt. */
  lemma PromptIsExact(h: Hash, w: World, l: Label)
    requires GateInv(h, w)
    ensures GateInv(h, Step(h, w, l)) <==> Prompt(h, w, l)
  {
    hide Sane, RouteInv, StageOf, Met, AllGood, StepDo, StepInit, StepAdd, StepStop, StepSet, StepFinish, StepPick, StepCommit, Passes;
    SaneStep(h, w, l);
    StepRoutes(h, w, l);
    match l
    case Do(k, sent) => GateDo(h, w, k, sent);
    case _ =>
      SameRequests(h, w, l);
      GateFrame(h, w, Step(h, w, l));
      MeetsExactly(h, w, l);
  }

  lemma SameRequests(h: Hash, w: World, l: Label)
    requires !l.Do?
    ensures Step(h, w, l).issued == w.issued
  {
    hide StepDo, TransitionsFor, Passes;
  }

  lemma MeetsExactly(h: Hash, w: World, l: Label)
    requires Sane(w) && RouteInv(w) && Met(StageOf(h, w)) && !l.Do?
    ensures Met(StageOf(h, Step(h, w, l))) <==> Prompt(h, w, l)
  {
    hide Sane, RouteInv, StageOf, Met, StepDo, StepInit, StepAdd, StepStop, StepSet, StepFinish, StepPick, StepCommit, Passes;
    match l
    case Init(cmp) => InitMeets(h, w, cmp);
    case AddTransition => AddMeets(h, w);
    case Stop(end) => StopMeets(h, w, end);
    case Finish(sent) => FinishMeets(h, w, sent);
    case Pick(loop) => PickMeets(h, w, loop);
    case Commit(loop) => CommitMeets(h, w, loop);
    case _ => SmallMeets(h, w, l);
  }

  lemma GateStart(h: Hash, sent: bool)
    ensures GateInv(h, Initial(sent))
  {
    hide Sane, RouteInv;
    SaneStart(sent);
    RouteStart(sent);
  }

  lemma {:induction false} GateExec(h: Hash, w: World, ls: seq<Label>)
    requires GateInv(h, w) && Orderly(h, w, ls)
    ensures GateInv(h, Exec(h, w, ls))
    decreases |ls|
  {
    hide GateInv, Step, Prompt;
    if ls != [] {
      PromptIsExact(h, w, ls[0]);
      GateExec(h, Step(h, w, ls[0]), ls[1..]);
    }
  }

  /** Run gate: in every orderly run, over any number of computations with and
      without datasets, every request handed to the runner carries a bundle whose
      commitment is the hash of the manifest in force, and no declared dataset was
      pending when it was issued. */
  lemma RunGate(h: Hash, sent: bool, ls: seq<Label>)
    ensures Orderly(h, Initial(sent), ls) ==> AllGood(h, Exec(h, Initial(sent), ls).issued)
  {
    hide Orderly, Exec, Initial, Sane, RouteInv, StageOf, Met, AllGood;
    if Orderly(h, Initial(sent), ls) {
      GateStart(h, sent);
      GateExec(h, Initial(sent), ls);
    }
  }
}
