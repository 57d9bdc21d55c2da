/** The transition table, which grows with every manifest and is never cleared: in every
    run it agrees with the manifest in force. */
module Routing {
  import opened Bytes
  import opened Framing
  import opened Agent
  import opened Sections
  import opened Protocol

  /** The fixed order that every transition climbs. */
  function Rank(s: AgentState): nat {
    match s
    case Idle => 0
    case ReceivingManifest => 1
    case ReceivingAlgorithm => 2
    case ReceivingData => 3
    case Running => 4
    case ConsumingResults => 5
    case Complete => 6
    case Failed => 7
  }

  /** A transition climbs; each state is entered from its own predecessors, by their events. */
  predicate Sound(from: AgentState, event: AgentEvent, to: AgentState) {
    && Rank(from) < Rank(to)
    && (Rank(from) < 2 ==> Rank(to) <= 2)
    && (to == ReceivingAlgorithm ==> from == ReceivingManifest && event == ManifestReceived)
    && (to == ReceivingData ==> from == ReceivingAlgorithm && event == AlgorithmReceived)
    && (to == Running ==>
         (from == ReceivingAlgorithm && event == AlgorithmReceived) || (from == ReceivingData && event == DataReceived))
    && (to == ConsumingResults ==> from == Running && event == RunComplete)
    && (to == Complete ==> from == ConsumingResults && event == ResultsConsumed)
    && (to == Failed ==> event == RunFailed && from in {ReceivingAlgorithm, ReceivingData, Running})
  }

  ghost predicate Routed(table: Table) {
    forall k :: k in table ==> Sound(k.0, k.1, table[k])
  }

  predicate Leads(table: Table, from: AgentState, event: AgentEvent, to: AgentState) {
    (from, event) in table && table[(from, event)] == to
  }

  /** The way to the first manifest is always open. */
  predicate Basic(table: Table) {
    && Leads(table, Idle, Start, ReceivingManifest)
    && Leads(table, ReceivingManifest, ManifestReceived, ReceivingAlgorithm)
  }

  /** So are the ways out of a run and out of a failure. */
  predicate Closing(table: Table) {
    && Leads(table, ReceivingAlgorithm, RunFailed, Failed)
    && Leads(table, ReceivingData, RunFailed, Failed)
    && Leads(table, Running, RunFailed, Failed)
    && Leads(table, Running, RunComplete, ConsumingResults)
    && Leads(table, ConsumingResults, ResultsConsumed, Complete)
  }

  /** The table sends a received algorithm where this manifest needs it. */
  predicate Agrees(table: Table, declared: seq<Dataset>) {
    var key := (ReceivingAlgorithm, AlgorithmReceived);
    && key in table && table[key] == (if declared == [] then Running else ReceivingData)
    && (declared != [] ==> (ReceivingData, DataReceived) in table && table[(ReceivingData, DataReceived)] == Running)
  }

  /** InitComputation has yet to add `rest` of the transitions for `declared`. */
  predicate Owed(rest: seq<Transition>, declared: seq<Dataset>) {
    rest == [] || rest == TransitionsFor(declared) || rest == TransitionsFor(declared)[1..]
  }

  /** The table agrees with the manifest in force, once the transitions still owed are added. */
  predicate Settled(table: Table, hold: Hold, declared: Option<seq<Dataset>>) {
    match hold
    case Filing(rest) => declared.Some? && Owed(rest, declared.value) && Agrees(Extended(table, rest), declared.value)
    case _ => declared.Some? ==> Agrees(table, declared.value)
  }

  /** Without declared datasets nothing is pending. */
  predicate Listed(s: Service) {
    s.declared == None || s.declared == Some([]) ==> s.cmp.datasets == []
  }

  ghost predicate RouteInv(w: World) {
    && Routed(w.machine.table) && Basic(w.machine.table) && Closing(w.machine.table)
    && Settled(w.machine.table, w.hold, w.svc.declared) && Listed(w.svc)
  }

  /** Whatever was added before, the transitions of a manifest make the table agree with it. */
  lemma ManifestSettles(table: Table, declared: seq<Dataset>)
    ensures Agrees(Extended(table, TransitionsFor(declared)), declared)
  {
    var ts := TransitionsFor(declared);
    assert Extended(table, ts) == Extended(Added(table, ts[0]), ts[1..]);
    if declared != [] {
      assert Extended(Added(table, ts[0]), ts[1..]) == Extended(Added(Added(table, ts[0]), ts[1]), ts[1..][1..]);
    }
  }

  lemma AddRoutes(w: World)
    requires RouteInv(w)
    ensures RouteInv(StepAdd(w))
  {
    hide Agrees, Routed, Basic, Closing;
    if w.hold.Filing? && w.hold.rest != [] {
      AddKeeps(w.machine.table, w.hold.rest[0], w.svc.declared.value);
    }
  }

  lemma AddKeeps(table: Table, t: Transition, declared: seq<Dataset>)
    requires Routed(table) && Basic(table) && Closing(table) && t in TransitionsFor(declared)
    ensures Routed(Added(table, t)) && Basic(Added(table, t)) && Closing(Added(table, t))
  {
  }

  lemma DoRoutes(h: Hash, w: World, k: Work, sent: bool)
    requires RouteInv(w)
    ensures RouteInv(StepDo(h, w, k, sent))
  {
    hide Perform, Enabled, Requests, NewResult, Routed, Settled, Basic, Closing;
    PerformAdvances(h, w.svc, k);
  }

  lemma StepRoutes(h: Hash, w: World, l: Label)
    requires RouteInv(w)
    ensures RouteInv(Step(h, w, l))
  {
    hide RouteInv, StepDo, StepInit, StepAdd, StepStop, StepSet, StepFinish, StepPick, StepCommit, Passes;
    match l
    case Init(cmp) => InitRoutes(w, cmp);
    case AddTransition => AddRoutes(w);
    case Do(k, sent) => DoRoutes(h, w, k, sent);
    case Stop(end) => StopRoutes(w, end);
    case Finish(sent) => FinishRoutes(w, sent);
    case _ => OthersRoute(h, w, l);
  }

  lemma InitRoutes(w: World, cmp: Computation)
    requires RouteInv(w)
    ensures RouteInv(StepInit(w, cmp))
  {
    hide Routed, Agrees, TransitionsFor, Extended;
    ManifestSettles(w.machine.table, cmp.datasets);
  }

  lemma StopRoutes(w: World, end: StopEnd)
    requires RouteInv(w)
    ensures RouteInv(StepStop(w, end))
  {
    hide Routed, Agrees;
  }

  lemma FinishRoutes(w: World, sent: bool)
    requires RouteInv(w)
    ensures RouteInv(StepFinish(w, sent))
  {
    hide Routed, Agrees, TransitionsFor;
    assert Extended(w.machine.table, []) == w.machine.table;
  }

  lemma OthersRoute(h: Hash, w: World, l: Label)
    requires RouteInv(w) && (l.Check? || l.Cancel? || l.ParentDone? || l.SetAction? || l.LoopReturns? || l.Pick? || l.Commit?)
    ensures RouteInv(Step(h, w, l))
  {
    hide Routed, Agrees, Passes, StepDo, StepInit, StepStop, StepAdd, StepFinish, Owed;
  }

  lemma {:induction false} ExecRoutes(h: Hash, w: World, ls: seq<Label>)
    requires RouteInv(w)
    ensures RouteInv(Exec(h, w, ls))
    decreases |ls|
  {
    hide RouteInv, Step;
    if ls != [] {
      StepRoutes(h, w, ls[0]);
      ExecRoutes(h, Step(h, w, ls[0]), ls[1..]);
    }
  }

  lemma BaseRouted()
    ensures Routed(BASE)
  {
  }

  lemma RouteStart(sent: bool)
    ensures RouteInv(Initial(sent))
  {
    hide Routed;
    BaseRouted();
  }

  /** In every run, over any number of computations with and without datasets and stops in
      between, the table routes a received algorithm where the manifest in force needs it. */
  lemma TableAgrees(h: Hash, sent: bool, ls: seq<Label>)
    ensures
      var w := Exec(h, Initial(sent), ls);
      w.svc.declared.Some? && !w.hold.Filing? ==> Agrees(w.machine.table, w.svc.declared.value)
  {
    hide Exec, Agrees, Routed;
    RouteStart(sent);
    ExecRoutes(h, Initial(sent), ls);
  }
}
