/** The agent service together with its state machine (agent/statemachine/state.go),
    its scheduled actions and its outstanding runner calls, as one shared record
    that changes in labelled steps.

    Granularity. A step is: one read of the machine state by an RPC (outside
    `mu`); one section under `mu`; the cancel of StopComputation (outside `mu`); or
    one of the two locked halves of handleEvent. InitComputation and StopComputation
    call the machine several times while they hold `mu`, and the machine has a lock of
    its own, so each of their calls to AddTransition and SetAction is a step, and so
    is the event they send at the end; in between, `mu` keeps other sections out but
    not the handlers and the state checks. SendEvent hands its event to the parked
    Start loop or drops it. Labels carry every choice that the environment makes, so a
    run is a sequence of labels. */
module Protocol {
  import opened Bytes
  import opened Framing
  import opened Agent
  import opened Sections

  type Table = map<(AgentState, AgentEvent), AgentState>

  datatype Transition = Transition(from: AgentState, event: AgentEvent, to: AgentState)

  /** `actions` gives the lifetime captured by the installed action of each state. */
  datatype Machine = Machine(state: AgentState, table: Table, actions: map<AgentState, nat>)

  /** What a section that holds `mu` across steps still has to do: InitComputation has
      transitions to add, StopComputation has actions to install. */
  datatype Hold = Free | Filing(rest: seq<Transition>) | Stopping(left: set<AgentState>)

  /** Where the Start goroutine of one lifetime stands: in its select, holding an
      event, between the two locked halves of handleEvent, or returned. */
  datatype Loop = Parked | Got(event: AgentEvent) | Chose(next: AgentState) | Exited

  /** A goroutine running the action of `state`, bound to lifetime `life`. */
  datatype Task = Task(state: AgentState, life: nat)

  /** A Run request, with the manifest's hash and the pending datasets when it was issued. */
  datatype Issue = Issue(life: nat, computation: bytes, bundle: Bundle, wanted: Digest, pending: seq<Dataset>)

  /** A passed state check whose locked section has not run yet. */
  datatype Ticket = InitTicket | AlgoTicket | DataTicket | ResultTicket(seen: AgentState)

  /** `issued` logs every Run request, `open` indexes those without a response
      and `source` is the request whose response stored the current result. */
  datatype World = World(
    svc: Service, machine: Machine, loops: map<nat, Loop>, tasks: multiset<Task>,
    issued: seq<Issue>, open: set<nat>, source: Option<nat>, tickets: multiset<Ticket>, hold: Hold)

  datatype Label =
    | Check(ticket: Ticket)
    | Init(cmp: Computation)
    | AddTransition
    | Do(work: Work, sent: bool)
    | Cancel
    | ParentDone
    | Stop(end: StopEnd)
    | SetAction(state: AgentState)
    | Finish(sent: bool)
    | LoopReturns(loop: nat)
    | Pick(loop: nat)
    | Commit(loop: nat)

  /** The transitions installed by New. */
  const BASE: Table := map[
    (Idle, Start) := ReceivingManifest,
    (ReceivingManifest, ManifestReceived) := ReceivingAlgorithm,
    (ReceivingAlgorithm, RunFailed) := Failed,
    (ReceivingData, RunFailed) := Failed,
    (Running, RunComplete) := ConsumingResults,
    (Running, RunFailed) := Failed,
    (ConsumingResults, ResultsConsumed) := Complete]

  /** AddTransition: a later transition for the same state and event replaces the earlier one. */
  function Added(table: Table, t: Transition): Table {
    table[(t.from, t.event) := t.to]
  }

  function Extended(table: Table, ts: seq<Transition>): Table
    decreases |ts|
  {
    if ts == [] then table else Extended(Added(table, ts[0]), ts[1..])
  }

  /** The transitions InitComputation adds for a manifest; Reset never removes any. */
  function TransitionsFor(datasets: seq<Dataset>): seq<Transition> {
    if |datasets| == 0 then [Transition(ReceivingAlgorithm, AlgorithmReceived, Running)]
    else [Transition(ReceivingAlgorithm, AlgorithmReceived, ReceivingData), Transition(ReceivingData, DataReceived, Running)]
  }

  /** The states for which setLifecycleActions installs an action. */
  const ACTIVE: set<AgentState> := {ReceivingAlgorithm, ReceivingData, Running, ConsumingResults, Complete, Failed}

  predicate Passes(state: AgentState, t: Ticket) {
    match t
    case InitTicket => state == ReceivingManifest
    case AlgoTicket => state == ReceivingAlgorithm
    case DataTicket => state == ReceivingData
    case ResultTicket(seen) => seen == state && (state == ConsumingResults || state == Complete || state == Failed)
  }

  // ----- Steps -----

  /** SendEvent, to the loop of the current lifetime. */
  function Send(w: World, event: Option<AgentEvent>, sent: bool): World {
    if event.Some? && sent && w.svc.life in w.loops && w.loops[w.svc.life].Parked?
    then w.(loops := w.loops[w.svc.life := Got(event.value)]) else w
  }

  function Settle(w: World, o: Outcome, sent: bool): World {
    Send(w.(svc := o.svc), o.event, sent)
  }

  /** InitComputation takes `mu` and stores the manifest. */
  function StepInit(w: World, cmp: Computation): World {
    if InitTicket !in w.tickets || !w.hold.Free? then w else
    var o := InitBody(w.svc, cmp);
    var w1 := w.(svc := o.svc, tickets := w.tickets - multiset{InitTicket});
    if o.error.Some? then w1 else w1.(hold := Filing(TransitionsFor(cmp.datasets)))
  }

  function StepAdd(w: World): World {
    if !w.hold.Filing? || w.hold.rest == [] then w else
    w.(machine := w.machine.(table := Added(w.machine.table, w.hold.rest[0])), hold := Filing(w.hold.rest[1..]))
  }

  /** The ticket of an RPC's locked section, or the goroutine of a scheduled action. */
  function TicketOf(k: Work): Ticket
    requires !Scheduled(k)
  {
    if k.Algo? then AlgoTicket else if k.Data? then DataTicket else ResultTicket(k.seen)
  }

  function TaskOf(k: Work): Task
    requires Scheduled(k) && !k.Respond?
  {
    Task(if k.FetchAlgorithm? then ReceivingAlgorithm else if k.FetchDatasets? then ReceivingData
         else if k.Launch? then Running else k.state, k.life)
  }

  predicate Enabled(w: World, k: Work) {
    if k.Respond? then k.call in w.open && k.call < |w.issued| && k.life == w.issued[k.call].life
    else if Scheduled(k) then (k.Notify? ==> k.state in {ConsumingResults, Complete, Failed}) && TaskOf(k) in w.tasks
    else TicketOf(k) in w.tickets
  }

  /** The request, if any, that a piece of work hands to the runner. */
  function Requests(s: Service, k: Work): (r: seq<Issue>)
    ensures |r| <= 1 && (r != [] ==> k.Launch? && r[0].life == k.life)
  {
    if !k.Launch? || LaunchBundle(s, k.life, k.launch).None? then [] else
    [Issue(k.life, s.cmp.id, LaunchBundle(s, k.life, k.launch).value, s.cmp.algorithm.hash, s.cmp.datasets)]
  }

  /** The bookkeeping of one piece of work: its ticket, goroutine or call is used
      up, a launch logs its request, a response becomes the source of the result. */
  function Consume(w: World, k: Work): World {
    if k.Respond? then
      w.(open := w.open - {k.call}, source := if NewResult(w.svc, k).Some? then Some(k.call) else w.source)
    else if Scheduled(k) then
      var r := Requests(w.svc, k);
      w.(tasks := w.tasks - multiset{TaskOf(k)}, issued := w.issued + r,
         open := if r == [] then w.open else w.open + {|w.issued|})
    else w.(tickets := w.tickets - multiset{TicketOf(k)})
  }

  function StepDo(h: Hash, w: World, k: Work, sent: bool): World {
    if w.hold.Free? && Enabled(w, k) then Settle(Consume(w, k), Perform(h, w.svc, k), sent) else w
  }

  /** StopComputation, with its cancel done, takes `mu`: it fails partway, or resets the
      machine and opens the next lifetime. */
  function StepStop(w: World, end: StopEnd): World {
    if !w.svc.cancelled || !w.hold.Free? then w else
    var o := StopBody(w.svc, end);
    if o.error.Some? then w.(svc := o.svc)
    else w.(svc := o.svc, machine := w.machine.(state := Idle), source := None, hold := Stopping(ACTIVE))
  }

  function StepSet(w: World, state: AgentState): World {
    if !w.hold.Stopping? || state !in w.hold.left then w else
    w.(machine := w.machine.(actions := w.machine.actions[state := w.svc.life]), hold := Stopping(w.hold.left - {state}))
  }

  /** The event at the end of InitComputation, or the new Start loop and its event at the
      end of StopComputation; then `mu` is free again. */
  function StepFinish(w: World, sent: bool): World {
    match w.hold
    case Filing(rest) =>
      if rest != [] then w else Send(w.(hold := Free), Some(ManifestReceived), sent)
    case Stopping(left) =>
      if left != {} then w else Send(w.(hold := Free, loops := w.loops[w.svc.life := Parked]), Some(Start), sent)
    case Free => w
  }

  function StepPick(w: World, loop: nat): World {
    if loop !in w.loops || !w.loops[loop].Got? then w else
    var key := (w.machine.state, w.loops[loop].event);
    w.(loops := w.loops[loop := if key in w.machine.table then Chose(w.machine.table[key]) else Exited])
  }

  function StepCommit(w: World, loop: nat): World {
    if loop !in w.loops || !w.loops[loop].Chose? then w else
    var next := w.loops[loop].next;
    w.(machine := w.machine.(state := next), loops := w.loops[loop := Parked],
       tasks := if next in w.machine.actions then w.tasks + multiset{Task(next, w.machine.actions[next])} else w.tasks)
  }

  function Step(h: Hash, w: World, l: Label): World {
    match l
    case Check(t) => if Passes(w.machine.state, t) then w.(tickets := w.tickets + multiset{t}) else w
    case Init(cmp) => StepInit(w, cmp)
    case AddTransition => StepAdd(w)
    case Do(k, sent) => StepDo(h, w, k, sent)
    case Cancel => if w.hold.Stopping? then w else w.(svc := w.svc.(cancelled := true))
    case ParentDone => w.(svc := w.svc.(cancelled := true, parentDone := true))
    case Stop(end) => StepStop(w, end)
    case SetAction(state) => StepSet(w, state)
    case Finish(sent) => StepFinish(w, sent)
    case LoopReturns(loop) =>
      if loop in w.loops && w.loops[loop].Parked? && (loop != w.svc.life || w.svc.cancelled)
      then w.(loops := w.loops[loop := Exited]) else w
    case Pick(loop) => StepPick(w, loop)
    case Commit(loop) => StepCommit(w, loop)
  }

  /** All actions captured lifetime `life`. */
  function Bindings(life: nat): map<AgentState, nat> {
    map s | s in ACTIVE :: life
  }

  const START: World :=
    World(INITIAL, Machine(Idle, BASE, Bindings(0)), map[0 := Parked], multiset{}, [], {}, None, multiset{}, Free)

  /** The world New leaves behind; its Start event may be dropped. */
  function Initial(sent: bool): World {
    Send(START, Some(Start), sent)
  }

  function Exec(h: Hash, w: World, ls: seq<Label>): World
    decreases |ls|
  {
    if ls == [] then w else Exec(h, Step(h, w, ls[0]), ls[1..])
  }
}
