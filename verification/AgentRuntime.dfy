/** The service and its state machine together with the goroutines they start, as one
    object. Every label of module Protocol has a method that takes the object's world to
    the next, so that the object has all runs of the protocol, a late section or a handler
    between two calls under `mu` included; and what modules Fence, Routing, Accounts,
    Progress, Runs and Gate prove of runs holds of it. InitComputation and
    StopComputation put the methods of one uninterrupted call together. */
module AgentRuntime {
  import opened Bytes
  import opened Framing
  import opened Agent
  import opened Sections
  import opened Protocol
  import opened Routing
  import opened Accounts
  import opened Progress
  import opened AgentService

  /** The transitions of New, in order. */
  const NEW_TRANSITIONS: seq<Transition> := [
    Transition(Idle, Start, ReceivingManifest),
    Transition(ReceivingManifest, ManifestReceived, ReceivingAlgorithm),
    Transition(ReceivingAlgorithm, RunFailed, Failed),
    Transition(ReceivingData, RunFailed, Failed),
    Transition(Running, RunComplete, ConsumingResults),
    Transition(Running, RunFailed, Failed),
    Transition(ConsumingResults, ResultsConsumed, Complete)]

  /** InitComputation without interruption, after its check. */
  function InitRun(cmp: Computation, sent: bool): seq<Label> {
    [Init(cmp)] + Adds(|TransitionsFor(cmp.datasets)|) + [Finish(sent)]
  }

  function Adds(n: nat): (ls: seq<Label>)
    ensures |ls| == n
  {
    if n == 0 then [] else Adds(n - 1) + [AddTransition]
  }

  /** StopComputation without interruption. */
  function StopRun(end: StopEnd, sent: bool): seq<Label> {
    [Cancel] + [Stop(end)] + Sets(ACTION_STATES) + [Finish(sent)]
  }

  function Sets(states: seq<AgentState>): seq<Label> {
    if states == [] then [] else Sets(states[..|states| - 1]) + [SetAction(states[|states| - 1])]
  }

  lemma Snoc(h: Hash, w: World, ls: seq<Label>, l: Label)
    ensures Exec(h, w, ls + [l]) == Step(h, Exec(h, w, ls), l)
  {
    hide Step;
    ExecSplits(h, w, ls, [l]);
    var v := Exec(h, w, ls);
    assert [l][1..] == [];
    assert Exec(h, v, [l]) == Exec(h, Step(h, v, l), []);
  }

  class Runtime {
    const agent: Instance
    const sm: StateMachine
    var loops: map<nat, Loop>
    var tasks: multiset<Task>
    var issued: seq<Issue>
    var open: set<nat>
    var source: Option<nat>
    var tickets: multiset<Ticket>
    var hold: Hold

    ghost function View(): World
      reads this, agent, sm
    {
      World(agent.View(), sm.View(), loops, tasks, issued, open, source, tickets, hold)
    }

    /** New: the base transitions, the actions, the first loop and its Start event. */
    constructor (h: Hash, sent: bool)
      ensures agent.h == h && View() == Initial(sent)
      ensures fresh(agent) && fresh(sm)
    {
      hide Extended, Bindings;
      agent := new Instance(h);
      sm := new StateMachine();
      loops, tasks, issued, open, source, tickets, hold := map[0 := Parked], multiset{}, [], {}, None, multiset{}, Free;
      new;
      sm.AddTransitions(NEW_TRANSITIONS);
      NewTransitions();
      sm.SetLifecycleActions(0);
      assert map[] + Bindings(0) == Bindings(0);
      SendEvent(Start, sent);
    }

    // ----- The machine -----

    /** SendEvent: a parked loop takes the event, or it is dropped. */
    method SendEvent(event: AgentEvent, sent: bool)
      modifies this`loops
      ensures View() == Send(old(View()), Some(event), sent)
    {
      if sent && agent.life in loops && loops[agent.life].Parked? {
        loops := loops[agent.life := Got(event)];
      }
    }

    /** The first locked half of handleEvent. */
    method Pick(loop: nat)
      requires loop in loops && loops[loop].Got?
      modifies this`loops
      ensures View() == Step(agent.h, old(View()), Protocol.Pick(loop))
    {
      var key := (sm.currentState, loops[loop].event);
      if key in sm.transitions {
        loops := loops[loop := Chose(sm.transitions[key])];
      } else {
        loops := loops[loop := Exited];
      }
    }

    /** The second, with the goroutine it starts. */
    method Commit(loop: nat)
      requires loop in loops && loops[loop].Chose?
      modifies this`loops, this`tasks, sm
      ensures View() == Step(agent.h, old(View()), Protocol.Commit(loop))
    {
      var next := loops[loop].next;
      sm.currentState := next;
      loops := loops[loop := Parked];
      if next in sm.actions {
        tasks := tasks + multiset{Task(next, sm.actions[next])};
      }
    }

    /** Start returns when its context is done. */
    method LoopReturns(loop: nat)
      requires loop in loops && loops[loop].Parked? && (loop != agent.life || agent.cancelled)
      modifies this`loops
      ensures View() == Step(agent.h, old(View()), Protocol.LoopReturns(loop))
    {
      loops := loops[loop := Exited];
    }

    /** The context above the service is done. */
    method ParentDone()
      modifies agent
      ensures View() == Step(agent.h, old(View()), Protocol.ParentDone)
    {
      agent.cancelled, agent.parentDone := true, true;
    }

    /** The end of InitComputation or StopComputation: the event, and `mu` is free. */
    method FinishCall(sent: bool)
      requires hold == Filing([]) || hold == Stopping({})
      modifies this`hold, this`loops
      ensures View() == Step(agent.h, old(View()), Finish(sent)) && hold == Free
    {
      hide StepDo, StepInit, StepStop;
      if hold.Filing? {
        hold := Free;
        SendEvent(ManifestReceived, sent);
      } else {
        hold := Free;
        loops := loops[agent.life := Parked];
        SendEvent(Start, sent);
      }
    }

    // ----- InitComputation -----

    /** The section up to its calls to the machine. */
    method BeginInit(manifest: Computation) returns (error: Option<Error>)
      requires hold.Free? && InitTicket in tickets
      modifies this`tickets, this`hold, agent
      ensures View() == Step(agent.h, old(View()), Init(manifest))
      ensures error.None? <==> !old(agent.cancelled)
      ensures View() == old(View()).(tickets := old(tickets) - multiset{InitTicket},
        svc := InitBody(old(agent.View()), manifest).svc, hold := if error.None? then Filing(TransitionsFor(manifest.datasets)) else Free)
    {
      hide StepDo, StepStop, TransitionsFor;
      tickets := tickets - multiset{InitTicket};
      var event;
      event, error := agent.InitComputation(manifest);
      if error.None? {
        hold := Filing(TransitionsFor(manifest.datasets));
      }
    }

    method AddNext()
      requires hold.Filing? && hold.rest != []
      modifies this`hold, sm`transitions
      ensures View() == Step(agent.h, old(View()), AddTransition)
      ensures hold == Filing(old(hold).rest[1..]) && sm.transitions == Added(old(sm.transitions), old(hold).rest[0])
    {
      hide StepDo, StepInit, StepStop;
      sm.AddTransition(hold.rest[0]);
      hold := Filing(hold.rest[1..]);
    }

    method AddManifestTransitions(ghost w: World)
      requires hold.Filing? && View() == w
      modifies this`hold, sm
      ensures hold == Filing([]) && View() == Exec(agent.h, w, Adds(|w.hold.rest|))
      ensures sm.transitions == Extended(old(sm.transitions), w.hold.rest)
    {
      hide Exec, Extended, Step;
      var ts := hold.rest;
      ExecNone(agent.h, w);
      assert ts[0..] == ts;
      for i := 0 to |ts|
        invariant hold == Filing(ts[i..]) && View() == Exec(agent.h, w, Adds(i))
        invariant Extended(sm.transitions, ts[i..]) == Extended(old(sm.transitions), ts)
      {
        Snoc(agent.h, w, Adds(i), AddTransition);
        ExtendedNext(sm.transitions, ts[i..]);
        AddNext();
        assert ts[i..][1..] == ts[i + 1..];
      }
      ExtendedNext(sm.transitions, []);
    }

    /** InitComputation: refused in the wrong state or after a cancel, and then nothing
        changes; otherwise the manifest is stored, the table agrees with it, and the
        object has taken the steps of the protocol. */
    method InitComputation(manifest: Computation, sent: bool) returns (error: Option<Error>)
      requires hold.Free?
      modifies this, agent, sm
      ensures error.None? <==> old(sm.currentState) == ReceivingManifest && !old(agent.cancelled)
      ensures error.Some? ==> View() == old(View())
      ensures error.None? ==> agent.cmp == manifest && Agrees(sm.transitions, manifest.datasets)
      ensures error.None? ==>
        View() == Exec(agent.h, old(View()), [Check(InitTicket)] + InitRun(manifest, sent))
    {
      hide Exec, Agrees, Extended, TransitionsFor, Step;
      ghost var w := View();
      ghost var h := agent.h;
      var ok := CheckState(InitTicket);
      Checked(h, w, InitTicket);
      if !ok {
        return Some(StateNotReady);
      }
      error := BeginInit(manifest);
      assert w.tickets + multiset{InitTicket} - multiset{InitTicket} == w.tickets;
      if error.Some? {
        return;
      }
      ghost var v := View();
      InitTaken(h, w, manifest, v);
      AddManifestTransitions(v);
      ghost var x := View();
      ManifestSettles(v.machine.table, manifest.datasets);
      FinishCall(sent);
      FinishFrame(h, x, sent);
      InitDone(h, w, manifest, sent, v, x);
    }

    // ----- StopComputation -----

    method InstallAction(state: AgentState)
      requires hold.Stopping? && state in hold.left
      modifies this`hold, sm`actions
      ensures View() == Step(agent.h, old(View()), Protocol.SetAction(state))
    {
      hide StepDo, StepInit, StepStop;
      sm.SetAction(state, agent.life);
      hold := Stopping(hold.left - {state});
    }

    method InstallActions(ghost w: World)
      requires hold == Stopping(ACTIVE) && View() == w
      modifies this`hold, sm`actions
      ensures View() == Exec(agent.h, w, Sets(ACTION_STATES))
    {
      hide Exec, Step;
      ghost var h := agent.h;
      ExecNone(h, w);
      for i := 0 to |ACTION_STATES|
        invariant View() == Exec(h, w, Sets(ACTION_STATES[..i]))
      {
        var s := ACTION_STATES[i];
        SetsSoFar(h, w, i);
        DistinctStates(i);
        assert ACTION_STATES[..i + 1][..i] == ACTION_STATES[..i];
        Snoc(h, w, Sets(ACTION_STATES[..i]), Protocol.SetAction(s));
        InstallAction(s);
      }
      assert ACTION_STATES[..6] == ACTION_STATES;
    }

    /** The cancel, before `mu` is taken. */
    method CancelLifetime()
      requires !hold.Stopping?
      modifies agent`cancelled
      ensures View() == Step(agent.h, old(View()), Cancel)
    {
      agent.cancelled := true;
    }

    /** The section up to Reset and the cleared fields. */
    method BeginStop(end: StopEnd) returns (error: Option<Error>)
      requires hold.Free? && agent.cancelled
      modifies this`source, this`hold, agent, sm`currentState
      ensures View() == Step(agent.h, old(View()), Stop(end))
      ensures error.None? <==> end.Cleared?
      ensures if error.Some?
        then View() == old(View()).(svc := old(agent.View()).(notices := agent.notices))
        else hold == Stopping(ACTIVE) && agent.life == old(agent.life) + 1 && sm.View() == old(sm.View()).(state := Idle)
    {
      hide StepDo, StepInit;
      var event;
      event, error := agent.StopComputation(end);
      if error.None? {
        sm.Reset();
        source := None;
        hold := Stopping(ACTIVE);
      }
    }

    /** StopComputation: an error keeps every field but the cancel and the notices. On
        success the next lifetime is open, the machine is reset with all its transitions,
        and every action is bound to the new lifetime. */
    method StopComputation(end: StopEnd, sent: bool) returns (error: Option<Error>)
      requires hold.Free? && sm.actions.Keys == ACTIVE
      modifies this, agent, sm
      ensures error.None? <==> end.Cleared?
      ensures error.Some? ==> View() == Exec(agent.h, old(View()), [Cancel] + [Stop(end)])
      ensures error.Some? ==> View() == old(View()).(svc := old(agent.View()).(cancelled := true, notices := agent.notices))
      ensures error.None? ==> View() == Exec(agent.h, old(View()), StopRun(end, sent))
      ensures error.None? ==>
        && agent.life == old(agent.life) + 1 && sm.View() == Machine(Idle, old(sm.transitions), Bindings(agent.life))
    {
      hide Exec, Bindings, Sets, Step;
      ghost var w := View();
      ghost var h := agent.h;
      CancelLifetime();
      Cancelled(h, w);
      error := BeginStop(end);
      StopTaken(h, w, end);
      if error.None? {
        ghost var v := View();
        InstallActions(v);
        SetsDone(h, v);
        ghost var x := View();
        FinishCall(sent);
        FinishFrame(h, x, sent);
        StopDone(h, w, end, sent, v, x);
      }
    }

    // ----- RPC sections, scheduled actions and responses -----

    /** An RPC's read of the machine state. */
    method CheckState(ticket: Ticket) returns (ok: bool)
      modifies this`tickets
      ensures View() == Step(agent.h, old(View()), Check(ticket)) && ok == Passes(sm.currentState, ticket)
    {
      ok := Passes(sm.currentState, ticket);
      if ok {
        tickets := tickets + multiset{ticket};
      }
    }

    /** The section under `mu`, and the request that a launch hands out. */
    method Section(k: Work) returns (event: Option<AgentEvent>, request: Option<Bundle>)
      modifies agent
      ensures
        var o := Perform(agent.h, old(agent.View()), k);
        agent.View() == o.svc && event == o.event
      ensures request == if k.Launch? then LaunchBundle(old(agent.View()), k.life, k.launch) else None
    {
      hide AlgoBody, DataBody, ResultBody, FetchAlgorithmBody, FetchDatasetsBody, LaunchBody, NotifyBody, RespondBody, LaunchBundle;
      request := None;
      var error;
      match k
      case Algo(up, download, stored) => event, error := agent.Algo(up, download, stored);
      case Data(up, download, stored) => event, error := agent.Data(up, download, stored);
      case Result(seen, index) =>
        var data, failed;
        data, failed, event, error := agent.Result(seen, index);
      case FetchAlgorithm(life, io) => event := agent.DownloadAlgorithm(life, io);
      case FetchDatasets(life, dirMade, io) => event := agent.DownloadDatasets(life, dirMade, io);
      case Launch(life, launch) => request, event := agent.StartRun(life, launch);
      case Notify(life, state) => event := agent.Notify(life, state);
      case Respond(life, _, results, algoRemoved) => event := agent.RunResponse(life, results, algoRemoved);
    }

    /** The bookkeeping of a piece of work: its ticket, goroutine or call is used up, a
        request is logged, a response becomes the source of the result. */
    method Book(k: Work, request: Option<Bundle>, fromRun: bool, ghost w: World)
      requires View() == w.(svc := agent.View()) && (k.Launch? ==> agent.cmp == w.svc.cmp)
      requires request == if k.Launch? then LaunchBundle(w.svc, k.life, k.launch) else None
      requires fromRun == NewResult(w.svc, k).Some?
      modifies this`open, this`source, this`tasks, this`tickets, this`issued
      ensures View() == Consume(w, k).(svc := agent.View())
    {
      hide LaunchBundle, NewResult, Consume, Requests;
      ConsumeIs(w, k);
      if k.Respond? {
        open := open - {k.call};
        source := if fromRun then Some(k.call) else source;
      } else if k.Algo? || k.Data? || k.Result? {
        tickets := tickets - multiset{TicketOf(k)};
      } else {
        tasks := tasks - multiset{TaskOf(k)};
        if request.Some? {
          LogRequest(k.life, request.value);
        }
      }
    }

    method LogRequest(life: nat, request: Bundle)
      modifies this`open, this`issued
      ensures View() == old(View()).(open := old(open) + {|old(issued)|},
        issued := old(issued) + [Issue(life, agent.cmp.id, request, agent.cmp.algorithm.hash, agent.cmp.datasets)])
    {
      open := open + {|issued|};
      issued := issued + [Issue(life, agent.cmp.id, request, agent.cmp.algorithm.hash, agent.cmp.datasets)];
    }

    /** Any section that may run now takes its step of the protocol. */
    method Run(k: Work, sent: bool)
      requires hold.Free? && Enabled(View(), k)
      modifies this, agent
      ensures View() == Step(agent.h, old(View()), Do(k, sent))
    {
      hide Perform, Consume, Enabled, LaunchBundle, Send, StepInit, StepStop;
      ghost var w := View();
      var fromRun := k.Respond? && agent.life == k.life && !agent.cancelled && k.results.Some?;
      var event, request := Section(k);
      if k.Launch? {
        LaunchIs(agent.h, w.svc, k);
      }
      Book(k, request, fromRun, w);
      ghost var v := View();
      if event.Some? {
        SendEvent(event.value, sent);
      }
      Unsent(v, sent);
    }
  }

  lemma ConsumeIs(w: World, k: Work)
    ensures
      var r := if k.Launch? then LaunchBundle(w.svc, k.life, k.launch) else None;
      Consume(w, k) ==
        if k.Respond? then w.(open := w.open - {k.call}, source := if NewResult(w.svc, k).Some? then Some(k.call) else w.source)
        else if !Scheduled(k) then w.(tickets := w.tickets - multiset{TicketOf(k)})
        else if r.None? then w.(tasks := w.tasks - multiset{TaskOf(k)})
        else w.(tasks := w.tasks - multiset{TaskOf(k)}, open := w.open + {|w.issued|},
                issued := w.issued + [Issue(k.life, w.svc.cmp.id, r.value, w.svc.cmp.algorithm.hash, w.svc.cmp.datasets)])
  {
    hide LaunchBundle, NewResult;
    assert w.issued + [] == w.issued;
  }

  lemma LaunchIs(h: Hash, s: Service, k: Work)
    requires k.Launch?
    ensures Perform(h, s, k).svc.cmp == s.cmp
  {
    LaunchKeeps(s, k.life, k.launch);
  }

  lemma Unsent(w: World, sent: bool)
    ensures Send(w, None, sent) == w
  {
  }

  lemma DistinctStates(i: nat)
    requires i < 6
    ensures ACTION_STATES[i] in ACTIVE && ACTION_STATES[i] !in ACTION_STATES[..i]
  {
  }

  function BoundBy(n: nat, life: nat): map<AgentState, nat>
    requires n <= 6
  {
    map s | s in ACTION_STATES[..n] :: life
  }

  function LeftAfter(n: nat): set<AgentState>
    requires n <= 6
  {
    ACTIVE - set s | s in ACTION_STATES[..n]
  }

  lemma BindsOneMore(was: map<AgentState, nat>, n: nat, life: nat)
    requires n < 6
    ensures was + BoundBy(n + 1, life) == (was + BoundBy(n, life))[ACTION_STATES[n] := life]
    ensures LeftAfter(n + 1) == LeftAfter(n) - {ACTION_STATES[n]} && ACTION_STATES[n] in LeftAfter(n)
  {
    assert ACTION_STATES[..n + 1] == ACTION_STATES[..n] + [ACTION_STATES[n]];
    DistinctStates(n);
  }

  lemma {:induction false} SetsSoFar(h: Hash, w: World, n: nat)
    requires w.hold == Stopping(ACTIVE) && n <= 6
    ensures Exec(h, w, Sets(ACTION_STATES[..n])) ==
      w.(machine := w.machine.(actions := w.machine.actions + BoundBy(n, w.svc.life)), hold := Stopping(LeftAfter(n)))
  {
    hide Exec, StepDo, StepInit, StepStop;
    if n == 0 {
      ExecNone(h, w);
      assert w.machine.actions + BoundBy(0, w.svc.life) == w.machine.actions;
      assert LeftAfter(0) == ACTIVE;
    } else {
      var s := ACTION_STATES[n - 1];
      SetsSoFar(h, w, n - 1);
      BindsOneMore(w.machine.actions, n - 1, w.svc.life);
      assert ACTION_STATES[..n][..n - 1] == ACTION_STATES[..n - 1];
      Snoc(h, w, Sets(ACTION_STATES[..n - 1]), SetAction(s));
    }
  }

  lemma SetsDone(h: Hash, w: World)
    requires w.hold == Stopping(ACTIVE) && w.machine.actions.Keys == ACTIVE
    ensures Exec(h, w, Sets(ACTION_STATES)) == w.(machine := w.machine.(actions := Bindings(w.svc.life)), hold := Stopping({}))
  {
    hide Exec, Sets, BoundBy, LeftAfter, Bindings;
    SetsSoFar(h, w, 6);
    BoundAll(w.machine.actions, w.svc.life);
  }

  lemma BoundAll(was: map<AgentState, nat>, life: nat)
    requires was.Keys == ACTIVE
    ensures ACTION_STATES[..6] == ACTION_STATES && was + BoundBy(6, life) == Bindings(life) && LeftAfter(6) == {}
  {
    AllActive();
    assert ACTION_STATES[..6] == ACTION_STATES;
  }

  lemma Checked(h: Hash, w: World, t: Ticket)
    ensures Step(h, w, Check(t)) == if Passes(w.machine.state, t) then w.(tickets := w.tickets + multiset{t}) else w
  {
  }

  lemma Cancelled(h: Hash, w: World)
    requires !w.hold.Stopping?
    ensures Step(h, w, Cancel) == w.(svc := w.svc.(cancelled := true))
  {
  }

  lemma FinishFrame(h: Hash, w: World, sent: bool)
    ensures Step(h, w, Finish(sent)).svc == w.svc && Step(h, w, Finish(sent)).machine == w.machine
  {
    hide StepDo, StepInit, StepStop;
  }

  lemma StopTaken(h: Hash, w: World, end: StopEnd)
    ensures Exec(h, w, [Cancel] + [Stop(end)]) == Step(h, Step(h, w, Cancel), Stop(end))
  {
    hide Exec, Step;
    Snoc(h, w, [], Cancel);
    ExecNone(h, w);
    assert [] + [Cancel] == [Cancel];
    Snoc(h, w, [Cancel], Stop(end));
  }

  lemma StopDone(h: Hash, w: World, end: StopEnd, sent: bool, v: World, x: World)
    requires Exec(h, w, [Cancel] + [Stop(end)]) == v && Exec(h, v, Sets(ACTION_STATES)) == x
    ensures Exec(h, w, StopRun(end, sent)) == Step(h, x, Finish(sent))
  {
    hide Exec, Sets, Step;
    var a, b := [Cancel] + [Stop(end)], Sets(ACTION_STATES);
    ExecSplits(h, w, a, b);
    Snoc(h, w, a + b, Finish(sent));
  }

  lemma NewTransitions()
    ensures Extended(map[], NEW_TRANSITIONS) == BASE
  {
    var ts := NEW_TRANSITIONS;
    var t1 := Added(map[], ts[0]);
    var t2 := Added(t1, ts[1]);
    var t3 := Added(t2, ts[2]);
    var t4 := Added(t3, ts[3]);
    var t5 := Added(t4, ts[4]);
    var t6 := Added(t5, ts[5]);
    var t7 := Added(t6, ts[6]);
    hide Added;
    ExtendedNext(map[], ts);
    ExtendedNext(t1, ts[1..]);
    ExtendedNext(t2, ts[2..]);
    ExtendedNext(t3, ts[3..]);
    ExtendedNext(t4, ts[4..]);
    ExtendedNext(t5, ts[5..]);
    ExtendedNext(t6, ts[6..]);
    ExtendedNext(t7, []);
    assert ts[1..][1..] == ts[2..] && ts[2..][1..] == ts[3..] && ts[3..][1..] == ts[4..];
    assert ts[4..][1..] == ts[5..] && ts[5..][1..] == ts[6..] && ts[6..][1..] == [];
    assert t7 == BASE;
  }

  lemma ExecNone(h: Hash, w: World)
    ensures Exec(h, w, Adds(0)) == w
  {
  }

  /** The check and the first step of InitComputation. */
  lemma InitTaken(h: Hash, w: World, cmp: Computation, v: World)
    requires w.machine.state == ReceivingManifest && w.hold.Free? && !w.svc.cancelled
    requires v == w.(svc := InitBody(w.svc, cmp).svc, hold := Filing(TransitionsFor(cmp.datasets)))
    ensures Exec(h, w, [Check(InitTicket)] + [Init(cmp)]) == v
  {
    hide Exec, TransitionsFor;
    Snoc(h, w, [], Check(InitTicket));
    ExecNone(h, w);
    assert [] + [Check(InitTicket)] == [Check(InitTicket)];
    Snoc(h, w, [Check(InitTicket)], Init(cmp));
    assert w.tickets + multiset{InitTicket} - multiset{InitTicket} == w.tickets;
  }

  lemma InitDone(h: Hash, w: World, cmp: Computation, sent: bool, v: World, x: World)
    requires Exec(h, w, [Check(InitTicket)] + [Init(cmp)]) == v
    requires Exec(h, v, Adds(|TransitionsFor(cmp.datasets)|)) == x
    ensures Exec(h, w, [Check(InitTicket)] + InitRun(cmp, sent)) == Step(h, x, Finish(sent))
  {
    hide Exec, TransitionsFor, Adds, Step;
    var a, b := [Check(InitTicket)] + [Init(cmp)], Adds(|TransitionsFor(cmp.datasets)|);
    ExecSplits(h, w, a, b);
    Snoc(h, w, a + b, Finish(sent));
    assert [Check(InitTicket)] + InitRun(cmp, sent) == a + b + [Finish(sent)];
  }
}
