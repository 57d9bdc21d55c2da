/** The lifetime fence, for every schedule of the steps of module Protocol: whatever
    was born in an ended or cancelled lifetime is invisible. */
module Fence {
  import opened Bytes
  import opened Framing
  import opened Agent
  import opened Sections
  import opened Protocol

  predicate StaleLabel(w: World, l: Label) {
    l.Do? && Stale(w.svc, l.work)
  }

  /** Everything but the bookkeeping of which goroutines are still to run: fields,
      files, notices, machine, events, requests and results. */
  ghost predicate SameView(w: World, v: World) {
    && w.svc == v.svc && w.machine == v.machine && w.loops == v.loops
    && w.issued == v.issued && w.source == v.source && w.tickets == v.tickets && w.hold == v.hold
  }

  /** A stale action or response changes nothing. */
  lemma StaleInert(h: Hash, w: World, l: Label)
    requires StaleLabel(w, l)
    ensures SameView(Step(h, w, l), w)
    ensures Step(h, w, l).tasks <= w.tasks && Step(h, w, l).open <= w.open
  {
    hide Perform, StepInit, StepAdd, StepStop, StepSet, StepFinish, StepPick, StepCommit;
    StaleDoesNothing(h, w.svc, l.work);
  }

  // ----- What every step keeps -----

  /** Every action is bound to the current lifetime, except those StopComputation has
      yet to install. */
  ghost predicate Bound(w: World) {
    && w.machine.actions.Keys == ACTIVE && (w.hold.Stopping? ==> w.hold.left <= ACTIVE)
    && (forall s :: s in ACTIVE ==> w.machine.actions[s] <= w.svc.life)
    && (forall s :: s in ACTIVE && !(w.hold.Stopping? && s in w.hold.left) ==> w.machine.actions[s] == w.svc.life)
  }

  /** The current lifetime has its loop, except while StopComputation has yet to start it. */
  ghost predicate Looped(w: World) {
    && (w.svc.life in w.loops <==> !w.hold.Stopping?)
    && (forall e :: e in w.loops ==> e <= w.svc.life)
  }

  /** No goroutine or request outruns the current lifetime. */
  ghost predicate Dated(w: World) {
    && (forall t :: t in w.tasks ==> t.life <= w.svc.life)
    && (forall i :: 0 <= i < |w.issued| ==> w.issued[i].life <= w.svc.life)
    && (forall i :: i in w.open ==> i < |w.issued|)
  }

  /** A stored result came from a Run request issued in the current lifetime. */
  predicate Sourced(w: World) {
    && (w.svc.result.Some? <==> w.source.Some?)
    && (w.source.Some? ==> w.source.value < |w.issued| && w.issued[w.source.value].life == w.svc.life)
  }

  ghost predicate Sane(w: World) {
    Bound(w) && Looped(w) && Dated(w) && Sourced(w)
  }

  lemma SaneSettle(w: World, o: Outcome, sent: bool)
    requires Sane(w.(svc := o.svc))
    ensures Sane(Settle(w, o, sent))
  {
  }

  lemma SaneConsume(w: World, k: Work, s: Service)
    requires Sane(w) && Enabled(w, k) && s.life == w.svc.life
    requires s.result == if NewResult(w.svc, k).Some? then NewResult(w.svc, k) else w.svc.result
    ensures Sane(Consume(w, k).(svc := s))
  {
    hide Requests, Bound, Looped, Dated, NewResult;
    var v := Consume(w, k).(svc := s);
    BoundFrame(w, v);
    LoopedFrame(w, v);
    DatedConsume(w, k, s);
    SourcedConsume(w, k, s);
  }

  lemma DatedConsume(w: World, k: Work, s: Service)
    requires Dated(w) && Enabled(w, k) && s.life == w.svc.life
    ensures Dated(Consume(w, k).(svc := s))
  {
    hide Requests, NewResult;
  }

  lemma SourcedConsume(w: World, k: Work, s: Service)
    requires Sourced(w) && Enabled(w, k) && s.life == w.svc.life
    requires s.result == if NewResult(w.svc, k).Some? then NewResult(w.svc, k) else w.svc.result
    ensures Sourced(Consume(w, k).(svc := s))
  {
    hide Requests;
  }

  lemma SaneDo(h: Hash, w: World, k: Work, sent: bool)
    requires Sane(w)
    ensures Sane(StepDo(h, w, k, sent))
  {
    hide Perform, Settle, Consume, NewResult, Sane;
    if w.hold.Free? && Enabled(w, k) {
      PerformLife(h, w.svc, k);
      SaneConsume(w, k, Perform(h, w.svc, k).svc);
      SaneSettle(Consume(w, k), Perform(h, w.svc, k), sent);
    }
  }

  lemma PerformLife(h: Hash, s: Service, k: Work)
    ensures
      var o := Perform(h, s, k);
      && o.svc.life == s.life && o.svc.cancelled == s.cancelled
      && o.svc.result == if NewResult(s, k).Some? then NewResult(s, k) else s.result
  {
    hide Perform, Armed;
    PerformAdvances(h, s, k);
  }

  lemma SaneInit(w: World, cmp: Computation)
    requires Sane(w)
    ensures Sane(StepInit(w, cmp)) && Sane(StepAdd(w))
  {
    hide TransitionsFor, Added;
  }

  lemma SaneStop(w: World, end: StopEnd)
    requires Sane(w)
    ensures Sane(StepStop(w, end))
  {
  }

  lemma SaneSet(w: World, state: AgentState)
    requires Sane(w)
    ensures Sane(StepSet(w, state))
  {
    hide Looped;
    var v := StepSet(w, state);
    if v != w {
      assert v.machine.actions.Keys == w.machine.actions.Keys + {state} == ACTIVE;
      assert Bound(v);
      LoopedFrame(w, v);
    }
  }

  lemma LoopedFrame(w: World, v: World)
    requires v.svc.life == w.svc.life && v.loops == w.loops && v.hold.Stopping? == w.hold.Stopping?
    ensures Looped(w) == Looped(v)
  {
  }

  lemma BoundFrame(w: World, v: World)
    requires v.svc.life == w.svc.life && v.machine.actions == w.machine.actions
    requires v.hold == w.hold || (!w.hold.Stopping? && !v.hold.Stopping?) || (w.hold == Stopping({}) && v.hold == Free)
    ensures Bound(w) ==> Bound(v)
  {
  }

  lemma SaneFinish(w: World, sent: bool)
    requires Sane(w)
    ensures Sane(StepFinish(w, sent))
  {
    hide Bound;
    BoundFrame(w, StepFinish(w, sent));
  }

  lemma SaneHandler(w: World, loop: nat)
    requires Sane(w)
    ensures Sane(StepPick(w, loop)) && Sane(StepCommit(w, loop))
  {
  }

  lemma SaneStep(h: Hash, w: World, l: Label)
    requires Sane(w)
    ensures Sane(Step(h, w, l))
  {
    hide StepDo, StepInit, StepAdd, StepStop, StepSet, StepFinish, StepPick, StepCommit, Passes;
    match l
    case Init(cmp) => SaneInit(w, cmp);
    case AddTransition => SaneInit(w, w.svc.cmp);
    case Do(k, sent) => SaneDo(h, w, k, sent);
    case Stop(end) => SaneStop(w, end);
    case SetAction(state) => SaneSet(w, state);
    case Finish(sent) => SaneFinish(w, sent);
    case Pick(loop) => SaneHandler(w, loop);
    case Commit(loop) => SaneHandler(w, loop);
    case _ =>
  }

  lemma {:induction false} SaneExec(h: Hash, w: World, ls: seq<Label>)
    requires Sane(w)
    ensures Sane(Exec(h, w, ls))
    decreases |ls|
  {
    hide Step, Sane;
    if ls != [] {
      SaneStep(h, w, ls[0]);
      SaneExec(h, Step(h, w, ls[0]), ls[1..]);
    }
  }

  lemma SaneStart(sent: bool)
    ensures Sane(Initial(sent))
  {
  }

  /** In every run, a stored result was produced by a request of the current lifetime. */
  lemma ResultIsOfThisLifetime(h: Hash, sent: bool, ls: seq<Label>)
    ensures
      var w := Exec(h, Initial(sent), ls);
      w.svc.result.Some? ==>
        w.source.Some? && w.source.value < |w.issued| && w.issued[w.source.value].life == w.svc.life
  {
    hide Exec, Bound, Looped, Dated;
    SaneStart(sent);
    SaneExec(h, Initial(sent), ls);
  }

  // ----- Non-interference -----

  /** The run without its stale actions and responses. */
  function Purge(h: Hash, w: World, ls: seq<Label>): seq<Label>
    decreases |ls|
  {
    if ls == [] then [] else
    (if StaleLabel(w, ls[0]) then [] else [ls[0]]) + Purge(h, Step(h, w, ls[0]), ls[1..])
  }

  /** The lifetime whose goroutines still count. */
  function Active(s: Service): Option<nat> {
    if s.cancelled then None else Some(s.life)
  }

  ghost predicate PeerTasks(active: Option<nat>, a: multiset<Task>, b: multiset<Task>) {
    active.Some? ==> forall t: Task :: t.life == active.value ==> a[t] == b[t]
  }

  ghost predicate PeerCalls(active: Option<nat>, issued: seq<Issue>, a: set<nat>, b: set<nat>) {
    active.Some? ==> forall i :: 0 <= i < |issued| && issued[i].life == active.value ==> (i in a <==> i in b)
  }

  /** Equal views, and the same goroutines and calls of the current lifetime. */
  ghost predicate Alike(w: World, v: World) {
    && Sane(w) && Sane(v) && SameView(w, v)
    && PeerTasks(Active(w.svc), w.tasks, v.tasks)
    && PeerCalls(Active(w.svc), w.issued, w.open, v.open)
  }

  lemma PeersIgnoreOld(active: Option<nat>, a: multiset<Task>, b: multiset<Task>, t: Task)
    requires PeerTasks(active, a, b)
    ensures PeerTasks(active, a + multiset{t}, b + multiset{t})
    ensures PeerTasks(active, a - multiset{t}, b - multiset{t})
    ensures active != Some(t.life) ==> PeerTasks(active, a - multiset{t}, b)
  {
  }

  lemma CallsIgnoreOld(active: Option<nat>, issued: seq<Issue>, a: set<nat>, b: set<nat>, call: nat)
    requires PeerCalls(active, issued, a, b)
    ensures PeerCalls(active, issued, a - {call}, b - {call})
    ensures call < |issued| && active != Some(issued[call].life) ==> PeerCalls(active, issued, a - {call}, b)
  {
  }

  lemma CallsGrow(active: Option<nat>, issued: seq<Issue>, a: set<nat>, b: set<nat>, r: seq<Issue>)
    requires PeerCalls(active, issued, a, b) && |r| <= 1
    ensures
      var grown := if r == [] then {} else {|issued|};
      PeerCalls(active, issued + r, a + grown, b + grown)
  {
  }

  /** A new lifetime starts with no goroutines and no calls. */
  lemma PeersFresh(life: nat, w: World, v: World)
    requires Sane(w) && Sane(v) && w.svc.life < life && v.svc.life < life && w.issued == v.issued
    ensures PeerTasks(Some(life), w.tasks, v.tasks) && PeerCalls(Some(life), w.issued, w.open, v.open)
  {
  }

  lemma AlikeSettle(w: World, v: World, o: Outcome, sent: bool)
    requires Alike(w.(svc := o.svc), v.(svc := o.svc))
    ensures Alike(Settle(w, o, sent), Settle(v, o, sent))
  {
    hide Sane, PeerTasks, PeerCalls;
    SaneSettle(w, o, sent);
    SaneSettle(v, o, sent);
  }

  /** The bookkeeping of work of the current lifetime is the same on both sides. */
  lemma AlikeConsume(w: World, v: World, k: Work, s: Service)
    requires Alike(w, v) && Enabled(w, k) && Enabled(v, k)
    requires s.life == w.svc.life && s.cancelled == w.svc.cancelled
    requires s.result == if NewResult(w.svc, k).Some? then NewResult(w.svc, k) else w.svc.result
    ensures Alike(Consume(w, k).(svc := s), Consume(v, k).(svc := s))
  {
    hide Sane, PeerTasks, PeerCalls, Consume, NewResult;
    SaneConsume(w, k, s);
    SaneConsume(v, k, s);
    PeersConsume(w, v, k);
  }

  lemma PeersConsume(w: World, v: World, k: Work)
    requires SameView(w, v)
    requires PeerTasks(Active(w.svc), w.tasks, v.tasks) && PeerCalls(Active(w.svc), w.issued, w.open, v.open)
    ensures
      var w', v' := Consume(w, k), Consume(v, k);
      && SameView(w', v')
      && PeerTasks(Active(w.svc), w'.tasks, v'.tasks) && PeerCalls(Active(w.svc), w'.issued, w'.open, v'.open)
  {
    hide PeerTasks, PeerCalls, Requests, NewResult;
    if k.Respond? {
      CallsIgnoreOld(Active(w.svc), w.issued, w.open, v.open, k.call);
    } else if Scheduled(k) {
      PeersIgnoreOld(Active(w.svc), w.tasks, v.tasks, TaskOf(k));
      CallsGrow(Active(w.svc), w.issued, w.open, v.open, Requests(w.svc, k));
      assert w.open + {} == w.open && v.open + {} == v.open;
    }
  }

  lemma EnabledAlike(w: World, v: World, k: Work)
    requires Alike(w, v) && !Stale(w.svc, k)
    ensures Enabled(w, k) == Enabled(v, k)
  {
    hide Sane;
  }

  lemma AlikeDo(h: Hash, w: World, v: World, k: Work, sent: bool)
    requires Alike(w, v) && !Stale(w.svc, k)
    ensures Alike(StepDo(h, w, k, sent), StepDo(h, v, k, sent))
  {
    hide Perform, Settle, Consume, NewResult, Enabled, Sane, PeerTasks, PeerCalls;
    EnabledAlike(w, v, k);
    if w.hold.Free? && Enabled(w, k) {
      PerformLife(h, w.svc, k);
      AlikeConsume(w, v, k, Perform(h, w.svc, k).svc);
      AlikeSettle(Consume(w, k), Consume(v, k), Perform(h, w.svc, k), sent);
    }
  }

  lemma AlikeStop(w: World, v: World, end: StopEnd)
    requires Alike(w, v)
    ensures Alike(StepStop(w, end), StepStop(v, end))
  {
    hide Sane, PeerTasks, PeerCalls;
    SaneStop(w, end);
    SaneStop(v, end);
    PeersFresh(w.svc.life + 1, w, v);
    NoPeers(w, v);
  }

  lemma NoPeers(w: World, v: World)
    ensures PeerTasks(None, w.tasks, v.tasks) && PeerCalls(None, w.issued, w.open, v.open)
  {
  }

  lemma AlikeInit(w: World, v: World, cmp: Computation)
    requires Alike(w, v)
    ensures Alike(StepInit(w, cmp), StepInit(v, cmp)) && Alike(StepAdd(w), StepAdd(v))
  {
    hide Sane, PeerTasks, PeerCalls, TransitionsFor, Added;
    SaneInit(w, cmp);
    SaneInit(v, cmp);
  }

  lemma AlikeRestart(w: World, v: World, state: AgentState, sent: bool)
    requires Alike(w, v)
    ensures Alike(StepSet(w, state), StepSet(v, state)) && Alike(StepFinish(w, sent), StepFinish(v, sent))
  {
    hide Sane, PeerTasks, PeerCalls;
    SaneSet(w, state);
    SaneSet(v, state);
    SaneFinish(w, sent);
    SaneFinish(v, sent);
  }

  lemma AlikeHandler(w: World, v: World, loop: nat)
    requires Alike(w, v)
    ensures Alike(StepPick(w, loop), StepPick(v, loop))
    ensures Alike(StepCommit(w, loop), StepCommit(v, loop))
  {
    hide Sane, PeerTasks, PeerCalls;
    SaneHandler(w, loop);
    SaneHandler(v, loop);
    if loop in w.loops && w.loops[loop].Chose? && w.loops[loop].next in w.machine.actions {
      var next := w.loops[loop].next;
      PeersIgnoreOld(Active(w.svc), w.tasks, v.tasks, Task(next, w.machine.actions[next]));
    }
  }

  lemma AlikeStep(h: Hash, w: World, v: World, l: Label)
    requires Alike(w, v) && !StaleLabel(w, l)
    ensures Alike(Step(h, w, l), Step(h, v, l))
  {
    hide StepDo, StepInit, StepAdd, StepStop, StepSet, StepFinish, StepPick, StepCommit, Passes, PeerTasks, PeerCalls, Sane;
    SaneStep(h, w, l);
    SaneStep(h, v, l);
    NoPeers(w, v);
    match l
    case Init(cmp) => AlikeInit(w, v, cmp);
    case AddTransition => AlikeInit(w, v, w.svc.cmp);
    case Do(k, sent) => AlikeDo(h, w, v, k, sent);
    case Stop(end) => AlikeStop(w, v, end);
    case SetAction(state) => AlikeRestart(w, v, state, false);
    case Finish(sent) => AlikeRestart(w, v, Idle, sent);
    case Pick(loop) => AlikeHandler(w, v, loop);
    case Commit(loop) => AlikeHandler(w, v, loop);
    case _ =>
  }

  lemma StaleAlike(h: Hash, w: World, v: World, l: Label)
    requires Alike(w, v) && StaleLabel(w, l)
    ensures Alike(Step(h, w, l), v)
  {
    hide Perform, StepInit, StepAdd, StepStop, StepSet, StepFinish, StepPick, StepCommit, Sane, PeerTasks, PeerCalls;
    SaneStep(h, w, l);
    StaleInert(h, w, l);
    var k := l.work;
    if k.Respond? {
      CallsIgnoreOld(Active(w.svc), w.issued, w.open, v.open, k.call);
    } else {
      PeersIgnoreOld(Active(w.svc), w.tasks, v.tasks, TaskOf(k));
    }
  }

  lemma {:induction false} PurgeAlike(h: Hash, w: World, v: World, ls: seq<Label>)
    requires Alike(w, v)
    ensures Alike(Exec(h, w, ls), Exec(h, v, Purge(h, w, ls)))
    decreases |ls|
  {
    hide Step, Alike, StaleLabel;
    if ls != [] {
      var w' := Step(h, w, ls[0]);
      var rest := Purge(h, w', ls[1..]);
      if StaleLabel(w, ls[0]) {
        StaleAlike(h, w, v, ls[0]);
        PurgeAlike(h, w', v, ls[1..]);
        assert Purge(h, w, ls) == rest;
      } else {
        AlikeStep(h, w, v, ls[0]);
        PurgeAlike(h, w', Step(h, v, ls[0]), ls[1..]);
        assert Purge(h, w, ls) == [ls[0]] + rest;
      }
    }
  }

  /** The fence: delete from any run every action and response that belongs to an
      ended or cancelled lifetime, and the same fields, files, notices, machine
      state, requests and result remain. */
  lemma StaleWorkIsInvisible(h: Hash, sent: bool, ls: seq<Label>)
    ensures
      var w0 := Initial(sent);
      SameView(Exec(h, w0, ls), Exec(h, w0, Purge(h, w0, ls)))
  {
    hide Exec, Purge, Sane;
    SaneStart(sent);
    PurgeAlike(h, Initial(sent), Initial(sent), ls);
  }
}
