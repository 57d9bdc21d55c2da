/** Progress: within one lifetime every commit moves the machine strictly up. This holds
    exactly as long as no handler of an ended lifetime moves it elsewhere. */
module Progress {
  import opened Bytes
  import opened Framing
  import opened Agent
  import opened Sections
  import opened Protocol
  import opened Fence
  import opened Routing

  // ----- Runs under a condition -----

  /** Every step of the run meets `ok` in the world it is taken from. */
  predicate Along(h: Hash, w: World, ls: seq<Label>, ok: (World, Label) -> bool)
    decreases |ls|
  {
    ls == [] || (ok(w, ls[0]) && Along(h, Step(h, w, ls[0]), ls[1..], ok))
  }

  lemma {:induction false} ExecSplits(h: Hash, w: World, a: seq<Label>, b: seq<Label>)
    ensures Exec(h, w, a + b) == Exec(h, Exec(h, w, a), b)
    decreases |a|
  {
    hide Step;
    if a == [] {
      assert a + b == b;
    } else {
      assert (a + b)[0] == a[0] && (a + b)[1..] == a[1..] + b;
      ExecSplits(h, Step(h, w, a[0]), a[1..], b);
    }
  }

  lemma {:induction false} AlongSplits(h: Hash, w: World, a: seq<Label>, b: seq<Label>, ok: (World, Label) -> bool)
    ensures Along(h, w, a + b, ok) <==> Along(h, w, a, ok) && Along(h, Exec(h, w, a), b, ok)
    decreases |a|
  {
    hide Step;
    if a == [] {
      assert a + b == b;
    } else {
      assert (a + b)[0] == a[0] && (a + b)[1..] == a[1..] + b;
      AlongSplits(h, Step(h, w, a[0]), a[1..], b, ok);
    }
  }

  // ----- Commits -----

  /** The loop of the current lifetime. */
  function Own(w: World): Loop {
    if w.svc.life in w.loops then w.loops[w.svc.life] else Exited
  }

  /** The label moves the machine. */
  predicate Moves(w: World, l: Label) {
    l.Commit? && l.loop in w.loops && w.loops[l.loop].Chose?
  }

  function Target(w: World, l: Label): AgentState
    requires Moves(w, l)
  {
    w.loops[l.loop].next
  }

  /** A handler of an ended lifetime moves the machine. */
  predicate Stray(w: World, l: Label) {
    Moves(w, l) && l.loop != w.svc.life
  }

  predicate Steady(w: World, l: Label) {
    !Stray(w, l)
  }

  lemma MachineMoves(h: Hash, w: World, l: Label)
    ensures Step(h, w, l).svc.life == w.svc.life ==>
      Step(h, w, l).machine.state == if Moves(w, l) then Target(w, l) else w.machine.state
    ensures Step(h, w, l).svc.life >= w.svc.life && (Moves(w, l) ==> Step(h, w, l).svc.life == w.svc.life)
  {
    hide Perform, Enabled, Requests, NewResult, Passes, TransitionsFor, Added;
    if l.Do? {
      PerformLife(h, w.svc, l.work);
    }
  }

  lemma LoopsAreOld(w: World)
    requires Sane(w)
    ensures w.svc.life + 1 !in w.loops && (w.svc.life in w.loops <==> !w.hold.Stopping?)
  {
  }

  lemma ActionsAreOwn(w: World, next: AgentState)
    requires Sane(w) && !w.hold.Stopping?
    ensures next in w.machine.actions ==> w.machine.actions[next] == w.svc.life
  {
  }

  lemma SendFrame(w: World, event: Option<AgentEvent>, sent: bool)
    ensures Send(w, event, sent) == w.(loops := Send(w, event, sent).loops)
  {
  }

  /** What becomes of the current lifetime's loop. */
  lemma OwnNext(h: Hash, w: World, l: Label)
    requires Sane(w)
    ensures
      var v := Step(h, w, l);
      && (v.svc.life != w.svc.life ==> !Own(v).Chose? && !Own(v).Got? && v.machine.state == Idle)
      && (v.svc.life == w.svc.life && Own(v).Chose? ==>
           || Own(v) == Own(w)
           || (Own(w).Got? && v.machine.state == w.machine.state && (w.machine.state, Own(w).event) in w.machine.table
               && Own(v).next == w.machine.table[(w.machine.state, Own(w).event)]))
      && (l == Commit(w.svc.life) && Moves(w, l) ==> !Own(v).Chose?)
  {
    hide Perform, Enabled, Requests, NewResult, Passes, TransitionsFor, Added, Bound, Dated, Sourced;
    LoopsAreOld(w);
    if l.Do? {
      PerformLife(h, w.svc, l.work);
    }
  }

  // ----- Climbing -----

  /** A handler of an ended lifetime only climbs, and stays below what the current
      handler has chosen. */
  predicate Lifting(w: World, l: Label) {
    Stray(w, l) ==>
      && Rank(Target(w, l)) > Rank(w.machine.state)
      && (Own(w).Chose? ==> Rank(Own(w).next) > Rank(Target(w, l)))
  }

  /** The current handler is about to climb. */
  predicate Rising(w: World) {
    Own(w).Chose? ==> Rank(Own(w).next) > Rank(w.machine.state)
  }

  ghost predicate ClimbInv(w: World) {
    Sane(w) && RouteInv(w) && Rising(w)
  }

  /** The step moves the machine strictly up, if it moves it at all. */
  predicate Lifts(h: Hash, w: World, l: Label) {
    Moves(w, l) ==> Rank(Step(h, w, l).machine.state) > Rank(w.machine.state)
  }

  lemma RoutesClimb(w: World, event: AgentEvent)
    requires RouteInv(w)
    ensures (w.machine.state, event) in w.machine.table ==>
      Sound(w.machine.state, event, w.machine.table[(w.machine.state, event)])
  {
    hide Basic, Closing, Settled, Listed, Sound;
  }

  /** Exact for every step: the invariant is kept and a move goes strictly up, if and only if the step is lifting. */
  lemma LiftingIsExact(h: Hash, w: World, l: Label)
    requires ClimbInv(w)
    ensures ClimbInv(Step(h, w, l)) && Lifts(h, w, l) <==> Lifting(w, l)
  {
    hide Sane, RouteInv, Step;
    SaneStep(h, w, l);
    StepRoutes(h, w, l);
    MachineMoves(h, w, l);
    OwnNext(h, w, l);
    if Own(w).Got? {
      RoutesClimb(w, Own(w).event);
    }
    if Stray(w, l) {
      StrayKeepsOwn(h, w, l);
    }
  }

  lemma StrayKeepsOwn(h: Hash, w: World, l: Label)
    requires Stray(w, l)
    ensures
      var v := Step(h, w, l);
      Own(v) == Own(w) && v.machine.state == Target(w, l) && v.svc == w.svc && v.issued == w.issued && v.hold == w.hold
  {
  }

  /** A step that is not lifting falls or re-enters a state: at once, or with the next
      commit of the current handler. */
  lemma LapseFalls(h: Hash, w: World, l: Label)
    requires ClimbInv(w) && !Lifting(w, l)
    ensures
      var v := Step(h, w, l);
      var x := Step(h, v, Commit(v.svc.life));
      && v.svc.life == w.svc.life && x.svc.life == w.svc.life
      && (Rank(v.machine.state) <= Rank(w.machine.state)
          || (Moves(v, Commit(v.svc.life)) && Rank(x.machine.state) <= Rank(v.machine.state)))
  {
    hide Sane, RouteInv, Step;
    StrayKeepsOwn(h, w, l);
    var v := Step(h, w, l);
    MachineMoves(h, v, Commit(v.svc.life));
    CommitStays(h, v, v.svc.life);
  }

  lemma CommitStays(h: Hash, w: World, loop: nat)
    ensures Step(h, w, Commit(loop)).svc == w.svc
  {
  }

  lemma ClimbStart(sent: bool)
    ensures ClimbInv(Initial(sent))
  {
    hide Sane, RouteInv;
    SaneStart(sent);
    RouteStart(sent);
  }

  lemma {:induction false} ClimbExec(h: Hash, w: World, ls: seq<Label>)
    requires ClimbInv(w) && Along(h, w, ls, Lifting)
    ensures ClimbInv(Exec(h, w, ls))
    decreases |ls|
  {
    hide ClimbInv, Step, Lifting;
    if ls != [] {
      LiftingIsExact(h, w, ls[0]);
      ClimbExec(h, Step(h, w, ls[0]), ls[1..]);
    }
  }

  /** In every run of lifting steps, every commit moves the machine strictly up. */
  lemma CommitsClimb(h: Hash, sent: bool, ls: seq<Label>, l: Label)
    ensures
      var w := Exec(h, Initial(sent), ls);
      Along(h, Initial(sent), ls + [l], Lifting) && Moves(w, l) ==>
        Step(h, w, l).svc.life == w.svc.life && Rank(Step(h, w, l).machine.state) > Rank(w.machine.state)
  {
    hide ClimbInv, Step, Lifting, Exec, Initial;
    var w := Exec(h, Initial(sent), ls);
    AlongSplits(h, Initial(sent), ls, [l], Lifting);
    if Along(h, Initial(sent), ls + [l], Lifting) {
      assert Along(h, w, [l], Lifting) ==> Lifting(w, l);
      ClimbStart(sent);
      ClimbExec(h, Initial(sent), ls);
      LiftingIsExact(h, w, l);
      MachineMoves(h, w, l);
    }
  }

  /** From `w` to `v`: a later lifetime, or the same one with the machine in the same
      state or higher up. */
  predicate Climbs(w: World, v: World) {
    v.svc.life > w.svc.life || (v.svc.life == w.svc.life && Rank(w.machine.state) <= Rank(v.machine.state))
  }

  lemma {:induction false} ExecClimbs(h: Hash, w: World, ls: seq<Label>)
    requires ClimbInv(w) && Along(h, w, ls, Lifting)
    ensures Climbs(w, Exec(h, w, ls))
    decreases |ls|
  {
    hide ClimbInv, Step, Lifting;
    if ls != [] {
      LiftingIsExact(h, w, ls[0]);
      MachineMoves(h, w, ls[0]);
      ExecClimbs(h, Step(h, w, ls[0]), ls[1..]);
    }
  }

  /** How often the run enters state `s` in lifetime `life`. */
  function Entries(h: Hash, w: World, ls: seq<Label>, life: nat, s: AgentState): nat
    decreases |ls|
  {
    if ls == [] then 0 else
    (if Moves(w, ls[0]) && w.svc.life == life && Target(w, ls[0]) == s then 1 else 0)
    + Entries(h, Step(h, w, ls[0]), ls[1..], life, s)
  }

  /** From here on a lifetime enters a state at most once, and not at all if the machine
      is there already or past it, or the lifetime has ended. */
  lemma {:induction false} EntersOnce(h: Hash, w: World, ls: seq<Label>, life: nat, s: AgentState)
    requires ClimbInv(w) && Along(h, w, ls, Lifting)
    ensures Entries(h, w, ls, life, s) <=
      if life < w.svc.life || (life == w.svc.life && Rank(s) <= Rank(w.machine.state)) then 0 else 1
    decreases |ls|
  {
    hide ClimbInv, Step, Lifting;
    if ls != [] {
      LiftingIsExact(h, w, ls[0]);
      MachineMoves(h, w, ls[0]);
      EntersOnce(h, Step(h, w, ls[0]), ls[1..], life, s);
    }
  }

  /** No state is entered twice in a lifetime. */
  lemma NoStateEnteredTwice(h: Hash, sent: bool, ls: seq<Label>, life: nat, s: AgentState)
    ensures Along(h, Initial(sent), ls, Lifting) ==> Entries(h, Initial(sent), ls, life, s) <= 1
  {
    hide ClimbInv, Entries, Along, Initial;
    if Along(h, Initial(sent), ls, Lifting) {
      ClimbStart(sent);
      EntersOnce(h, Initial(sent), ls, life, s);
    }
  }

  lemma RankInjective(a: AgentState, b: AgentState)
    ensures Rank(a) == Rank(b) <==> a == b
  {
  }

  // ----- The manifest behind the state -----

  /** A handler of an ended lifetime moves the machine past ReceivingManifest only when
      there is a manifest. */
  predicate Knowing(w: World, l: Label) {
    Stray(w, l) && Rank(Target(w, l)) >= 2 ==> w.svc.declared.Some?
  }

  /** Past ReceivingManifest, and on the way there, there is a manifest. */
  predicate Known(w: World) {
    Rank(w.machine.state) >= 2 || Own(w) == Got(ManifestReceived) || (Own(w).Chose? && Rank(Own(w).next) >= 2)
    ==> w.svc.declared.Some?
  }

  ghost predicate KnownInv(w: World) {
    Sane(w) && RouteInv(w) && Known(w)
  }

  /** Exact for every step. */
  lemma KnowingIsExact(h: Hash, w: World, l: Label)
    requires KnownInv(w)
    ensures KnownInv(Step(h, w, l)) <==> Knowing(w, l)
  {
    hide Sane, RouteInv, Step;
    SaneStep(h, w, l);
    StepRoutes(h, w, l);
    MachineMoves(h, w, l);
    OwnNext(h, w, l);
    DeclaredStays(h, w, l);
    GotNext(h, w, l);
    if Own(w).Got? {
      RoutesClimb(w, Own(w).event);
    }
    if Stray(w, l) {
      StrayKeepsOwn(h, w, l);
    }
  }

  lemma DeclaredStays(h: Hash, w: World, l: Label)
    requires Sane(w)
    ensures Step(h, w, l).svc.life == w.svc.life && w.svc.declared.Some? ==> Step(h, w, l).svc.declared.Some?
  {
    hide Perform, Enabled, Requests, NewResult, Passes, TransitionsFor, Added;
    if l.Do? {
      PerformAdvances(h, w.svc, l.work);
    }
  }

  lemma GotNext(h: Hash, w: World, l: Label)
    requires Sane(w) && RouteInv(w)
    ensures
      var v := Step(h, w, l);
      Own(v) == Got(ManifestReceived) ==> Own(w) == Got(ManifestReceived) || v.svc.declared.Some?
  {
    hide Perform, Enabled, Requests, NewResult, Passes, TransitionsFor, Added, Routed, Basic, Closing, Agrees, Listed, Bound, Dated, Sourced, Extended;
    if l.Do? {
      PerformAdvances(h, w.svc, l.work);
    }
  }

  lemma KnownStart(sent: bool)
    ensures KnownInv(Initial(sent))
  {
    hide Sane, RouteInv;
    SaneStart(sent);
    RouteStart(sent);
  }

  lemma {:induction false} KnownExec(h: Hash, w: World, ls: seq<Label>)
    requires KnownInv(w) && Along(h, w, ls, Knowing)
    ensures KnownInv(Exec(h, w, ls))
    decreases |ls|
  {
    hide KnownInv, Step, Knowing;
    if ls != [] {
      KnowingIsExact(h, w, ls[0]);
      KnownExec(h, Step(h, w, ls[0]), ls[1..]);
    }
  }

  /** Past ReceivingManifest there is a manifest of this lifetime. */
  lemma ManifestKnown(h: Hash, sent: bool, ls: seq<Label>)
    ensures
      var w := Exec(h, Initial(sent), ls);
      Along(h, Initial(sent), ls, Knowing) && Rank(w.machine.state) >= 2 ==> w.svc.declared.Some?
  {
    hide Along, Exec, Initial, Sane, RouteInv;
    if Along(h, Initial(sent), ls, Knowing) {
      KnownStart(sent);
      KnownExec(h, Initial(sent), ls);
    }
  }
}
