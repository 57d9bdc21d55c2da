/** How often a lifetime asks the runner to run: at most once, exactly as long as no
    handler of an ended lifetime opens the way to a second time. */
module Runs {
  import opened Bytes
  import opened Framing
  import opened Agent
  import opened Sections
  import opened Protocol
  import opened Fence
  import opened Routing
  import opened Progress

  function IssuedIn(issued: seq<Issue>, life: nat): nat {
    if issued == [] then 0
    else IssuedIn(issued[..|issued| - 1], life) + if issued[|issued| - 1].life == life then 1 else 0
  }

  /** The requests of the current lifetime and its Running actions that wait for `mu`. */
  function Launches(w: World): nat {
    w.tasks[Task(Running, w.svc.life)] + IssuedIn(w.issued, w.svc.life)
  }

  /** The commit starts a Running action of the current lifetime. */
  predicate Fires(w: World, l: Label)
    requires Moves(w, l)
  {
    Target(w, l) == Running && Running in w.machine.actions && w.machine.actions[Running] == w.svc.life
  }

  /** A handler of an ended lifetime neither moves a machine that has run back before
      Running, nor starts a second run, nor starts one behind the back of a handler that
      is about to move the machine back or start another. */
  predicate Sparing(w: World, l: Label) {
    Stray(w, l) ==>
      if Launches(w) > 0 then Rank(Target(w, l)) >= 4 && !Fires(w, l)
      else Fires(w, l) && Own(w).Chose? ==> Rank(Own(w).next) >= 5
  }

  /** At most one launch; once there is one, the machine is at Running or past it and the
      current handler is about to leave it behind. */
  predicate Single(w: World) {
    && Launches(w) <= 1
    && (Launches(w) > 0 ==> Rank(w.machine.state) >= 4 && (Own(w).Chose? ==> Rank(Own(w).next) >= 5))
  }

  ghost predicate RunInv(w: World) {
    Sane(w) && RouteInv(w) && Single(w) && forall e: nat :: e < w.svc.life ==> IssuedIn(w.issued, e) <= 1
  }

  // ----- Counting -----

  lemma {:induction false} IssuedInGrows(issued: seq<Issue>, r: seq<Issue>, life: nat)
    requires |r| <= 1
    ensures IssuedIn(issued + r, life) == IssuedIn(issued, life) + if r != [] && r[0].life == life then 1 else 0
  {
    if r == [] {
      assert issued + r == issued;
    } else {
      assert (issued + r)[..|issued|] == issued;
    }
  }

  lemma {:induction false} NoneIssued(issued: seq<Issue>, life: nat)
    requires forall i :: 0 <= i < |issued| ==> issued[i].life < life
    ensures IssuedIn(issued, life) == 0
    decreases |issued|
  {
    if issued != [] {
      NoneIssued(issued[..|issued| - 1], life);
    }
  }

  /** A section moves a waiting launch to the requests or drops it; ended lifetimes issue nothing. */
  lemma ConsumeCounts(w: World, k: Work, e: nat)
    requires Enabled(w, k)
    ensures
      var v := Consume(w, k);
      && v.tasks[Task(Running, w.svc.life)] + IssuedIn(v.issued, w.svc.life) <= Launches(w)
      && (e < w.svc.life ==> IssuedIn(v.issued, e) == IssuedIn(w.issued, e))
  {
    hide NewResult, IssuedIn;
    var r := Requests(w.svc, k);
    IssuedInGrows(w.issued, r, w.svc.life);
    IssuedInGrows(w.issued, r, e);
  }

  lemma DoCounts(h: Hash, w: World, k: Work, sent: bool, e: nat)
    ensures
      var v := StepDo(h, w, k, sent);
      && v.svc.life == w.svc.life && Launches(v) <= Launches(w)
      && (e < w.svc.life ==> IssuedIn(v.issued, e) == IssuedIn(w.issued, e))
  {
    hide Perform, Enabled, Requests, NewResult, IssuedIn, Send, Consume;
    if w.hold.Free? && Enabled(w, k) {
      PerformLife(h, w.svc, k);
      ConsumeCounts(w, k, e);
      SendFrame(Consume(w, k).(svc := Perform(h, w.svc, k).svc), Perform(h, w.svc, k).event, sent);
    }
  }

  lemma StopCounts(w: World, end: StopEnd)
    requires Sane(w)
    ensures
      var v := StepStop(w, end);
      v.issued == w.issued && if v.svc.life == w.svc.life then Launches(v) == Launches(w) else Launches(v) == 0 && v.svc.life == w.svc.life + 1
  {
    hide IssuedIn;
    NoneIssued(w.issued, w.svc.life + 1);
  }

  lemma CommitCounts(w: World, loop: nat)
    requires Sane(w)
    ensures
      var l, v := Commit(loop), StepCommit(w, loop);
      && v.svc.life == w.svc.life && v.issued == w.issued
      && Launches(v) == Launches(w) + if Moves(w, l) && Fires(w, l) then 1 else 0
  {
    hide IssuedIn, Dated, Sourced;
  }

  lemma OthersCount(h: Hash, w: World, l: Label)
    requires !l.Do? && !l.Stop? && !l.Commit?
    ensures
      var v := Step(h, w, l);
      v.svc.life == w.svc.life && v.issued == w.issued && v.tasks == w.tasks
  {
    hide IssuedIn, StepDo, StepStop, TransitionsFor, Passes;
  }

  /** No step but a commit adds a launch, and ended lifetimes are closed. */
  lemma StepCounts(h: Hash, w: World, l: Label, e: nat)
    requires Sane(w)
    ensures
      var v := Step(h, w, l);
      && (v.svc.life == w.svc.life ==> Launches(v) <= Launches(w) + if Moves(w, l) && Fires(w, l) then 1 else 0)
      && (Moves(w, l) ==> Launches(v) == Launches(w) + if Fires(w, l) then 1 else 0)
      && (v.svc.life != w.svc.life ==> Launches(v) == 0 && v.svc.life == w.svc.life + 1 && v.issued == w.issued)
      && (e < w.svc.life ==> IssuedIn(v.issued, e) == IssuedIn(w.issued, e))
  {
    hide StepDo, StepInit, StepAdd, StepStop, StepSet, StepFinish, StepPick, StepCommit, Passes, IssuedIn, Sane;
    match l
    case Do(k, sent) => DoCounts(h, w, k, sent, e);
    case Stop(end) => StopCounts(w, end);
    case Commit(loop) => CommitCounts(w, loop);
    case _ => OthersCount(h, w, l);
  }

  // ----- Exactness -----

  lemma EndedClosed(h: Hash, w: World, l: Label)
    requires RunInv(w)
    ensures forall e: nat :: e < Step(h, w, l).svc.life ==> IssuedIn(Step(h, w, l).issued, e) <= 1
  {
    hide Step, Sane, RouteInv, IssuedIn;
    MachineMoves(h, w, l);
    var v := Step(h, w, l);
    forall e: nat | e < v.svc.life
      ensures IssuedIn(v.issued, e) <= 1
    {
      StepCounts(h, w, l, e);
    }
  }

  /** Exact for every step: the invariant is kept if and only if the step is sparing. */
  lemma SparingIsExact(h: Hash, w: World, l: Label)
    requires RunInv(w)
    ensures RunInv(Step(h, w, l)) <==> Sparing(w, l)
  {
    hide Step, Sane, RouteInv, IssuedIn, Launches;
    SaneStep(h, w, l);
    StepRoutes(h, w, l);
    EndedClosed(h, w, l);
    MachineMoves(h, w, l);
    OwnNext(h, w, l);
    StepCounts(h, w, l, 0);
    if Own(w).Got? {
      RoutesClimb(w, Own(w).event);
    }
    if Stray(w, l) {
      StrayKeepsOwn(h, w, l);
    } else if Moves(w, l) {
      OwnFires(w);
    }
  }

  /** A commit of the current lifetime to Running starts its action. */
  lemma OwnFires(w: World)
    requires Sane(w)
    ensures w.svc.life in w.loops && w.loops[w.svc.life] == Chose(Running) ==> Fires(w, Commit(w.svc.life))
  {
  }

  lemma RunStart(sent: bool)
    ensures RunInv(Initial(sent))
  {
    hide Sane, RouteInv;
    SaneStart(sent);
    RouteStart(sent);
  }

  lemma {:induction false} RunExec(h: Hash, w: World, ls: seq<Label>)
    requires RunInv(w) && Along(h, w, ls, Sparing)
    ensures RunInv(Exec(h, w, ls))
    decreases |ls|
  {
    hide RunInv, Step, Sparing;
    if ls != [] {
      SparingIsExact(h, w, ls[0]);
      RunExec(h, Step(h, w, ls[0]), ls[1..]);
    }
  }

  /** The runner is asked to run at most once per lifetime. */
  lemma RunsOncePerLifetime(h: Hash, sent: bool, ls: seq<Label>, life: nat)
    ensures Along(h, Initial(sent), ls, Sparing) ==> IssuedIn(Exec(h, Initial(sent), ls).issued, life) <= 1
  {
    hide Along, Exec, Initial, RouteInv, Bound, Looped, Sourced, IssuedIn;
    if Along(h, Initial(sent), ls, Sparing) {
      RunStart(sent);
      RunExec(h, Initial(sent), ls);
      var w := Exec(h, Initial(sent), ls);
      if life > w.svc.life {
        NoneIssued(w.issued, life);
      }
    }
  }

  /** Lifting steps are sparing, so that runs of them run at most once as well. */
  lemma LiftingIsSparing(w: World, l: Label)
    requires RunInv(w) && Rising(w)
    ensures Lifting(w, l) ==> Sparing(w, l)
  {
    hide Sane, RouteInv, IssuedIn, Launches;
  }
}
