/** Dataset conservation over whole runs of the agent, in any schedule. */
module Accounts {
  import opened Bytes
  import opened Framing
  import opened Agent
  import opened Sections
  import opened Protocol
  import opened Datasets

  /** Every section but the two that deliver leaves the three accounts alone. */
  lemma PerformAccounts(h: Hash, s: Service, k: Work)
    requires Accounted(h, s)
    ensures Accounted(h, Perform(h, s, k).svc)
  {
    hide Accounted, AlgoBody, DataBody, FetchAlgorithmBody, FetchDatasetsBody, ResultBody, LaunchBody, NotifyBody, RespondBody;
    if k.Data? {
      DataAccounts(h, s, k.dataUp, k.dataDownload, k.stored);
    } else if k.FetchDatasets? {
      FetchAccounts(h, s, k.life, k.dirMade, k.dataIO);
    } else {
      OthersKeep(h, s, k);
      AccountedFrame(h, s, Perform(h, s, k).svc);
    }
  }

  predicate SameAccounts(s: Service, t: Service) {
    t.declared == s.declared && t.delivered == s.delivered && t.cmp == s.cmp
  }

  lemma OthersKeep(h: Hash, s: Service, k: Work)
    requires !k.Data? && !k.FetchDatasets?
    ensures SameAccounts(s, Perform(h, s, k).svc)
  {
    hide DataBody, FetchDatasetsBody, AlgoBody, FetchAlgorithmBody, LaunchBody, RespondBody;
    match k
    case Algo(up, download, stored) => AlgoKeeps(h, s, up, download, stored);
    case FetchAlgorithm(life, io) => FetchAlgorithmKeeps(h, s, life, io);
    case Launch(life, launch) => LaunchKeeps(s, life, launch);
    case Respond(life, _, results, algoRemoved) => RespondKeeps(s, life, results, algoRemoved);
    case _ =>
  }

  lemma AlgoKeeps(h: Hash, s: Service, up: AlgoUpload, download: Option<(bytes, bytes)>, stored: bool)
    ensures SameAccounts(s, AlgoBody(h, s, up, download, stored).svc)
  {
    hide Commitment;
  }

  lemma FetchAlgorithmKeeps(h: Hash, s: Service, life: nat, io: AlgorithmFetch)
    ensures SameAccounts(s, FetchAlgorithmBody(h, s, life, io).svc)
  {
    hide Commitment;
  }

  lemma LaunchKeeps(s: Service, life: nat, launch: Launch)
    ensures SameAccounts(s, LaunchBody(s, life, launch).svc)
  {
  }

  lemma RespondKeeps(s: Service, life: nat, results: Option<bytes>, algoRemoved: bool)
    ensures SameAccounts(s, RespondBody(s, life, results, algoRemoved).svc)
  {
  }

  lemma InitAccounts(h: Hash, s: Service, cmp: Computation)
    requires Accounted(h, s)
    ensures Accounted(h, InitBody(s, cmp).svc)
  {
    BalancedStart(h, cmp.datasets);
    hide Balanced;
  }

  lemma StopAccounts(h: Hash, s: Service, end: StopEnd)
    requires Accounted(h, s)
    ensures Accounted(h, StopBody(s, end).svc)
  {
    hide Balanced;
  }

  lemma StepAccounts(h: Hash, w: World, l: Label)
    requires Accounted(h, w.svc)
    ensures Accounted(h, Step(h, w, l).svc)
  {
    hide Accounted, Perform, InitBody, StopBody, Enabled, Requests, NewResult, TransitionsFor, Passes;
    match l
    case Init(cmp) => InitAccounts(h, w.svc, cmp);
    case Do(k, sent) => PerformAccounts(h, w.svc, k);
    case Stop(end) => StopAccounts(h, w.svc, end);
    case Cancel => AccountedFrame(h, w.svc, Step(h, w, l).svc);
    case ParentDone => AccountedFrame(h, w.svc, Step(h, w, l).svc);
    case _ =>
  }

  lemma {:induction false} ExecAccounts(h: Hash, w: World, ls: seq<Label>)
    requires Accounted(h, w.svc)
    ensures Accounted(h, Exec(h, w, ls).svc)
    decreases |ls|
  {
    hide Accounted, Step;
    if ls != [] {
      StepAccounts(h, w, ls[0]);
      ExecAccounts(h, Step(h, w, ls[0]), ls[1..]);
    }
  }

  /** In every run, pending plus delivered is exactly what the manifest in force
      declared, in its order, and every delivered item has its declared hash. */
  lemma DatasetsConserved(h: Hash, sent: bool, ls: seq<Label>)
    ensures
      var s := Exec(h, Initial(sent), ls).svc;
      s.declared.Some? ==> Balanced(h, s.declared.value, s.cmp.datasets, s.delivered)
  {
    hide Balanced, Exec;
    ExecAccounts(h, Initial(sent), ls);
  }
}
