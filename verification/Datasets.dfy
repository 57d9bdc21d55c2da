/** Dataset accounting: nothing declared is lost, duplicated, reordered or
    delivered with the wrong bytes, on any exit of Data or of the download loop. */
module Datasets {
  import opened Bytes
  import opened Framing
  import opened Agent

  function Items(got: seq<Delivery>): seq<Dataset> {
    seq(|got|, i requires 0 <= i < |got| => got[i].dataset)
  }

  /** `f` lists, in increasing order, where the items of `a` sit in `b`. */
  ghost predicate Embeds<T(!new)>(a: seq<T>, b: seq<T>, f: seq<nat>) {
    && |f| == |a|
    && (forall k :: 0 <= k < |f| ==> f[k] < |b| && a[k] == b[f[k]])
    && (forall j, k :: 0 <= j < k < |f| ==> f[j] < f[k])
  }

  /** `a` is `b` with some items left out, in the same order. */
  ghost predicate Sublist<T(!new)>(a: seq<T>, b: seq<T>) {
    exists f: seq<nat> :: Embeds(a, b, f)
  }

  lemma SublistSelf<T(!new)>(a: seq<T>)
    ensures Sublist(a, a)
  {
    assert Embeds(a, a, seq(|a|, k requires 0 <= k < |a| => k));
  }

  lemma SublistTrans<T(!new)>(a: seq<T>, b: seq<T>, c: seq<T>)
    requires Sublist(a, b) && Sublist(b, c)
    ensures Sublist(a, c)
  {
    var f: seq<nat> :| Embeds(a, b, f);
    var g: seq<nat> :| Embeds(b, c, g);
    var gf: seq<nat> := seq(|f|, k requires 0 <= k < |f| => g[f[k]]);
    assert Embeds(a, c, gf);
  }

  lemma RemovedIsSublist<T(!new)>(s: seq<T>, i: nat)
    requires i < |s|
    ensures Sublist(Removed(s, i), s)
    ensures multiset(s) == multiset(Removed(s, i)) + multiset([s[i]])
  {
    var f: seq<nat> := seq(|s| - 1, k requires 0 <= k < |s| - 1 => if k < i then k else k + 1);
    assert Embeds(Removed(s, i), s, f);
    assert s == s[..i] + ([s[i]] + s[i + 1..]);
  }

  /** Pending plus delivered is exactly what was declared; pending keeps its
      order; every delivered item's bytes have the declared hash. */
  ghost predicate Balanced(h: Hash, declared: seq<Dataset>, pending: seq<Dataset>, got: seq<Delivery>) {
    && multiset(pending) + multiset(Items(got)) == multiset(declared)
    && Sublist(pending, declared)
    && forall i :: 0 <= i < |got| ==> h(got[i].data) == got[i].dataset.hash
  }

  ghost predicate Accounted(h: Hash, s: Service) {
    if s.declared.None? then s.cmp.datasets == [] && s.delivered == []
    else Balanced(h, s.declared.value, s.cmp.datasets, s.delivered)
  }

  lemma BalancedStart(h: Hash, declared: seq<Dataset>)
    ensures Balanced(h, declared, declared, [])
  {
    SublistSelf(declared);
    assert Items([]) == [];
  }

  /** Two stretches of deliveries, one after the other, balance together. */
  lemma BalancedJoin(h: Hash, declared: seq<Dataset>, pending: seq<Dataset>, got: seq<Delivery>,
                     pending': seq<Dataset>, got': seq<Delivery>)
    requires Balanced(h, declared, pending, got) && Balanced(h, pending, pending', got')
    ensures Balanced(h, declared, pending', got + got')
  {
    SublistTrans(pending', pending, declared);
    assert Items(got + got') == Items(got) + Items(got');
  }

  lemma BalancedOne(h: Hash, pending: seq<Dataset>, i: nat, data: bytes)
    requires i < |pending| && h(data) == pending[i].hash
    ensures Balanced(h, pending, Removed(pending, i), [Delivery(pending[i], data)])
  {
    RemovedIsSublist(pending, i);
    assert Items([Delivery(pending[i], data)]) == [pending[i]];
  }

  /** The entries a failure-free download pass leaves behind. */
  function LocalOnly(ds: seq<Dataset>, kbs: bool): seq<Dataset> {
    if ds == [] then [] else
    LocalOnly(ds[..|ds| - 1], kbs) + if Remote(ds[|ds| - 1], kbs) then [] else [ds[|ds| - 1]]
  }

  /** The delete-while-iterating loop balances on every exit. */
  lemma {:induction false} FetchBalances(h: Hash, kbs: bool, pending: seq<Dataset>, i: nat, io: nat -> Fetch)
    requires i <= |pending|
    ensures
      var end := FetchFrom(h, kbs, pending, i, io);
      Balanced(h, pending, end.pending, end.got)
    decreases i
  {
    if i > 0 && !Remote(pending[i - 1], kbs) {
      FetchBalances(h, kbs, pending, i - 1, io);
    } else if i > 0 && Fits(h, pending[i - 1], io(i - 1)) {
      var left, got := Removed(pending, i - 1), [Delivery(pending[i - 1], io(i - 1).data)];
      FetchBalances(h, kbs, left, i - 1, io);
      var rest := FetchFrom(h, kbs, left, i - 1, io);
      BalancedOne(h, pending, i - 1, io(i - 1).data);
      BalancedJoin(h, pending, left, got, rest.pending, rest.got);
    } else {
      BalancedStart(h, pending);
    }
  }

  predicate Fits(h: Hash, d: Dataset, f: Fetch) {
    f.Fetched? && f.stored && h(f.data) == d.hash
  }

  /** When the loop runs to the end it leaves exactly the entries without a usable
      remote source, in order. */
  lemma {:induction false} FetchLeavesLocal(h: Hash, kbs: bool, pending: seq<Dataset>, i: nat, io: nat -> Fetch)
    requires i <= |pending|
    requires FetchFrom(h, kbs, pending, i, io).stop == Finished
    ensures FetchFrom(h, kbs, pending, i, io).pending == LocalOnly(pending[..i], kbs) + pending[i..]
    decreases i
  {
    if i > 0 {
      var d := pending[i - 1];
      assert pending[..i][..i - 1] == pending[..i - 1];
      if !Remote(d, kbs) {
        FetchLeavesLocal(h, kbs, pending, i - 1, io);
        assert pending[i - 1..] == [d] + pending[i..];
      } else {
        var left := Removed(pending, i - 1);
        FetchLeavesLocal(h, kbs, left, i - 1, io);
        assert left[..i - 1] == pending[..i - 1] && left[i - 1..] == pending[i..];
      }
    }
  }

  /** A pass in which every download succeeds and is stored runs to the end. */
  lemma {:induction false} FetchFinishes(h: Hash, kbs: bool, pending: seq<Dataset>, i: nat, io: nat -> Fetch)
    requires i <= |pending|
    requires forall j :: 0 <= j < i && Remote(pending[j], kbs) ==> Fits(h, pending[j], io(j))
    ensures FetchFrom(h, kbs, pending, i, io).stop == Finished
    decreases i
  {
    if i > 0 {
      if Remote(pending[i - 1], kbs) {
        FetchFinishes(h, kbs, Removed(pending, i - 1), i - 1, io);
      } else {
        FetchFinishes(h, kbs, pending, i - 1, io);
      }
    }
  }

  lemma TakeAccounts(h: Hash, s: Service, i: nat, data: bytes)
    requires Accounted(h, s) && i < |s.cmp.datasets| && h(data) == s.cmp.datasets[i].hash
    ensures Accounted(h, TakeDataset(s, i, data))
  {
    var ds := s.cmp.datasets;
    BalancedOne(h, ds, i, data);
    BalancedJoin(h, s.declared.value, ds, s.delivered, Removed(ds, i), [Delivery(ds[i], data)]);
  }

  lemma DeliverAccounts(h: Hash, s: Service, up: DataUpload, stored: bool)
    requires Accounted(h, s)
    ensures Accounted(h, DeliverBody(h, s, up, stored).svc)
  {
    var c := Choose(h, s.cmp.datasets, up, stored);
    if c.Chosen? {
      TakeAccounts(h, s, c.index, up.data);
    }
  }

  lemma DataAccounts(h: Hash, s: Service, up: DataUpload, download: Option<bytes>, stored: bool)
    requires Accounted(h, s)
    ensures Accounted(h, DataBody(h, s, up, download, stored).svc)
  {
    var ds := s.cmp.datasets;
    if ds != [] {
      var r := FirstRemote(ds, s.cmp.kbs, 0);
      if r.None? {
        DeliverAccounts(h, s, up, stored);
      } else if download.Some? {
        DeliverAccounts(h, s, DataUpload(download.value, ds[r.value].filename, []), stored);
      }
    }
  }

  lemma AfterFetchAccounts(h: Hash, s: Service, io: nat -> Fetch)
    requires Accounted(h, s)
    ensures Accounted(h, AfterFetch(s, FetchFrom(h, s.cmp.kbs, s.cmp.datasets, |s.cmp.datasets|, io)))
  {
    var ds := s.cmp.datasets;
    if s.declared.Some? {
      FetchBalances(h, s.cmp.kbs, ds, |ds|, io);
      var end := FetchFrom(h, s.cmp.kbs, ds, |ds|, io);
      BalancedJoin(h, s.declared.value, ds, s.delivered, end.pending, end.got);
    }
  }

  /** Accounting looks at three fields only. */
  lemma AccountedFrame(h: Hash, s: Service, t: Service)
    requires Accounted(h, s)
    requires t.declared == s.declared && t.delivered == s.delivered && t.cmp.datasets == s.cmp.datasets
    ensures Accounted(h, t)
  {
  }

  lemma FetchAccounts(h: Hash, s: Service, life: nat, dirMade: bool, io: nat -> Fetch)
    requires Accounted(h, s)
    ensures Accounted(h, FetchDatasetsBody(h, s, life, dirMade, io).svc)
  {
    var p := Publish(s, ReceivingData, InProgress);
    AccountedFrame(h, s, p);
    AfterFetchAccounts(h, p, io);
    var t := AfterFetch(p, FetchFrom(h, s.cmp.kbs, s.cmp.datasets, |s.cmp.datasets|, io));
    var r := FetchDatasetsBody(h, s, life, dirMade, io).svc;
    assert r in {s, p, Break(p).svc, t, Break(t).svc};
    AccountedFrame(h, p, Break(p).svc);
    AccountedFrame(h, t, Break(t).svc);
  }

  /** One entry with the hash of `data` moved from pending to delivered. */
  ghost predicate TookOne(h: Hash, s: Service, t: Service) {
    exists i, data :: 0 <= i < |s.cmp.datasets| && h(data) == s.cmp.datasets[i].hash && t == TakeDataset(s, i, data)
  }

  ghost predicate RefusesOrTakesOne(h: Hash, s: Service, o: Outcome) {
    if o.error.Some? then o.svc == s && o.event == None
    else TookOne(h, s, o.svc) && o.event == if |s.cmp.datasets| == 1 then Some(DataReceived) else None
  }

  lemma DeliverTakesOne(h: Hash, s: Service, up: DataUpload, stored: bool)
    ensures RefusesOrTakesOne(h, s, DeliverBody(h, s, up, stored))
  {
    var c := Choose(h, s.cmp.datasets, up, stored);
    if c.Chosen? {
      var t := TakeDataset(s, c.index, up.data);
      assert TookOne(h, s, t);
      assert |t.cmp.datasets| == |s.cmp.datasets| - 1;
    }
  }

  /** Data either refuses and changes nothing, or delivers exactly one entry; it
      signals DataReceived exactly when that entry was the last. */
  lemma DataTakesOne(h: Hash, s: Service, up: DataUpload, download: Option<bytes>, stored: bool)
    ensures RefusesOrTakesOne(h, s, DataBody(h, s, up, download, stored))
  {
    var ds := s.cmp.datasets;
    if ds != [] {
      var r := FirstRemote(ds, s.cmp.kbs, 0);
      if r.None? {
        DeliverTakesOne(h, s, up, stored);
      } else if download.Some? {
        DeliverTakesOne(h, s, DataUpload(download.value, ds[r.value].filename, []), stored);
      }
    }
  }
}
