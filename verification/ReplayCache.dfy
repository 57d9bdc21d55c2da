/** Signed-request authentication and its replay cache (agent/auth/auth.go). The
    cache forgets expired nonces; the reference is a log that forgets nothing. Times
    are nanoseconds, clock readings are inputs. */
module ReplayCache {
  import opened Bytes
  import opened SignaturePayload

  const MAX_AGE: int := 300_000_000_000
  const MAX_SKEW: int := 60_000_000_000

  type Cache = map<string, int>

  datatype Role = Consumer | DataProvider | AlgorithmProvider | OtherRole(name: string)

  function RoleName(r: Role): string {
    match r
    case Consumer => "consumer"
    case DataProvider => "data-provider"
    case AlgorithmProvider => "algorithm-provider"
    case OtherRole(name) => name
  }

  /** The manifest's keys, the identity of the verifier, and the two primitives: the
      time parser and the signature check of a key over a payload. */
  datatype Config = Config(
    instanceID: string, computationID: string,
    consumers: seq<nat>, providers: seq<nat>, algorithmProvider: nat,
    parseTime: string -> Option<int>, verify: (nat, string, string) -> bool)

  /** The values of the three metadata keys. */
  datatype Request = Request(role: Role, method_: string, signatures: seq<string>, times: seq<string>, nonces: seq<string>)

  datatype Reject = InvalidMetadata | Expired | BadSignature | Replay
  datatype Verdict = Accepted(index: nat) | Rejected(why: Reject)

  function Single(values: seq<string>): Option<string> {
    if |values| == 1 && values[0] != "" then Some(values[0]) else None
  }

  predicate IsFresh(issuedAt: int, now: int) {
    !(issuedAt < now - MAX_AGE || issuedAt > now + MAX_SKEW)
  }

  /** The request's issue time, when its metadata is complete and it parses. */
  function IssuedAt(c: Config, q: Request): Option<int> {
    if Single(q.signatures).Some? && Single(q.times).Some? && Single(q.nonces).Some?
    then c.parseTime(q.times[0]) else None
  }

  function KeysFor(c: Config, role: Role): seq<nat> {
    match role
    case Consumer => c.consumers
    case DataProvider => c.providers
    case AlgorithmProvider => [c.algorithmProvider]
    case OtherRole(_) => []
  }

  function Signed(c: Config, q: Request): string
    requires IssuedAt(c, q).Some?
  {
    Payload(Fields(c.instanceID, c.computationID, RoleName(q.role), q.method_, q.times[0], q.nonces[0]))
  }

  /** The first of the role's keys that the signature verifies under. */
  function FirstKey(c: Config, q: Request, keys: seq<nat>, from: nat): (r: Option<nat>)
    requires IssuedAt(c, q).Some? && from <= |keys|
    ensures r.Some? ==> from <= r.value < |keys| && c.verify(keys[r.value], Signed(c, q), q.signatures[0])
    ensures forall j :: from <= j < (if r.Some? then r.value else |keys|) ==> !c.verify(keys[j], Signed(c, q), q.signatures[0])
    decreases |keys| - from
  {
    if from == |keys| then None
    else if c.verify(keys[from], Signed(c, q), q.signatures[0]) then Some(from)
    else FirstKey(c, q, keys, from + 1)
  }

  function KeyOf(q: Request): string
    requires |q.nonces| > 0
  {
    NonceKey(RoleName(q.role), q.method_, q.nonces[0])
  }

  // ----- The cache -----

  function Pruned(seen: Cache, now: int): Cache {
    map k | k in seen && seen[k] > now :: seen[k]
  }

  /** What the checks before the cache decide. */
  function Screen(c: Config, q: Request, check: int): (r: Verdict)
    ensures r.Accepted? ==> IssuedAt(c, q).Some? && |q.nonces| > 0
  {
    var issued := IssuedAt(c, q);
    if issued.None? then Rejected(InvalidMetadata)
    else if !IsFresh(issued.value, check) then Rejected(Expired)
    else match FirstKey(c, q, KeysFor(c, q.role), 0)
         case None => Rejected(BadSignature)
         case Some(i) => Accepted(i)
  }

  /** One AuthenticateUser call: `check` is the clock reading before the signature
      check, `mark` the one inside markNonce. */
  datatype Call = Call(request: Request, check: int, mark: int)

  function Authenticate(c: Config, seen: Cache, call: Call): (r: (Cache, Verdict)) {
    var v := Screen(c, call.request, call.check);
    if v.Rejected? then (seen, v) else
    var p := Pruned(seen, call.mark);
    if KeyOf(call.request) in p then (p, Rejected(Replay))
    else (p[KeyOf(call.request) := IssuedAt(c, call.request).value + MAX_AGE], v)
  }

  // ----- Who is accepted, on the fields alone -----

  /** One value of each metadata key, and none empty. */
  predicate Complete(q: Request) {
    && |q.signatures| == 1 && q.signatures[0] != ""
    && |q.times| == 1 && q.times[0] != ""
    && |q.nonces| == 1 && q.nonces[0] != ""
  }

  /** The key verifies this verifier's text for the role's name. */
  predicate Verifies(c: Config, q: Request, role: string, key: nat)
    requires Complete(q)
  {
    c.verify(key, Payload(Fields(c.instanceID, c.computationID, role, q.method_, q.times[0], q.nonces[0])), q.signatures[0])
  }

  predicate FirstToVerify(c: Config, q: Request, role: string, keys: seq<nat>, i: nat)
    requires Complete(q)
  {
    && i < |keys| && Verifies(c, q, role, keys[i])
    && forall j :: 0 <= j < i ==> !Verifies(c, q, role, keys[j])
  }

  /** Consumers and data providers are known by the first of their keys that verifies, the
      algorithm provider by the one key; no other role is known. */
  predicate Known(c: Config, q: Request, i: nat)
    requires Complete(q)
  {
    match q.role
    case Consumer => FirstToVerify(c, q, "consumer", c.consumers, i)
    case DataProvider => FirstToVerify(c, q, "data-provider", c.providers, i)
    case AlgorithmProvider => i == 0 && Verifies(c, q, "algorithm-provider", c.algorithmProvider)
    case OtherRole(_) => false
  }

  /** Issued at most five minutes ago and at most one minute ahead. */
  predicate InWindow(issuedAt: int, now: int) {
    now - 300_000_000_000 <= issuedAt <= now + 60_000_000_000
  }

  predicate Passes(c: Config, call: Call, i: nat) {
    var q := call.request;
    Complete(q) && c.parseTime(q.times[0]).Some? && InWindow(c.parseTime(q.times[0]).value, call.check) && Known(c, q, i)
  }

  lemma FirstKeyIsKnown(c: Config, q: Request, i: nat)
    requires IssuedAt(c, q).Some?
    ensures Complete(q) && (FirstKey(c, q, KeysFor(c, q.role), 0) == Some(i) <==> Known(c, q, i))
  {
    hide Payload;
    var keys := KeysFor(c, q.role);
    var r := FirstKey(c, q, keys, 0);
    assert forall k :: 0 <= k < |keys| ==> Verifies(c, q, RoleName(q.role), keys[k]) == c.verify(keys[k], Signed(c, q), q.signatures[0]);
  }

  /** The checks before the cache, with the reason of every refusal. */
  lemma ScreenIsExact(c: Config, call: Call)
    ensures
      var q := call.request;
      var v := Screen(c, q, call.check);
      && (forall i :: v == Accepted(i) <==> Passes(c, call, i))
      && (v == Rejected(InvalidMetadata) <==> !Complete(q) || c.parseTime(q.times[0]).None?)
      && (v == Rejected(Expired) <==>
           Complete(q) && c.parseTime(q.times[0]).Some? && !InWindow(c.parseTime(q.times[0]).value, call.check))
      && v != Rejected(Replay)
  {
    hide Known, FirstKey, KeysFor;
    var q := call.request;
    if IssuedAt(c, q).Some? {
      forall i: nat
        ensures FirstKey(c, q, KeysFor(c, q.role), 0) == Some(i) <==> Known(c, q, i)
      {
        FirstKeyIsKnown(c, q, i);
      }
    }
  }

  class Service {
    const config: Config
    var seenNonces: Cache

    constructor (config: Config)
      ensures this.config == config && seenNonces == map[]
    {
      this.config, seenNonces := config, map[];
    }

    /** markNonce: the map is pruned entry by entry, in whatever order it is met. */
    method MarkNonce(key: string, expiresAt: int, now: int) returns (ok: bool)
      modifies this
      ensures ok <==> key !in Pruned(old(seenNonces), now)
      ensures seenNonces == if ok then Pruned(old(seenNonces), now)[key := expiresAt] else Pruned(old(seenNonces), now)
    {
      var todo := seenNonces.Keys;
      while todo != {}
        invariant todo <= seenNonces.Keys
        invariant forall k :: k in seenNonces <==> k in old(seenNonces) && (k in todo || old(seenNonces)[k] > now)
        invariant forall k :: k in seenNonces ==> seenNonces[k] == old(seenNonces)[k]
        decreases todo
      {
        var k :| k in todo;
        todo := todo - {k};
        if seenNonces[k] <= now {
          seenNonces := seenNonces - {k};
        }
      }
      assert seenNonces == Pruned(old(seenNonces), now);
      if key in seenNonces && seenNonces[key] > now {
        return false;
      }
      seenNonces := seenNonces[key := expiresAt];
      return true;
    }

    method AuthenticateUser(call: Call) returns (verdict: Verdict)
      modifies this
      ensures (seenNonces, verdict) == Authenticate(config, old(seenNonces), call)
      ensures verdict.Rejected? && verdict.why != Replay ==> seenNonces == old(seenNonces)
      ensures verdict.Accepted? ==> Passes(config, call, verdict.index)
      ensures verdict == Rejected(BadSignature) ==> forall i :: !Passes(config, call, i)
    {
      ScreenIsExact(config, call);
      var q := call.request;
      var issued := IssuedAt(config, q);
      if issued.None? {
        return Rejected(InvalidMetadata);
      }
      if issued.value < call.check - MAX_AGE || issued.value > call.check + MAX_SKEW {
        return Rejected(Expired);
      }
      var keys := KeysFor(config, q.role);
      for i := 0 to |keys|
        invariant seenNonces == old(seenNonces)
        invariant FirstKey(config, q, keys, 0) == FirstKey(config, q, keys, i)
      {
        if config.verify(keys[i], Signed(config, q), q.signatures[0]) {
          var ok := MarkNonce(KeyOf(q), issued.value + MAX_AGE, call.mark);
          return if ok then Accepted(i) else Rejected(Replay);
        }
      }
      return Rejected(BadSignature);
    }
  }

  // ----- The log that forgets nothing -----

  type Log = seq<(string, int)>

  ghost predicate Holds(log: Log, key: string, now: int) {
    exists i :: 0 <= i < |log| && log[i].0 == key && log[i].1 > now
  }

  ghost function LogAuthenticate(c: Config, log: Log, call: Call): (Log, Verdict) {
    var v := Screen(c, call.request, call.check);
    if v.Rejected? then (log, v)
    else if Holds(log, KeyOf(call.request), call.mark) then (log, Rejected(Replay))
    else (log + [(KeyOf(call.request), IssuedAt(c, call.request).value + MAX_AGE)], v)
  }

  ghost predicate Monotone(calls: seq<Call>) {
    forall i, j :: 0 <= i < j < |calls| ==> calls[i].mark <= calls[j].mark
  }

  /** The verdicts of a run of calls, in the order in which they mark. */
  function Verdicts(c: Config, seen: Cache, calls: seq<Call>): seq<Verdict>
    decreases |calls|
  {
    if calls == [] then [] else
    var r := Authenticate(c, seen, calls[0]);
    [r.1] + Verdicts(c, r.0, calls[1..])
  }

  ghost function LogVerdicts(c: Config, log: Log, calls: seq<Call>): seq<Verdict>
    decreases |calls|
  {
    if calls == [] then [] else
    var r := LogAuthenticate(c, log, calls[0]);
    [r.1] + LogVerdicts(c, r.0, calls[1..])
  }

  /** From `t` on, cache and log remember the same nonces. */
  ghost predicate Agree(seen: Cache, log: Log, t: int) {
    forall k: string, u: int :: u >= t ==> ((k in seen && seen[k] > u) <==> Holds(log, k, u))
  }

  lemma StepAgrees(c: Config, seen: Cache, log: Log, t: int, call: Call)
    requires Agree(seen, log, t) && t <= call.mark
    ensures
      var (seen', v) := Authenticate(c, seen, call);
      var (log', v') := LogAuthenticate(c, log, call);
      v == v' && Agree(seen', log', call.mark)
  {
    hide Screen, KeyOf, IssuedAt;
    if Screen(c, call.request, call.check).Accepted? {
      var key, now := KeyOf(call.request), call.mark;
      assert key in Pruned(seen, now) <==> Holds(log, key, now);
      PruneAgrees(seen, log, t, now);
      if !Holds(log, key, now) {
        AddAgrees(Pruned(seen, now), log, now, key, IssuedAt(c, call.request).value + MAX_AGE);
      }
    }
  }

  lemma PruneAgrees(seen: Cache, log: Log, t: int, now: int)
    requires Agree(seen, log, t) && t <= now
    ensures Agree(Pruned(seen, now), log, now)
  {
  }

  lemma AddAgrees(seen: Cache, log: Log, now: int, key: string, expires: int)
    requires Agree(seen, log, now) && !Holds(log, key, now)
    ensures Agree(seen[key := expires], log + [(key, expires)], now)
  {
    var log' := log + [(key, expires)];
    forall k: string, u: int | u >= now
      ensures Holds(log', k, u) <==> Holds(log, k, u) || (k == key && expires > u)
    {
      assert log'[|log|] == (key, expires);
      if Holds(log, k, u) {
        var i :| 0 <= i < |log| && log[i].0 == k && log[i].1 > u;
        assert log'[i] == log[i];
      }
    }
    forall u: int | u >= now
      ensures !Holds(log, key, u)
    {
    }
  }

  lemma {:induction false} RunsAgree(c: Config, seen: Cache, log: Log, t: int, calls: seq<Call>)
    requires Agree(seen, log, t) && Monotone(calls) && (calls != [] ==> t <= calls[0].mark)
    ensures Verdicts(c, seen, calls) == LogVerdicts(c, log, calls)
    decreases |calls|
  {
    hide Agree, Authenticate, LogAuthenticate;
    if calls != [] {
      StepAgrees(c, seen, log, t, calls[0]);
      RunsAgree(c, Authenticate(c, seen, calls[0]).0, LogAuthenticate(c, log, calls[0]).0, calls[0].mark, calls[1..]);
    }
  }

  /** Refinement: under a clock that does not go back, the pruned map answers every
      call as the never-pruned log would. */
  lemma CacheRefinesLog(c: Config, calls: seq<Call>)
    ensures Monotone(calls) ==> Verdicts(c, map[], calls) == LogVerdicts(c, [], calls)
  {
    if Monotone(calls) && calls != [] {
      RunsAgree(c, map[], [], calls[0].mark, calls);
    }
  }

  // ----- Exactly what is accepted -----

  lemma {:induction false} VerdictCount(c: Config, log: Log, calls: seq<Call>)
    ensures |LogVerdicts(c, log, calls)| == |calls|
    decreases |calls|
  {
    hide LogAuthenticate;
    if calls != [] {
      VerdictCount(c, LogAuthenticate(c, log, calls[0]).0, calls[1..]);
    }
  }

  /** Call `i` was accepted, has the role, method and nonce of call `j`, and was issued less
      than five minutes before `j` marks. */
  ghost predicate Blocks(c: Config, calls: seq<Call>, v: seq<Verdict>, i: nat, j: nat)
    requires i < |calls| && j < |calls| && |v| == |calls|
  {
    var p, q := calls[i].request, calls[j].request;
    && v[i].Accepted? && Complete(p) && Complete(q) && c.parseTime(p.times[0]).Some?
    && NonceKey(RoleName(p.role), p.method_, p.nonces[0]) == NonceKey(RoleName(q.role), q.method_, q.nonces[0])
    && c.parseTime(p.times[0]).value + 300_000_000_000 > calls[j].mark
  }

  ghost predicate Unblocked(c: Config, calls: seq<Call>, v: seq<Verdict>, j: nat)
    requires j < |calls| && |v| == |calls|
  {
    forall i :: 0 <= i < j ==> !Blocks(c, calls, v, i, j)
  }

  lemma HoldsGrows(log: Log, e: (string, int), key: string, now: int)
    ensures Holds(log + [e], key, now) <==> Holds(log, key, now) || (e.0 == key && e.1 > now)
  {
    var log' := log + [e];
    assert log'[|log|] == e;
    if Holds(log, key, now) {
      var i :| 0 <= i < |log| && log[i].0 == key && log[i].1 > now;
      assert log'[i] == log[i];
    }
  }

  lemma {:induction false} LogDecides(c: Config, log: Log, calls: seq<Call>, j: nat)
    requires j < |calls|
    ensures
      var v := LogVerdicts(c, log, calls);
      |v| == |calls| && (v[j].Accepted? <==>
        && Screen(c, calls[j].request, calls[j].check).Accepted?
        && !Holds(log, KeyOf(calls[j].request), calls[j].mark)
        && Unblocked(c, calls, v, j))
      && (v[j].Accepted? ==> v[j] == Screen(c, calls[j].request, calls[j].check))
    decreases j
  {
    hide Screen, Holds, NonceKey;
    VerdictCount(c, log, calls);
    if j > 0 {
      var (log', v0) := LogAuthenticate(c, log, calls[0]);
      var v, tail := LogVerdicts(c, log, calls), calls[1..];
      var v' := LogVerdicts(c, log', tail);
      assert v == [v0] + v';
      LogDecides(c, log', tail, j - 1);
      BlocksShift(c, calls, v, j);
      assert v[1..] == v';
      if Screen(c, calls[j].request, calls[j].check).Accepted? {
        var key, now := KeyOf(calls[j].request), calls[j].mark;
        var q := calls[0].request;
        if v0.Accepted? {
          HoldsGrows(log, (KeyOf(q), IssuedAt(c, q).value + MAX_AGE), key, now);
        }
        assert Holds(log', key, now) <==> Holds(log, key, now) || Blocks(c, calls, v, 0, j);
      }
    }
  }

  lemma BlocksShift(c: Config, calls: seq<Call>, v: seq<Verdict>, j: nat)
    requires 0 < j < |calls| && |v| == |calls|
    ensures Unblocked(c, calls, v, j) <==> !Blocks(c, calls, v, 0, j) && Unblocked(c, calls[1..], v[1..], j - 1)
  {
    hide Blocks;
    var k, tail, rest := j - 1, calls[1..], v[1..];
    forall i | 0 <= i < k
      ensures Blocks(c, tail, rest, i, k) <==> Blocks(c, calls, v, i + 1, j)
    {
      BlocksNext(c, calls, v, i, j);
    }
    forall i | 0 < i < j
      ensures Blocks(c, calls, v, i, j) <==> Blocks(c, tail, rest, i - 1, k)
    {
      BlocksNext(c, calls, v, i - 1, j);
    }
  }

  lemma BlocksNext(c: Config, calls: seq<Call>, v: seq<Verdict>, i: nat, j: nat)
    requires i + 1 < |calls| && 0 < j < |calls| && |v| == |calls|
    ensures Blocks(c, calls[1..], v[1..], i, j - 1) <==> Blocks(c, calls, v, i + 1, j)
  {
  }

  /** In every run under a clock that does not go back, a call is accepted exactly when it
      passes the checks and every earlier accepted call with its key was issued at least
      five minutes before it marks. */
  lemma AcceptedExactly(c: Config, calls: seq<Call>, j: nat)
    requires j < |calls|
    ensures
      var v := Verdicts(c, map[], calls);
      Monotone(calls) ==> |v| == |calls| && forall i :: v[j] == Accepted(i) <==> Passes(c, calls[j], i) && Unblocked(c, calls, v, j)
  {
    hide Verdicts, LogVerdicts, Screen, KeyOf, IssuedAt, Unblocked, Passes;
    CacheRefinesLog(c, calls);
    LogDecides(c, [], calls, j);
    ScreenIsExact(c, calls[j]);
  }

  /** Two acceptances of the same role, method and nonce: the later one marks no
      earlier than the first one's issue time plus five minutes. */
  lemma AcceptancesApart(c: Config, calls: seq<Call>, i: nat, j: nat)
    requires i < j < |calls| && Monotone(calls)
    requires |calls[j].request.nonces| > 0 && |calls[i].request.nonces| > 0
    requires calls[i].request.role == calls[j].request.role && calls[i].request.method_ == calls[j].request.method_
    requires calls[i].request.nonces[0] == calls[j].request.nonces[0]
    ensures
      var v := Verdicts(c, map[], calls);
      |v| == |calls| && (v[i].Accepted? && v[j].Accepted? ==>
        Complete(calls[i].request) &&
        var issued := c.parseTime(calls[i].request.times[0]);
        issued.Some? && issued.value + 300_000_000_000 <= calls[j].mark)
  {
    hide Verdicts, Known, NonceKey;
    AcceptedExactly(c, calls, i);
    AcceptedExactly(c, calls, j);
    assert Unblocked(c, calls, Verdicts(c, map[], calls), j) ==> !Blocks(c, calls, Verdicts(c, map[], calls), i, j);
  }

  /** The same request presented again right after it was accepted is accepted once
      more exactly when the clock passes its expiry between the two readings of the
      second call (or stands on it): still fresh when checked, expired when marked. */
  lemma AcceptedAgain(c: Config, seen: Cache, first: Call, second: Call)
    requires second.request == first.request && first.mark <= second.mark
    ensures
      var (seen', v) := Authenticate(c, seen, first);
      v.Accepted? ==>
        Complete(first.request) &&
        var issued := c.parseTime(first.request.times[0]);
        issued.Some? &&
        (Authenticate(c, seen', second).1.Accepted? <==>
          InWindow(issued.value, second.check) && issued.value + 300_000_000_000 <= second.mark)
  {
    hide FirstKey, KeyOf;
  }

  /** The boundary is reached: at the very instant of expiry one request passes twice. */
  lemma BoundaryReplay()
    ensures exists c: Config, call: Call ::
      var once := Authenticate(c, map[], call);
      once.1.Accepted? && Authenticate(c, once.0, call).1.Accepted?
  {
    var c := Config("i", "c", [], [], 0, (_: string) => Some(0), (_: nat, _: string, _: string) => true);
    var call := Call(Request(AlgorithmProvider, "m", ["s"], ["t"], ["n"]), MAX_AGE, MAX_AGE);
    assert Screen(c, call.request, call.check) == Accepted(0);
    AcceptedAgain(c, map[], call, call);
  }
}
