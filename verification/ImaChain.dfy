/** The IMA log verifier of cli/ima_measurements.go: an extend fold (TPM2_PCR_Extend,
    TPM 2.0 Library Part 3, section 22.2) over the PCR-10 entries. SHA-1 is a
    parameter of which only the output length is used. */
module ImaChain {
  import opened Bytes

  type Sha1 = bytes -> bytes

  const LEN: nat := 20

  function Repeat<T>(x: T, n: nat): (r: seq<T>)
    ensures |r| == n && forall i :: 0 <= i < n ==> r[i] == x
  {
    if n == 0 then [] else [x] + Repeat(x, n - 1)
  }

  function Zero(): bytes {
    Repeat<byte>(0, LEN)
  }

  function Ones(): bytes {
    Repeat<byte>(255, LEN)
  }

  ghost predicate Sized(h: Sha1) {
    forall x: bytes :: |h(x)| == LEN
  }

  // ----- Reading one line -----

  function HexDigit(c: char): Option<nat> {
    if '0' <= c <= '9' then Some(c as nat - '0' as nat)
    else if 'a' <= c <= 'f' then Some(c as nat - 'a' as nat + 10)
    else if 'A' <= c <= 'F' then Some(c as nat - 'A' as nat + 10)
    else None
  }

  /** hex.DecodeString. */
  function HexDecode(s: string): (r: Option<bytes>)
    ensures r.Some? ==> 2 * |r.value| == |s|
  {
    if s == [] then Some([])
    else if |s| == 1 || HexDigit(s[0]).None? || HexDigit(s[1]).None? then None
    else match HexDecode(s[2..])
         case None => None
         case Some(rest) => Some([16 * HexDigit(s[0]).value + HexDigit(s[1]).value] + rest)
  }

  /** A line split into its white-space separated fields. */
  datatype Entry = Skip | Digest(digest: bytes) | Malformed

  const ZERO_TEXT := "0000000000000000000000000000000000000000"
  const ONES_TEXT := "ffffffffffffffffffffffffffffffffffffffff"

  /** What one line contributes: nothing, a digest (all ones for an all-zero one,
      which marks a measurement violation) or a refusal. */
  function Read(fields: seq<string>): Entry {
    if |fields| == 0 then Skip
    else if |fields| < 2 then Malformed
    else if fields[0] != "10" then Skip
    else match HexDecode(fields[1])
         case None => Malformed
         case Some(d) => if |d| != LEN then Malformed else Digest(if d == Zero() then Ones() else d)
  }

  /** The normalised digests of a log, or nothing if a line is refused. */
  function Digests(lines: seq<seq<string>>): Option<seq<bytes>> {
    if lines == [] then Some([]) else
    match Digests(lines[..|lines| - 1])
    case None => None
    case Some(ds) =>
      match Read(lines[|lines| - 1])
      case Skip => Some(ds)
      case Digest(d) => Some(ds + [d])
      case Malformed => None
  }

  function Extend(h: Sha1, pcr: bytes, d: bytes): bytes {
    h(pcr + d)
  }

  function Fold(h: Sha1, ds: seq<bytes>): bytes {
    if ds == [] then Zero() else Extend(h, Fold(h, ds[..|ds| - 1]), ds[|ds| - 1])
  }

  // ----- The text comparison is the digest comparison -----

  lemma {:induction false} HexZero(s: string, n: nat)
    requires HexDecode(s).Some? && |s| == 2 * n
    ensures (HexDecode(s).value == Repeat<byte>(0, n)) <==> (forall i :: 0 <= i < |s| ==> s[i] == '0')
    decreases n
  {
    if n > 0 {
      HexZero(s[2..], n - 1);
      var d := HexDecode(s).value;
      assert d[1..] == HexDecode(s[2..]).value;
      if d == Repeat<byte>(0, n) {
        assert d[1..] == Repeat<byte>(0, n - 1);
        assert d[0] == 0;
        assert forall i :: 2 <= i < |s| ==> s[i] == s[2..][i - 2];
      }
      if forall i :: 0 <= i < |s| ==> s[i] == '0' {
        assert s[0] == '0' && s[1] == '0';
        assert d == [0] + Repeat<byte>(0, n - 1);
      }
    }
  }

  lemma {:induction false} HexOnes(s: string, n: nat)
    requires |s| == 2 * n && forall i :: 0 <= i < |s| ==> s[i] == 'f'
    ensures HexDecode(s) == Some(Repeat<byte>(255, n))
    decreases n
  {
    if n > 0 {
      HexOnes(s[2..], n - 1);
      assert s[0] == 'f' && s[1] == 'f';
      assert [255] + Repeat<byte>(255, n - 1) == Repeat<byte>(255, n);
    }
  }

  /** Replacing the text of forty zeros by forty f's normalises exactly the all-zero
      digest. */
  lemma TextNormalises(text: string)
    ensures
      var shown := if text == ZERO_TEXT then ONES_TEXT else text;
      var d := HexDecode(shown);
      Read(["10", text]) == if d.None? || |d.value| != LEN then Malformed else Digest(d.value)
  {
    HexOnes(ONES_TEXT, LEN);
    var d := HexDecode(text);
    if d.Some? && |d.value| == LEN {
      HexZero(text, LEN);
      if forall i :: 0 <= i < |text| ==> text[i] == '0' {
        assert text == ZERO_TEXT;
      }
    }
    if text == ZERO_TEXT {
      ZeroTextDecodes();
    }
  }

  lemma {:induction false} HexOfZeros(n: nat)
    ensures HexDecode(Repeat('0', 2 * n)) == Some(Repeat<byte>(0, n))
    decreases n
  {
    if n > 0 {
      HexOfZeros(n - 1);
      assert Repeat('0', 2 * n)[2..] == Repeat('0', 2 * (n - 1));
      assert [0] + Repeat<byte>(0, n - 1) == Repeat<byte>(0, n);
    }
  }

  lemma ZeroTextDecodes()
    ensures HexDecode(ZERO_TEXT) == Some(Zero())
  {
    HexOfZeros(LEN);
    assert ZERO_TEXT == Repeat('0', 2 * LEN);
  }

  // ----- What a line shows, without decoding -----

  const LOWER := "0123456789abcdef"
  const UPPER := "0123456789ABCDEF"

  /** Two digits, the high one first, in either case. */
  predicate Spells(high: char, low: char, b: byte) {
    high in {LOWER[b / 16], UPPER[b / 16]} && low in {LOWER[b % 16], UPPER[b % 16]}
  }

  predicate Shows(text: string, d: bytes) {
    |text| == 2 * |d| && forall i :: 0 <= i < |d| ==> Spells(text[2 * i], text[2 * i + 1], d[i])
  }

  lemma DigitShows(c: char, v: nat)
    requires v < 16
    ensures HexDigit(c) == Some(v) <==> c in {LOWER[v], UPPER[v]}
  {
    if v < 10 {
      assert LOWER[v] == UPPER[v] == ('0' as int + v) as char;
    } else {
      assert LOWER[v] == ('a' as int + v - 10) as char && UPPER[v] == ('A' as int + v - 10) as char;
    }
  }

  lemma PairShows(high: char, low: char, b: byte)
    ensures
      Spells(high, low, b) <==>
      HexDigit(high).Some? && HexDigit(low).Some? && 16 * HexDigit(high).value + HexDigit(low).value == b
  {
    hide HexDigit;
    DigitShows(high, b / 16);
    DigitShows(low, b % 16);
    DigitSmall(high);
    DigitSmall(low);
  }

  lemma DigitSmall(c: char)
    ensures HexDigit(c).Some? ==> HexDigit(c).value < 16
  {
  }

  lemma ShowsFirst(text: string, d: bytes)
    requires |text| >= 2 && |d| >= 1
    ensures Shows(text, d) <==> Spells(text[0], text[1], d[0]) && Shows(text[2..], d[1..])
  {
    hide Spells;
    var t, r := text[2..], d[1..];
    if Shows(text, d) {
      assert Spells(text[2 * 0], text[2 * 0 + 1], d[0]);
      forall i | 0 <= i < |r|
        ensures Spells(t[2 * i], t[2 * i + 1], r[i])
      {
        var k := i + 1;
        assert Spells(text[2 * k], text[2 * k + 1], d[k]);
      }
    }
    if Spells(text[0], text[1], d[0]) && Shows(t, r) {
      forall i | 0 <= i < |d|
        ensures Spells(text[2 * i], text[2 * i + 1], d[i])
      {
        if i > 0 {
          var k := i - 1;
          assert Spells(t[2 * k], t[2 * k + 1], r[k]);
        }
      }
    }
  }

  lemma DecodesFirst(text: string, d: bytes)
    requires |text| >= 2 && |d| >= 1
    ensures HexDecode(text) == Some(d) <==> Spells(text[0], text[1], d[0]) && HexDecode(text[2..]) == Some(d[1..])
  {
    hide Spells, HexDigit;
    PairShows(text[0], text[1], d[0]);
    assert d == [d[0]] + d[1..];
  }

  /** Decoding finds the bytes that the text spells. */
  lemma {:induction false} DecodingIsExact(text: string, d: bytes)
    ensures HexDecode(text) == Some(d) <==> Shows(text, d)
    decreases |text|
  {
    if |text| >= 2 && |d| >= 1 {
      hide Spells, HexDecode, Shows;
      DecodesFirst(text, d);
      ShowsFirst(text, d);
      DecodingIsExact(text[2..], d[1..]);
    }
  }

  /** Blank lines and lines of other registers. */
  predicate Skipped(fields: seq<string>) {
    fields == [] || (|fields| >= 2 && fields[0] != "10")
  }

  /** A line of register 10 whose second field spells twenty bytes: twenty zeros count as
      twenty times 255. */
  ghost predicate Measured(fields: seq<string>, d: bytes) {
    && |fields| >= 2 && fields[0] == "10" && |d| == 20
    && exists e ::
         && Shows(fields[1], e) && |e| == 20
         && if (forall i :: 0 <= i < 20 ==> e[i] == 0) then (forall i :: 0 <= i < 20 ==> d[i] == 255) else d == e
  }

  lemma ReadingIsExact(fields: seq<string>, d: bytes)
    ensures Read(fields) == Skip <==> Skipped(fields)
    ensures Read(fields) == Digest(d) <==> Measured(fields, d)
  {
    if |fields| >= 2 && fields[0] == "10" {
      var text := fields[1];
      if Measured(fields, d) {
        var e :| && Shows(text, e) && |e| == 20
                 && if (forall i :: 0 <= i < 20 ==> e[i] == 0) then (forall i :: 0 <= i < 20 ==> d[i] == 255) else d == e;
        DecodingIsExact(text, e);
        assert e == Zero() <==> forall i :: 0 <= i < 20 ==> e[i] == 0;
        assert d == Ones() <==> forall i :: 0 <= i < 20 ==> d[i] == 255;
      }
      if Read(fields) == Digest(d) {
        var e := HexDecode(text).value;
        DecodingIsExact(text, e);
        assert e == Zero() <==> forall i :: 0 <= i < 20 ==> e[i] == 0;
      }
    }
  }

  // ----- The register values along a log -----

  /** The values of the register before and after each line: it starts with twenty zero
      bytes, and every measured digest is appended to it and hashed. */
  ghost predicate Trace(h: Sha1, lines: seq<seq<string>>, trace: seq<bytes>) {
    && |trace| == |lines| + 1 && trace[0] == seq(20, _ => 0)
    && forall i :: 0 <= i < |lines| ==> Follows(h, trace[i], lines[i], trace[i + 1])
  }

  ghost predicate Follows(h: Sha1, pcr: bytes, fields: seq<string>, next: bytes) {
    (Skipped(fields) && next == pcr) || exists d :: Measured(fields, d) && next == h(pcr + d)
  }

  lemma TraceGrows(h: Sha1, lines: seq<seq<string>>, trace: seq<bytes>, next: bytes)
    requires lines != [] && Trace(h, lines[..|lines| - 1], trace) && Follows(h, trace[|lines| - 1], lines[|lines| - 1], next)
    ensures Trace(h, lines, trace + [next])
  {
    hide Follows;
    var longer := trace + [next];
    forall i | 0 <= i < |lines|
      ensures Follows(h, longer[i], lines[i], longer[i + 1])
    {
      if i < |lines| - 1 {
        assert Follows(h, trace[i], lines[..|lines| - 1][i], trace[i + 1]);
      }
    }
  }

  lemma {:induction false} FoldTraces(h: Sha1, lines: seq<seq<string>>) returns (trace: seq<bytes>)
    requires Digests(lines).Some?
    ensures Trace(h, lines, trace) && trace[|lines|] == Fold(h, Digests(lines).value)
    decreases |lines|
  {
    hide Read, Measured, Skipped;
    if lines == [] {
      trace := [Zero()];
      assert Zero() == seq(20, _ => 0);
    } else {
      var n := |lines| - 1;
      var t := FoldTraces(h, lines[..n]);
      var ds := Digests(lines[..n]).value;
      var next := Fold(h, Digests(lines).value);
      match Read(lines[n]) {
        case Skip =>
          ReadingIsExact(lines[n], []);
        case Digest(d) =>
          ReadingIsExact(lines[n], d);
          assert (ds + [d])[..|ds|] == ds;
      }
      assert Follows(h, t[n], lines[n], next);
      TraceGrows(h, lines, t, next);
      trace := t + [next];
    }
  }

  lemma {:induction false} TraceFolds(h: Sha1, lines: seq<seq<string>>, trace: seq<bytes>)
    requires Trace(h, lines, trace)
    ensures Digests(lines).Some? && trace[|lines|] == Fold(h, Digests(lines).value)
    decreases |lines|
  {
    if lines == [] {
      assert Zero() == seq(20, _ => 0);
    } else {
      var n := |lines| - 1;
      TraceFolds(h, lines[..n], trace[..n + 1]);
      var ds := Digests(lines[..n]).value;
      assert Follows(h, trace[n], lines[n], trace[n + 1]);
      if Skipped(lines[n]) {
        ReadingIsExact(lines[n], []);
      }
      if d :| Measured(lines[n], d) && trace[n + 1] == h(trace[n] + d) {
        ReadingIsExact(lines[n], d);
        assert (ds + [d])[..|ds|] == ds;
      }
    }
  }

  ghost predicate Reaches(h: Sha1, lines: seq<seq<string>>, pcr10: bytes) {
    exists trace :: Trace(h, lines, trace) && trace[|lines|] == pcr10
  }

  lemma ReachesIsExact(h: Sha1, lines: seq<seq<string>>, pcr10: bytes)
    ensures Reaches(h, lines, pcr10) <==> Digests(lines).Some? && Fold(h, Digests(lines).value) == pcr10
  {
    if Digests(lines).Some? {
      var trace := FoldTraces(h, lines);
    }
    if Reaches(h, lines, pcr10) {
      var trace :| Trace(h, lines, trace) && trace[|lines|] == pcr10;
      TraceFolds(h, lines, trace);
    }
  }

  // ----- The verifier -----

  /** verifyIMAMeasurements: accepted exactly when the PCR has 20 bytes, the input ended
      without error and the register, which starts at zero and is extended by every
      measured line, reaches the PCR over a log without unreadable lines. */
  method VerifyMeasurements(h: Sha1, lines: seq<seq<string>>, readFailed: bool, pcr10: bytes) returns (ok: bool)
    ensures ok <==> |pcr10| == 20 && !readFailed && Reaches(h, lines, pcr10)
  {
    hide Reaches, HexDecode, Repeat;
    ReachesIsExact(h, lines, pcr10);
    if |pcr10| != LEN {
      return false;
    }
    var calculated := Zero();
    ghost var ds := [];
    assert lines[..0] == [];
    for i := 0 to |lines|
      invariant Digests(lines[..i]) == Some(ds) && calculated == Fold(h, ds)
    {
      var parts := lines[i];
      assert lines[..i + 1][..i] == lines[..i];
      if |parts| == 0 {
        continue;
      }
      if |parts| < 2 {
        Refused(lines, i);
        return false;
      }
      if parts[0] != "10" {
        continue;
      }
      var digestHex := parts[1];
      if digestHex == ZERO_TEXT {
        digestHex := ONES_TEXT;
      }
      TextNormalises(parts[1]);
      assert Read(parts) == Read(["10", parts[1]]);
      var digest := HexDecode(digestHex);
      if digest.None? || |digest.value| != LEN {
        Refused(lines, i);
        return false;
      }
      assert (ds + [digest.value])[..|ds|] == ds;
      calculated := h(calculated + digest.value);
      ds := ds + [digest.value];
    }
    assert lines[..|lines|] == lines;
    return !readFailed && pcr10 == calculated;
  }

  lemma {:induction false} Refused(lines: seq<seq<string>>, i: nat)
    requires i < |lines| && Digests(lines[..i + 1]).None?
    ensures Digests(lines).None?
    decreases |lines|
  {
    if i + 1 == |lines| {
      assert lines[..i + 1] == lines;
    } else {
      var front := lines[..|lines| - 1];
      assert front[..i + 1] == lines[..i + 1];
      Refused(front, i);
    }
  }

  // ----- Binding -----

  /** What two logs with one PCR give away when their digests differ: two different
      inputs of the hash with one output, or an input that hashes to the start value. */
  datatype Evidence = Same | Collision(x: bytes, y: bytes) | Preimage(x: bytes)

  predicate Proves(h: Sha1, e: Evidence) {
    match e
    case Same => true
    case Collision(x, y) => x != y && h(x) == h(y)
    case Preimage(x) => h(x) == Zero()
  }

  ghost predicate AllDigests(ds: seq<bytes>) {
    forall i :: 0 <= i < |ds| ==> |ds[i]| == LEN
  }

  lemma {:induction false} FoldSized(h: Sha1, ds: seq<bytes>)
    requires Sized(h)
    ensures |Fold(h, ds)| == LEN
  {
  }

  /** From any two digest sequences with the same fold: they are equal, or here is a
      collision or a preimage of the zero start value. */
  lemma {:induction false} FoldBinds(h: Sha1, a: seq<bytes>, b: seq<bytes>) returns (e: Evidence)
    requires Sized(h) && AllDigests(a) && AllDigests(b) && Fold(h, a) == Fold(h, b)
    ensures Proves(h, e) && (e.Same? ==> a == b)
    decreases |a|
  {
    if a == [] && b == [] {
      return Same;
    }
    if a == [] || b == [] {
      var c := if a == [] then b else a;
      return Preimage(Fold(h, c[..|c| - 1]) + c[|c| - 1]);
    }
    var a', b' := a[..|a| - 1], b[..|b| - 1];
    var x, y := Fold(h, a') + a[|a| - 1], Fold(h, b') + b[|b| - 1];
    if x != y {
      return Collision(x, y);
    }
    FoldSized(h, a');
    FoldSized(h, b');
    assert Fold(h, a') == x[..LEN] == y[..LEN] == Fold(h, b');
    assert a[|a| - 1] == x[LEN..] == y[LEN..] == b[|b| - 1];
    e := FoldBinds(h, a', b');
    if e.Same? {
      assert a == a' + [a[|a| - 1]] && b == b' + [b[|b| - 1]];
    }
  }

  lemma {:induction false} DigestsSized(lines: seq<seq<string>>)
    ensures Digests(lines).Some? ==> AllDigests(Digests(lines).value)
    decreases |lines|
  {
    if lines != [] {
      DigestsSized(lines[..|lines| - 1]);
    }
  }

  /** Two logs accepted for one PCR have the same normalised digests, or break the hash. */
  lemma LogsBind(h: Sha1, log: seq<seq<string>>, other: seq<seq<string>>, pcr10: bytes) returns (e: Evidence)
    requires Sized(h) && Reaches(h, log, pcr10) && Reaches(h, other, pcr10)
    ensures Proves(h, e) && (e.Same? ==> Digests(log) == Digests(other))
  {
    ReachesIsExact(h, log, pcr10);
    ReachesIsExact(h, other, pcr10);
    DigestsSized(log);
    DigestsSized(other);
    e := FoldBinds(h, Digests(log).value, Digests(other).value);
  }
}
