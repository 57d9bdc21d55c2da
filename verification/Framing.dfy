/** The algorithm commitment of agent/computations.go: a program-only digest for
    a plain binary, a length-framed execution bundle for everything else. The
    hash itself is a parameter; every result is about its preimages. */
module Framing {
  import opened Bytes

  type Digest = bytes
  type Hash = bytes -> Digest

  /** Everything that decides what the runner executes. */
  datatype Bundle = Bundle(algoType: bytes, args: seq<bytes>, program: bytes, requirements: bytes)

  const BIN: bytes := [98, 105, 110]
  // The bytes of "asb.execution-bundle.v1".
  const DOMAIN: bytes := [97, 115, 98, 46, 101, 120, 101, 99, 117, 116, 105, 111, 110, 45, 98, 117, 110, 100, 108, 101, 46, 118, 49]

  /** Go slice and string lengths always fit 64 bits. */
  ghost predicate Fits(b: Bundle) {
    && |b.algoType| < Capacity(8) && |b.args| < Capacity(8)
    && |b.program| < Capacity(8) && |b.requirements| < Capacity(8)
    && ArgsFit(b.args)
  }

  ghost predicate ArgsFit(args: seq<bytes>) {
    forall i :: 0 <= i < |args| ==> |args[i]| < Capacity(8)
  }

  // ----- The framing -----

  function Part(v: bytes): bytes {
    BigEndian(|v|, 8) + v
  }

  function Parts(vs: seq<bytes>): bytes {
    if vs == [] then [] else Part(vs[0]) + Parts(vs[1..])
  }

  function Frame(b: Bundle): bytes {
    Part(DOMAIN) + (Part(b.algoType) + (BigEndian(|b.args|, 8) + (Parts(b.args) + (Part(b.program) + Part(b.requirements)))))
  }

  function Normalize(b: Bundle): Bundle {
    if b.algoType == [] then b.(algoType := BIN) else b
  }

  /** A binary with neither arguments nor requirements keeps the program-only digest. */
  predicate Legacy(b: Bundle) {
    Normalize(b).algoType == BIN && b.args == [] && b.requirements == []
  }

  /** The bytes that AlgorithmCommitment hashes. */
  function Preimage(b: Bundle): bytes {
    if Legacy(b) then b.program else Frame(Normalize(b))
  }

  function Commitment(h: Hash, b: Bundle): Digest {
    h(Preimage(b))
  }

  // ----- The decoder -----

  function TakePart(s: bytes): (r: Option<(bytes, bytes)>)
    ensures r.Some? ==> |r.value.0| < Capacity(8) && s == Part(r.value.0) + r.value.1
  {
    if |s| < 8 then None else
    var n := FromBigEndian(s[..8]);
    if n > |s| - 8 then None else
    PartBack(s);
    Some((s[8..8 + n], s[8 + n..]))
  }

  lemma PartBack(s: bytes)
    requires |s| >= 8 && FromBigEndian(s[..8]) <= |s| - 8
    ensures
      var n := FromBigEndian(s[..8]);
      n < Capacity(8) && s == Part(s[8..8 + n]) + s[8 + n..]
  {
    hide BigEndian, FromBigEndian, Capacity;
    BigEndianEncodes(s[..8]);
    var n := FromBigEndian(s[..8]);
    assert s == s[..8] + (s[8..8 + n] + s[8 + n..]);
  }

  function TakeParts(count: nat, s: bytes): (r: Option<(seq<bytes>, bytes)>)
    ensures r.Some? ==> |r.value.0| == count && ArgsFit(r.value.0) && s == Parts(r.value.0) + r.value.1
  {
    if count == 0 then Some(([], s)) else
    match TakePart(s)
    case None => None
    case Some((v, rest)) =>
      match TakeParts(count - 1, rest)
      case None => None
      case Some((vs, rest')) =>
        assert ([v] + vs)[1..] == vs;
        Some(([v] + vs, rest'))
  }

  /** The bytes of the version string. */
  predicate IsDomain(d: bytes) {
    var name := "asb.execution-bundle.v1";
    |d| == |name| && forall i :: 0 <= i < |d| ==> d[i] == name[i] as int
  }

  lemma DomainIsNamed(d: bytes)
    ensures IsDomain(d) <==> d == DOMAIN
  {
    var name := "asb.execution-bundle.v1";
    assert |DOMAIN| == |name| == 23;
    assert IsDomain(DOMAIN);
    if IsDomain(d) {
      assert forall i :: 0 <= i < 23 ==> d[i] == DOMAIN[i];
    }
  }

  function Decode(s: bytes): Option<Bundle> {
    match TakePart(s)
    case None => None
    case Some((domain, s1)) =>
      if !IsDomain(domain) then None else
      match TakePart(s1)
      case None => None
      case Some((algoType, s2)) =>
        if |s2| < 8 then None else
        match TakeParts(FromBigEndian(s2[..8]), s2[8..])
        case None => None
        case Some((args, s3)) =>
          match TakePart(s3)
          case None => None
          case Some((program, s4)) =>
            match TakePart(s4)
            case None => None
            case Some((requirements, s5)) =>
              if s5 == [] then Some(Bundle(algoType, args, program, requirements)) else None
  }

  lemma TakesPart(v: bytes, rest: bytes)
    requires |v| < Capacity(8)
    ensures TakePart(Part(v) + rest) == Some((v, rest))
  {
    var s := Part(v) + rest;
    BigEndianDecodes(|v|, 8);
    assert s[..8] == BigEndian(|v|, 8);
    assert s[8..8 + |v|] == v && s[8 + |v|..] == rest;
  }

  lemma {:induction false} TakesParts(vs: seq<bytes>, rest: bytes)
    requires ArgsFit(vs)
    ensures TakeParts(|vs|, Parts(vs) + rest) == Some((vs, rest))
  {
    if vs == [] {
      assert Parts(vs) + rest == rest;
    } else {
      assert Parts(vs) + rest == Part(vs[0]) + (Parts(vs[1..]) + rest);
      TakesPart(vs[0], Parts(vs[1..]) + rest);
      TakesParts(vs[1..], rest);
      assert vs == [vs[0]] + vs[1..];
    }
  }

  /** The decoder inverts the framing, for every argument list. */
  lemma FrameDecodes(b: Bundle)
    requires Fits(b)
    ensures Decode(Frame(b)) == Some(b)
  {
    CapacityOf8();
    var s4 := Part(b.requirements);
    var s3 := Part(b.program) + s4;
    var s2 := BigEndian(|b.args|, 8) + (Parts(b.args) + s3);
    DomainIsNamed(DOMAIN);
    TakesPart(DOMAIN, Part(b.algoType) + s2);
    TakesPart(b.algoType, s2);
    BigEndianDecodes(|b.args|, 8);
    assert s2[..8] == BigEndian(|b.args|, 8) && s2[8..] == Parts(b.args) + s3;
    TakesParts(b.args, s3);
    TakesPart(b.program, s4);
    assert s4 == s4 + [];
    TakesPart(b.requirements, []);
  }

  /** Only framings decode: the accepted byte strings are exactly the frames. */
  lemma DecodedIsFrame(s: bytes)
    ensures Decode(s).Some? ==> Fits(Decode(s).value) && s == Frame(Decode(s).value)
  {
    if Decode(s).Some? {
      var b := Decode(s).value;
      DomainIsNamed(TakePart(s).value.0);
      var s1 := TakePart(s).value.1;
      var s2 := TakePart(s1).value.1;
      BigEndianEncodes(s2[..8]);
      assert s2 == s2[..8] + s2[8..];
      var s3 := TakeParts(FromBigEndian(s2[..8]), s2[8..]).value.1;
      var s4 := TakePart(s3).value.1;
      assert s4 == Part(b.requirements);
    }
  }

  /** Two commitment inputs share a preimage exactly when they are the same
      input after type normalisation, or one is a legacy binary whose program is
      byte for byte the framed bundle of the other. */
  lemma PreimagesMeet(a: Bundle, b: Bundle)
    requires Fits(a) && Fits(b)
    ensures Preimage(a) == Preimage(b) <==>
      || Normalize(a) == Normalize(b)
      || (Legacy(a) && !Legacy(b) && a.program == Frame(Normalize(b)))
      || (Legacy(b) && !Legacy(a) && b.program == Frame(Normalize(a)))
  {
    CapacityOf8();
    FrameDecodes(Normalize(a));
    FrameDecodes(Normalize(b));
  }

  /** Equal commitments mean one of the cases above, or two different byte
      strings on which the hash collides. */
  lemma CommitmentBinds(h: Hash, a: Bundle, b: Bundle)
    requires Fits(a) && Fits(b) && Commitment(h, a) == Commitment(h, b)
    ensures
      || Normalize(a) == Normalize(b)
      || (Legacy(a) && !Legacy(b) && Decode(a.program) == Some(Normalize(b)))
      || (Legacy(b) && !Legacy(a) && Decode(b.program) == Some(Normalize(a)))
      || (Preimage(a) != Preimage(b) && h(Preimage(a)) == h(Preimage(b)))
  {
    PreimagesMeet(a, b);
    CapacityOf8();
    FrameDecodes(Normalize(a));
    FrameDecodes(Normalize(b));
  }

  /** What is hashed, on the fields: a program alone if the type is empty or "bin" and
      nothing else is given, and otherwise a text that decodes to the bundle with its
      type filled in. */
  lemma CommitmentDecides(h: Hash, b: Bundle)
    requires Fits(b)
    ensures
      var bin: bytes := [98, 105, 110];
      if (b.algoType == [] || b.algoType == bin) && b.args == [] && b.requirements == [] then Commitment(h, b) == h(b.program)
      else exists s :: Commitment(h, b) == h(s) && Decode(s) == Some(if b.algoType == [] then b.(algoType := bin) else b)
  {
    hide Frame, Decode, Capacity;
    CapacityOf8();
    if !Legacy(b) {
      NormalizedFits(b);
      FrameDecodes(Normalize(b));
    }
  }

  lemma NormalizedFits(b: Bundle)
    requires Fits(b)
    ensures Fits(Normalize(b))
  {
    CapacityOf8();
  }

  // ----- The hasher that the source feeds piece by piece -----

  class Hasher {
    var fed: bytes

    constructor ()
      ensures fed == []
    {
      fed := [];
    }

    method Write(p: bytes)
      modifies this
      ensures fed == old(fed) + p
    {
      fed := fed + p;
    }

    method WritePart(value: bytes)
      modifies this
      ensures fed == old(fed) + Part(value)
    {
      Write(BigEndian(|value|, 8));
      Write(value);
    }

    method WriteParts(values: seq<bytes>)
      modifies this
      ensures fed == old(fed) + Parts(values)
    {
      for i := 0 to |values|
        invariant fed == old(fed) + Parts(values[..i])
      {
        PartsAppend(values[..i], values[i]);
        assert values[..i + 1] == values[..i] + [values[i]];
        WritePart(values[i]);
      }
      assert values[..|values|] == values;
    }

    method Sum(h: Hash) returns (digest: Digest)
      ensures digest == h(fed)
    {
      digest := h(fed);
    }
  }

  lemma {:induction false} PartsAppend(vs: seq<bytes>, v: bytes)
    ensures Parts(vs + [v]) == Parts(vs) + Part(v)
  {
    if vs == [] {
      assert Parts([v]) == Part(v) + Parts([]);
    } else {
      PartsAppend(vs[1..], v);
      assert (vs + [v])[1..] == vs[1..] + [v];
    }
  }

  lemma Regroup(p: bytes, q: bytes, r: bytes, s: bytes, t: bytes, u: bytes)
    ensures [] + p + q + r + s + t + u == p + (q + (r + (s + (t + u))))
  {
  }

  /** The writes, in source order, feed the hasher exactly the frame. */
  method ExecutionBundleHash(h: Hash, b: Bundle) returns (digest: Digest)
    ensures digest == h(Frame(b))
  {
    var hasher := new Hasher();
    hasher.WritePart(DOMAIN);
    hasher.WritePart(b.algoType);
    hasher.Write(BigEndian(|b.args|, 8));
    hasher.WriteParts(b.args);
    hasher.WritePart(b.program);
    hasher.WritePart(b.requirements);
    Regroup(Part(DOMAIN), Part(b.algoType), BigEndian(|b.args|, 8), Parts(b.args), Part(b.program), Part(b.requirements));
    digest := hasher.Sum(h);
  }

  method AlgorithmCommitment(h: Hash, b: Bundle) returns (digest: Digest)
    ensures digest == Commitment(h, b)
  {
    var algoType := b.algoType;
    if algoType == [] {
      algoType := BIN;
    }
    if algoType == BIN && |b.args| == 0 && |b.requirements| == 0 {
      digest := h(b.program);
    } else {
      digest := ExecutionBundleHash(h, b.(algoType := algoType));
    }
  }
}
