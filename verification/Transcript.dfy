/** The action transcripts of scripts/verify-action-transcript-v1.py and one decoder
    for all four kinds. Text fields are their UTF-8 bytes; time stamps are the
    (seconds, nanoseconds) pairs of module Timestamp. */
module Transcript {
  import opened Bytes

  // ----- Parts -----

  datatype Part =
    | Str(text: bytes)
    | U32(n: nat)
    | U64(n: nat)
    | Time(seconds: int, nanos: nat)
    | Absent
    | Present(parts: seq<Part>)

  /** The shape of a part: which bytes to expect for it. */
  datatype Shape = StrShape | U32Shape | U64Shape | TimeShape | Optional(shapes: seq<Shape>)

  const TWO63: int := 0x8000_0000_0000_0000

  /** What struct.pack accepts. */
  predicate Packs(p: Part)
    decreases p
  {
    match p
    case Str(text) => |text| < Capacity(2)
    case U32(n) => n < Capacity(4)
    case U64(n) => n < Capacity(8)
    case Time(seconds, nanos) => -TWO63 <= seconds < TWO63 && nanos < Capacity(4)
    case Absent => true
    case Present(parts) => AllPack(parts)
  }

  /** The limits in numbers. */
  lemma PackLimits(p: Part)
    ensures p.Str? ==> (Packs(p) <==> |p.text| <= 65535)
    ensures p.U32? ==> (Packs(p) <==> p.n <= 4_294_967_295)
    ensures p.U64? ==> (Packs(p) <==> p.n <= 18_446_744_073_709_551_615)
    ensures p.Time? ==>
      (Packs(p) <==> -9_223_372_036_854_775_808 <= p.seconds <= 9_223_372_036_854_775_807 && p.nanos <= 4_294_967_295)
  {
    CapacityOf2();
    CapacityOf4();
    CapacityOf8();
    hide Capacity;
  }

  predicate AllPack(ps: seq<Part>)
    decreases ps
  {
    forall i :: 0 <= i < |ps| ==> Packs(ps[i])
  }

  predicate Has(p: Part, s: Shape)
    decreases p
  {
    match p
    case Str(_) => s == StrShape
    case U32(_) => s == U32Shape
    case U64(_) => s == U64Shape
    case Time(_, _) => s == TimeShape
    case Absent => s.Optional?
    case Present(parts) => s.Optional? && AllHave(parts, s.shapes)
  }

  predicate AllHave(ps: seq<Part>, ss: seq<Shape>)
    decreases ps
  {
    |ps| == |ss| && forall i :: 0 <= i < |ps| ==> Has(ps[i], ss[i])
  }

  // ----- Encoding -----

  /** Two's complement in eight bytes. */
  function Signed(x: int): bytes
    requires -TWO63 <= x < TWO63
  {
    BigEndian(if x < 0 then x + 2 * TWO63 else x, 8)
  }

  function Encode(p: Part): bytes
    requires Packs(p)
    decreases p
  {
    match p
    case Str(text) => BigEndian(|text|, 2) + text
    case U32(n) => BigEndian(n, 4)
    case U64(n) => BigEndian(n, 8)
    case Time(seconds, nanos) => Signed(seconds) + BigEndian(nanos, 4)
    case Absent => [0]
    case Present(parts) => [1] + EncodeAll(parts)
  }

  function EncodeAll(ps: seq<Part>): bytes
    requires AllPack(ps)
    decreases ps
  {
    if ps == [] then [] else Encode(ps[0]) + EncodeAll(ps[1..])
  }

  // ----- Decoding -----

  function TakeNumber(s: bytes, width: nat): (r: Option<(nat, bytes)>)
    ensures r.Some? ==> r.value.0 < Capacity(width) && s == BigEndian(r.value.0, width) + r.value.1
  {
    if |s| < width then None else
    BigEndianEncodes(s[..width]);
    Some((FromBigEndian(s[..width]), s[width..]))
  }

  lemma TakesNumber(n: nat, width: nat, rest: bytes)
    requires n < Capacity(width)
    ensures TakeNumber(BigEndian(n, width) + rest, width) == Some((n, rest))
  {
    BigEndianDecodes(n, width);
    assert (BigEndian(n, width) + rest)[..width] == BigEndian(n, width);
  }

  function TakeText(s: bytes): Option<(Part, bytes)> {
    match TakeNumber(s, 2)
    case None => None
    case Some((n, rest)) => if n > |rest| then None else Some((Str(rest[..n]), rest[n..]))
  }

  function TakeTime(s: bytes): Option<(Part, bytes)> {
    match TakeNumber(s, 8)
    case None => None
    case Some((u, s1)) =>
      match TakeNumber(s1, 4)
      case None => None
      case Some((nanos, rest)) => Some((Time(if u < TWO63 then u else u - 2 * TWO63, nanos), rest))
  }

  function Take(shape: Shape, s: bytes): Option<(Part, bytes)>
    decreases shape
  {
    match shape
    case StrShape => TakeText(s)
    case U32Shape => (match TakeNumber(s, 4) case None => None case Some((n, rest)) => Some((U32(n), rest)))
    case U64Shape => (match TakeNumber(s, 8) case None => None case Some((n, rest)) => Some((U64(n), rest)))
    case TimeShape => TakeTime(s)
    case Optional(shapes) =>
      if s == [] then None
      else if s[0] == 0 then Some((Absent, s[1..]))
      else if s[0] != 1 then None
      else match TakeAll(shapes, s[1..])
           case None => None
           case Some((parts, rest)) => Some((Present(parts), rest))
  }

  function TakeAll(shapes: seq<Shape>, s: bytes): Option<(seq<Part>, bytes)>
    decreases shapes
  {
    if shapes == [] then Some(([], s)) else
    match Take(shapes[0], s)
    case None => None
    case Some((p, s1)) =>
      match TakeAll(shapes[1..], s1)
      case None => None
      case Some((ps, rest)) => Some(([p] + ps, rest))
  }

  // ----- The decoder inverts the encoder -----

  lemma TakesText(text: bytes, rest: bytes)
    requires |text| < Capacity(2)
    ensures TakeText(Encode(Str(text)) + rest) == Some((Str(text), rest))
  {
    hide BigEndian, Capacity, TakeNumber;
    TakesNumber(|text|, 2, text + rest);
    assert Encode(Str(text)) + rest == BigEndian(|text|, 2) + (text + rest);
    assert (text + rest)[..|text|] == text && (text + rest)[|text|..] == rest;
  }

  lemma TakesTime(seconds: int, nanos: nat, rest: bytes)
    requires Packs(Time(seconds, nanos))
    ensures TakeTime(Encode(Time(seconds, nanos)) + rest) == Some((Time(seconds, nanos), rest))
  {
    hide BigEndian, Capacity, TakeNumber;
    CapacityOf8();
    var u := if seconds < 0 then seconds + 2 * TWO63 else seconds;
    TakesNumber(u, 8, BigEndian(nanos, 4) + rest);
    TakesNumber(nanos, 4, rest);
    assert Encode(Time(seconds, nanos)) + rest == BigEndian(u, 8) + (BigEndian(nanos, 4) + rest);
  }

  lemma {:induction false} Takes(p: Part, shape: Shape, rest: bytes)
    requires Packs(p) && Has(p, shape)
    ensures Take(shape, Encode(p) + rest) == Some((p, rest))
    decreases p
  {
    hide BigEndian, Capacity, TakeNumber, TakeText, TakeTime, Signed;
    match p
    case Str(text) => TakesText(text, rest);
    case U32(n) => TakesNumber(n, 4, rest);
    case U64(n) => TakesNumber(n, 8, rest);
    case Time(seconds, nanos) => TakesTime(seconds, nanos, rest);
    case Absent =>
      assert ([0] + rest)[1..] == rest;
    case Present(parts) =>
      TakesAll(parts, shape.shapes, rest);
      assert (Encode(p) + rest)[1..] == EncodeAll(parts) + rest;
  }

  lemma {:induction false} TakesAll(ps: seq<Part>, shapes: seq<Shape>, rest: bytes)
    requires AllPack(ps) && AllHave(ps, shapes)
    ensures TakeAll(shapes, EncodeAll(ps) + rest) == Some((ps, rest))
    decreases ps
  {
    hide BigEndian, Capacity, Take, Encode;
    if ps == [] {
      assert EncodeAll(ps) + rest == rest;
    } else {
      assert EncodeAll(ps) + rest == Encode(ps[0]) + (EncodeAll(ps[1..]) + rest);
      Takes(ps[0], shapes[0], EncodeAll(ps[1..]) + rest);
      TakesAll(ps[1..], shapes[1..], rest);
      assert [ps[0]] + ps[1..] == ps;
    }
  }

  // ----- Only encodings decode -----

  lemma TakenText(s: bytes)
    ensures
      var r := TakeText(s);
      r.Some? ==> r.value.0.Str? && Packs(r.value.0) && s == Encode(r.value.0) + r.value.1
  {
    hide BigEndian, Capacity;
    var r := TakeText(s);
    if r.Some? {
      var (n, rest) := TakeNumber(s, 2).value;
      assert rest == rest[..n] + rest[n..];
    }
  }

  lemma TakenTime(s: bytes)
    ensures
      var r := TakeTime(s);
      r.Some? ==> r.value.0.Time? && Packs(r.value.0) && s == Encode(r.value.0) + r.value.1
  {
    hide BigEndian, Capacity;
    CapacityOf8();
  }

  lemma {:induction false} Taken(shape: Shape, s: bytes)
    ensures
      var r := Take(shape, s);
      r.Some? ==> Packs(r.value.0) && Has(r.value.0, shape) && s == Encode(r.value.0) + r.value.1
    decreases shape
  {
    hide BigEndian, Capacity, TakeText, TakeTime, Signed;
    match shape
    case StrShape => TakenText(s);
    case TimeShape => TakenTime(s);
    case Optional(shapes) =>
      if s != [] {
        assert s == [s[0]] + s[1..];
        if s[0] == 1 {
          TakenAll(shapes, s[1..]);
        }
      }
    case _ =>
  }

  lemma {:induction false} TakenAll(shapes: seq<Shape>, s: bytes)
    ensures
      var r := TakeAll(shapes, s);
      r.Some? ==> AllPack(r.value.0) && AllHave(r.value.0, shapes) && s == EncodeAll(r.value.0) + r.value.1
    decreases shapes
  {
    hide BigEndian, Capacity, Take, Encode, Packs, Has;
    if shapes != [] && TakeAll(shapes, s).Some? {
      Taken(shapes[0], s);
      var (p, s1) := Take(shapes[0], s).value;
      TakenAll(shapes[1..], s1);
      var (ps, rest) := TakeAll(shapes[1..], s1).value;
      assert ([p] + ps)[1..] == ps;
    }
  }

  // ----- The four transcripts -----

  datatype Stamp = Stamp(seconds: int, nanos: nat)
  datatype FenceToken = FenceToken(leaseID: bytes, executorID: bytes, generation: nat)
  datatype LeaseOf<T> = Lease(fence: FenceToken, issuedAt: T, expiresAt: T)
  datatype ResumeOf<T> = Resume(
    kind: bytes, notBefore: Option<T>, probeAfter: Option<T>,
    target: bytes, dependency: bytes, signal: bytes)
  datatype CheckpointOf<T> = Checkpoint(sequence: nat, payloadDigest: bytes, storageRef: bytes, createdAt: T)

  /** An action with its points in time given as `T`: as texts, or as stamps. */
  datatype ActionOf<T> =
    | AcceptanceContext(
        assignmentID: bytes, expectedAssignmentRevision: nat, taskID: bytes, participantID: bytes,
        role: bytes, authorityDigest: bytes, assignmentStatus: bytes)
    | AcceptanceRequest(
        operation: bytes, eventID: bytes, actionID: bytes, actionDigest: bytes, ownerID: bytes,
        recoveryMode: bytes, recoveryMaxAttempts: nat, recoveryKey: bytes, contextDigest: bytes)
    | AcceptanceAttempt(
        actorID: bytes, authorizationID: bytes, proofID: bytes, operation: bytes, actionID: bytes,
        actionDigest: bytes, mutationDigest: bytes, verifierNonce: bytes, issuedAt: T, expiresAt: T)
    | MutationRequest(
        eventID: bytes, kind: bytes, expectedRevision: nat, at: T, reasonCode: bytes, reasonDetail: bytes,
        fence: Option<FenceToken>, lease: Option<LeaseOf<T>>, resume: Option<ResumeOf<T>>, checkpoint: Option<CheckpointOf<T>>,
        evidenceRef: bytes, reconciliation: bytes, resultRef: bytes, errorCode: bytes)

  type Action = ActionOf<Stamp>

  function Ascii(s: string): (b: bytes)
    ensures |b| == |s| && forall i :: 0 <= i < |s| ==> b[i] == s[i] as int % 256
  {
    if s == [] then [] else [s[0] as int % 256] + Ascii(s[1..])
  }

  const CONTEXT_TAG := "asb.task-action-accept-context/v1"
  const REQUEST_TAG := "asb.action-accept-request/v1"
  const ATTEMPT_TAG := "asb.task-action-accept-attempt/v1"
  const MUTATION_TAG := "asb.action-mutation-request/v1"

  function Tag(a: Action): bytes {
    match a
    case AcceptanceContext(_, _, _, _, _, _, _) => Ascii(CONTEXT_TAG)
    case AcceptanceRequest(_, _, _, _, _, _, _, _, _) => Ascii(REQUEST_TAG)
    case AcceptanceAttempt(_, _, _, _, _, _, _, _, _, _) => Ascii(ATTEMPT_TAG)
    case MutationRequest(_, _, _, _, _, _, _, _, _, _, _, _, _, _) => Ascii(MUTATION_TAG)
  }

  lemma TagsDiffer()
    ensures Ascii(CONTEXT_TAG) != Ascii(REQUEST_TAG) && Ascii(CONTEXT_TAG) != Ascii(ATTEMPT_TAG)
    ensures Ascii(CONTEXT_TAG) != Ascii(MUTATION_TAG) && Ascii(REQUEST_TAG) != Ascii(ATTEMPT_TAG)
    ensures Ascii(REQUEST_TAG) != Ascii(MUTATION_TAG) && Ascii(ATTEMPT_TAG) != Ascii(MUTATION_TAG)
  {
    hide Ascii;
    assert Ascii(CONTEXT_TAG)[23] == 'c' as int && Ascii(ATTEMPT_TAG)[23] == 'a' as int;
  }

  function StampPart(t: Stamp): Part {
    Time(t.seconds, t.nanos)
  }

  function FenceParts(f: FenceToken): seq<Part> {
    [Str(f.leaseID), Str(f.executorID), U64(f.generation)]
  }

  function LeaseParts(l: LeaseOf<Stamp>): seq<Part> {
    FenceParts(l.fence) + [StampPart(l.issuedAt), StampPart(l.expiresAt)]
  }

  function OptionalStamp(t: Option<Stamp>): Part {
    if t.None? then Absent else Present([StampPart(t.value)])
  }

  function ResumeParts(r: ResumeOf<Stamp>): seq<Part> {
    [Str(r.kind), OptionalStamp(r.notBefore), OptionalStamp(r.probeAfter), Str(r.target), Str(r.dependency), Str(r.signal)]
  }

  function CheckpointParts(c: CheckpointOf<Stamp>): seq<Part> {
    [U64(c.sequence), Str(c.payloadDigest), Str(c.storageRef), StampPart(c.createdAt)]
  }

  /** The parts of a transcript after its tag, in the order in which they are written. */
  function Body(a: Action): seq<Part> {
    match a
    case AcceptanceContext(assignmentID, revision, taskID, participantID, role, authorityDigest, status) =>
      [Str(assignmentID), U64(revision), Str(taskID), Str(participantID), Str(role), Str(authorityDigest), Str(status)]
    case AcceptanceRequest(operation, eventID, actionID, actionDigest, ownerID, mode, attempts, key, digest) =>
      [Str(operation), Str(eventID), Str(actionID), Str(actionDigest), Str(ownerID), Str(mode), U32(attempts), Str(key), Str(digest)]
    case AcceptanceAttempt(actorID, authorizationID, proofID, operation, actionID, actionDigest, mutationDigest, nonce, issuedAt, expiresAt) =>
      [Str(actorID), Str(authorizationID), Str(proofID), Str(operation), Str(actionID), Str(actionDigest),
       Str(mutationDigest), Str(nonce), StampPart(issuedAt), StampPart(expiresAt)]
    case MutationRequest(eventID, kind, revision, at, code, detail, fence, lease, resume, checkpoint, evidence, reconciliation, result, error) =>
      [Str(eventID), Str(kind), U64(revision), StampPart(at), Str(code), Str(detail),
       if fence.None? then Absent else Present(FenceParts(fence.value)),
       if lease.None? then Absent else Present(LeaseParts(lease.value)),
       if resume.None? then Absent else Present(ResumeParts(resume.value)),
       if checkpoint.None? then Absent else Present(CheckpointParts(checkpoint.value)),
       Str(evidence), Str(reconciliation), Str(result), Str(error)]
  }

  /** transcript: the bytes, or nothing when a field does not pack. */
  function Write(a: Action): Option<bytes> {
    if AllPack([Str(Tag(a))] + Body(a)) then Some(EncodeAll([Str(Tag(a))] + Body(a))) else None
  }

  // ----- Shapes and rebuilding -----

  const FENCE_SHAPE: seq<Shape> := [StrShape, StrShape, U64Shape]
  const LEASE_SHAPE: seq<Shape> := [StrShape, StrShape, U64Shape, TimeShape, TimeShape]
  const RESUME_SHAPE: seq<Shape> := [StrShape, Optional([TimeShape]), Optional([TimeShape]), StrShape, StrShape, StrShape]
  const CHECKPOINT_SHAPE: seq<Shape> := [U64Shape, StrShape, StrShape, TimeShape]

  const CONTEXT_SHAPE: seq<Shape> := [StrShape, U64Shape, StrShape, StrShape, StrShape, StrShape, StrShape]
  const REQUEST_SHAPE: seq<Shape> := [StrShape, StrShape, StrShape, StrShape, StrShape, StrShape, U32Shape, StrShape, StrShape]
  const ATTEMPT_SHAPE: seq<Shape> :=
    [StrShape, StrShape, StrShape, StrShape, StrShape, StrShape, StrShape, StrShape, TimeShape, TimeShape]
  const MUTATION_SHAPE: seq<Shape> :=
    [StrShape, StrShape, U64Shape, TimeShape, StrShape, StrShape,
     Optional(FENCE_SHAPE), Optional(LEASE_SHAPE), Optional(RESUME_SHAPE), Optional(CHECKPOINT_SHAPE),
     StrShape, StrShape, StrShape, StrShape]

  // Fields of parts, with a default for parts of another shape.

  function At(q: seq<Part>, i: nat): Part {
    if i < |q| then q[i] else Absent
  }

  function TextAt(q: seq<Part>, i: nat): bytes {
    if At(q, i).Str? then At(q, i).text else []
  }

  function NumberAt(q: seq<Part>, i: nat): nat {
    if At(q, i).U32? || At(q, i).U64? then At(q, i).n else 0
  }

  function StampAt(q: seq<Part>, i: nat): Stamp {
    if At(q, i).Time? then Stamp(At(q, i).seconds, At(q, i).nanos) else Stamp(0, 0)
  }

  function OptionAt(q: seq<Part>, i: nat): Option<seq<Part>> {
    if At(q, i).Present? then Some(At(q, i).parts) else None
  }

  function BuildOptionalStamp(q: Option<seq<Part>>): Option<Stamp> {
    if q.None? then None else Some(StampAt(q.value, 0))
  }

  function BuildFence(q: seq<Part>): FenceToken {
    FenceToken(TextAt(q, 0), TextAt(q, 1), NumberAt(q, 2))
  }

  function BuildLease(q: seq<Part>): LeaseOf<Stamp> {
    Lease(BuildFence(q), StampAt(q, 3), StampAt(q, 4))
  }

  function BuildResume(q: seq<Part>): ResumeOf<Stamp> {
    Resume(TextAt(q, 0), BuildOptionalStamp(OptionAt(q, 1)), BuildOptionalStamp(OptionAt(q, 2)),
           TextAt(q, 3), TextAt(q, 4), TextAt(q, 5))
  }

  function BuildCheckpoint(q: seq<Part>): CheckpointOf<Stamp> {
    Checkpoint(NumberAt(q, 0), TextAt(q, 1), TextAt(q, 2), StampAt(q, 3))
  }

  function Map<A, B>(x: Option<A>, f: A -> B): Option<B> {
    if x.None? then None else Some(f(x.value))
  }

  function BuildContext(q: seq<Part>): Action {
    AcceptanceContext(TextAt(q, 0), NumberAt(q, 1), TextAt(q, 2), TextAt(q, 3), TextAt(q, 4), TextAt(q, 5), TextAt(q, 6))
  }

  function BuildRequest(q: seq<Part>): Action {
    AcceptanceRequest(TextAt(q, 0), TextAt(q, 1), TextAt(q, 2), TextAt(q, 3), TextAt(q, 4), TextAt(q, 5),
      NumberAt(q, 6), TextAt(q, 7), TextAt(q, 8))
  }

  function BuildAttempt(q: seq<Part>): Action {
    AcceptanceAttempt(TextAt(q, 0), TextAt(q, 1), TextAt(q, 2), TextAt(q, 3), TextAt(q, 4), TextAt(q, 5),
      TextAt(q, 6), TextAt(q, 7), StampAt(q, 8), StampAt(q, 9))
  }

  function BuildMutation(q: seq<Part>): Action {
    MutationRequest(TextAt(q, 0), TextAt(q, 1), NumberAt(q, 2), StampAt(q, 3), TextAt(q, 4), TextAt(q, 5),
      Map(OptionAt(q, 6), BuildFence), Map(OptionAt(q, 7), BuildLease),
      Map(OptionAt(q, 8), BuildResume), Map(OptionAt(q, 9), BuildCheckpoint),
      TextAt(q, 10), TextAt(q, 11), TextAt(q, 12), TextAt(q, 13))
  }

  /** The parts of a body of the given shapes, read to the last byte. */
  function ReadBody(shapes: seq<Shape>, s: bytes): Option<seq<Part>> {
    match TakeAll(shapes, s)
    case None => None
    case Some((parts, rest)) => if rest == [] then Some(parts) else None
  }

  /** One decoder for the four kinds: the tag decides what to expect. */
  function Read(s: bytes): Option<Action> {
    match TakeText(s)
    case None => None
    case Some((tag, rest)) =>
      if tag == Str(Ascii("asb.task-action-accept-context/v1")) then Map(ReadBody(CONTEXT_SHAPE, rest), BuildContext)
      else if tag == Str(Ascii("asb.action-accept-request/v1")) then Map(ReadBody(REQUEST_SHAPE, rest), BuildRequest)
      else if tag == Str(Ascii("asb.task-action-accept-attempt/v1")) then Map(ReadBody(ATTEMPT_SHAPE, rest), BuildAttempt)
      else if tag == Str(Ascii("asb.action-mutation-request/v1")) then Map(ReadBody(MUTATION_SHAPE, rest), BuildMutation)
      else None
  }

  // ----- Unique decodability -----

  function ShapeOf(a: Action): seq<Shape> {
    match a
    case AcceptanceContext(_, _, _, _, _, _, _) => CONTEXT_SHAPE
    case AcceptanceRequest(_, _, _, _, _, _, _, _, _) => REQUEST_SHAPE
    case AcceptanceAttempt(_, _, _, _, _, _, _, _, _, _) => ATTEMPT_SHAPE
    case MutationRequest(_, _, _, _, _, _, _, _, _, _, _, _, _, _) => MUTATION_SHAPE
  }

  function Build(a: Action, q: seq<Part>): Action {
    match a
    case AcceptanceContext(_, _, _, _, _, _, _) => BuildContext(q)
    case AcceptanceRequest(_, _, _, _, _, _, _, _, _) => BuildRequest(q)
    case AcceptanceAttempt(_, _, _, _, _, _, _, _, _, _) => BuildAttempt(q)
    case MutationRequest(_, _, _, _, _, _, _, _, _, _, _, _, _, _) => BuildMutation(q)
  }

  /** Parts that are not optional have the shape of their constructor. */
  lemma PlainHas()
    ensures forall b :: Has(Str(b), StrShape)
    ensures forall n :: Has(U32(n), U32Shape)
    ensures forall n :: Has(U64(n), U64Shape)
    ensures forall t, n :: Has(Time(t, n), TimeShape)
  {
  }

  lemma OptionHas(q: Option<seq<Part>>, shapes: seq<Shape>)
    requires q.Some? ==> AllHave(q.value, shapes)
    ensures Has(if q.None? then Absent else Present(q.value), Optional(shapes))
  {
  }

  lemma FenceHas(f: FenceToken)
    ensures AllHave(FenceParts(f), FENCE_SHAPE)
  {
    PlainHas();
    hide Has;
  }

  lemma LeaseHas(l: LeaseOf<Stamp>)
    ensures AllHave(LeaseParts(l), LEASE_SHAPE)
  {
    PlainHas();
    hide Has;
  }

  lemma StampHas(t: Option<Stamp>)
    ensures Has(OptionalStamp(t), Optional([TimeShape]))
  {
    if t.Some? {
      PlainHas();
      OptionHas(Some([StampPart(t.value)]), [TimeShape]);
    }
  }

  lemma ResumeHas(r: ResumeOf<Stamp>)
    ensures AllHave(ResumeParts(r), RESUME_SHAPE)
  {
    PlainHas();
    StampHas(r.notBefore);
    StampHas(r.probeAfter);
    hide Has, OptionalStamp;
  }

  lemma CheckpointHas(c: CheckpointOf<Stamp>)
    ensures AllHave(CheckpointParts(c), CHECKPOINT_SHAPE)
  {
    PlainHas();
    hide Has;
  }

  lemma NestedRebuilt(f: FenceToken, l: LeaseOf<Stamp>, r: ResumeOf<Stamp>, c: CheckpointOf<Stamp>)
    ensures BuildFence(FenceParts(f)) == f && BuildLease(LeaseParts(l)) == l
    ensures BuildResume(ResumeParts(r)) == r && BuildCheckpoint(CheckpointParts(c)) == c
  {
  }

  lemma MutationHas(a: Action)
    requires a.MutationRequest?
    ensures
      var o := [if a.fence.None? then Absent else Present(FenceParts(a.fence.value)),
                if a.lease.None? then Absent else Present(LeaseParts(a.lease.value)),
                if a.resume.None? then Absent else Present(ResumeParts(a.resume.value)),
                if a.checkpoint.None? then Absent else Present(CheckpointParts(a.checkpoint.value))];
      && Has(o[0], Optional(FENCE_SHAPE)) && Has(o[1], Optional(LEASE_SHAPE))
      && Has(o[2], Optional(RESUME_SHAPE)) && Has(o[3], Optional(CHECKPOINT_SHAPE))
  {
    hide Has, AllHave, FenceParts, LeaseParts, ResumeParts, CheckpointParts;
    if a.fence.Some? { FenceHas(a.fence.value); }
    if a.lease.Some? { LeaseHas(a.lease.value); }
    if a.resume.Some? { ResumeHas(a.resume.value); }
    if a.checkpoint.Some? { CheckpointHas(a.checkpoint.value); }
    OptionHas(Map(a.fence, FenceParts), FENCE_SHAPE);
    OptionHas(Map(a.lease, LeaseParts), LEASE_SHAPE);
    OptionHas(Map(a.resume, ResumeParts), RESUME_SHAPE);
    OptionHas(Map(a.checkpoint, CheckpointParts), CHECKPOINT_SHAPE);
  }

  lemma BodyHas(a: Action)
    ensures AllHave(Body(a), ShapeOf(a))
  {
    hide Has, FenceParts, LeaseParts, ResumeParts, CheckpointParts;
    PlainHas();
    if a.MutationRequest? {
      MutationHas(a);
    }
  }

  lemma BodyRebuilt(a: Action)
    ensures Build(a, Body(a)) == a
  {
    hide FenceParts, LeaseParts, ResumeParts, CheckpointParts, BuildFence, BuildLease, BuildResume, BuildCheckpoint;
    if a.MutationRequest? {
      NestedRebuilt(
        if a.fence.Some? then a.fence.value else FenceToken([], [], 0),
        if a.lease.Some? then a.lease.value else Lease(FenceToken([], [], 0), a.at, a.at),
        if a.resume.Some? then a.resume.value else Resume([], None, None, [], [], []),
        if a.checkpoint.Some? then a.checkpoint.value else Checkpoint(0, [], [], a.at));
    }
  }

  /** The decoder inverts all four kinds, nested optional parts included. */
  lemma WriteReads(a: Action)
    ensures Write(a).Some? ==> Read(Write(a).value) == Some(a)
  {
    hide Ascii, TakeText, TakeAll, Body, Encode, Packs, AllHave, BuildContext, BuildRequest, BuildAttempt, BuildMutation;
    if Write(a).Some? {
      var q := Body(a);
      TagsDiffer();
      BodyHas(a);
      BodyRebuilt(a);
      PacksTail(Str(Tag(a)), q);
      TakesText(Tag(a), EncodeAll(q));
      TakesAll(q, ShapeOf(a), []);
      assert EncodeAll(q) + [] == EncodeAll(q);
    }
  }

  lemma PacksTail(p: Part, q: seq<Part>)
    requires AllPack([p] + q)
    ensures AllPack(q) && Packs(p) && (p.Str? ==> |p.text| < Capacity(2)) && EncodeAll([p] + q) == Encode(p) + EncodeAll(q)
  {
    assert forall i :: 0 <= i < |q| ==> q[i] == ([p] + q)[i + 1];
    assert p == ([p] + q)[0];
    assert ([p] + q)[1..] == q;
  }

  /** So no two different actions share a transcript, of one kind or of two. */
  lemma TranscriptsDiffer(a: Action, b: Action)
    ensures Write(a).Some? && Write(a) == Write(b) ==> a == b
  {
    hide Write, Read;
    WriteReads(a);
    WriteReads(b);
  }

  /** A transcript exists exactly when every field packs. */
  lemma WritesWhatPacks(a: Action)
    ensures Write(a).Some? <==> AllPack(Body(a))
  {
    CapacityOf2();
    hide Ascii, Body;
    var q := [Str(Tag(a))] + Body(a);
    assert forall i :: 0 <= i < |Body(a)| ==> Body(a)[i] == q[i + 1];
    assert |Tag(a)| < 40;
    assert Packs(Str(Tag(a)));
    assert q[0] == Str(Tag(a));
  }

  // ----- Every byte string the decoder accepts is a transcript -----

  lemma PlainOnly()
    ensures forall p :: Has(p, StrShape) ==> p.Str?
    ensures forall p :: Has(p, U32Shape) ==> p.U32?
    ensures forall p :: Has(p, U64Shape) ==> p.U64?
    ensures forall p :: Has(p, TimeShape) ==> p.Time?
  {
  }

  lemma OptionOnly(p: Part, shapes: seq<Shape>)
    requires Has(p, Optional(shapes))
    ensures p.Absent? || (p.Present? && AllHave(p.parts, shapes))
  {
  }

  lemma FenceBack(q: seq<Part>)
    requires AllHave(q, FENCE_SHAPE)
    ensures FenceParts(BuildFence(q)) == q
  {
    PlainOnly();
    hide Has;
    assert Has(q[0], FENCE_SHAPE[0]) && Has(q[1], FENCE_SHAPE[1]) && Has(q[2], FENCE_SHAPE[2]);
  }

  lemma LeaseBack(q: seq<Part>)
    requires AllHave(q, LEASE_SHAPE)
    ensures LeaseParts(BuildLease(q)) == q
  {
    PlainOnly();
    hide Has;
    assert Has(q[0], LEASE_SHAPE[0]) && Has(q[1], LEASE_SHAPE[1]) && Has(q[2], LEASE_SHAPE[2]);
    assert Has(q[3], LEASE_SHAPE[3]) && Has(q[4], LEASE_SHAPE[4]);
  }

  lemma StampBack(p: Part)
    requires Has(p, Optional([TimeShape]))
    ensures OptionalStamp(BuildOptionalStamp(OptionAt([p], 0))) == p
  {
    OptionOnly(p, [TimeShape]);
    PlainOnly();
    hide Has;
    if p.Present? {
      assert Has(p.parts[0], [TimeShape][0]);
      assert p.parts == [p.parts[0]];
    }
  }

  lemma ResumeBack(q: seq<Part>)
    requires AllHave(q, RESUME_SHAPE)
    ensures ResumeParts(BuildResume(q)) == q
  {
    PlainOnly();
    hide Has, OptionalStamp, BuildOptionalStamp;
    assert Has(q[0], RESUME_SHAPE[0]) && Has(q[1], RESUME_SHAPE[1]) && Has(q[2], RESUME_SHAPE[2]);
    assert Has(q[3], RESUME_SHAPE[3]) && Has(q[4], RESUME_SHAPE[4]) && Has(q[5], RESUME_SHAPE[5]);
    StampBack(q[1]);
    StampBack(q[2]);
  }

  lemma CheckpointBack(q: seq<Part>)
    requires AllHave(q, CHECKPOINT_SHAPE)
    ensures CheckpointParts(BuildCheckpoint(q)) == q
  {
    PlainOnly();
    hide Has;
    assert Has(q[0], CHECKPOINT_SHAPE[0]) && Has(q[1], CHECKPOINT_SHAPE[1]);
    assert Has(q[2], CHECKPOINT_SHAPE[2]) && Has(q[3], CHECKPOINT_SHAPE[3]);
  }

  lemma ContextBack(q: seq<Part>)
    requires AllHave(q, CONTEXT_SHAPE)
    ensures Body(BuildContext(q)) == q
  {
    PlainOnly();
    hide Has;
    assert Has(q[0], CONTEXT_SHAPE[0]) && Has(q[1], CONTEXT_SHAPE[1]) && Has(q[2], CONTEXT_SHAPE[2]);
    assert Has(q[3], CONTEXT_SHAPE[3]) && Has(q[4], CONTEXT_SHAPE[4]) && Has(q[5], CONTEXT_SHAPE[5]);
    assert Has(q[6], CONTEXT_SHAPE[6]);
  }

  lemma RequestBack(q: seq<Part>)
    requires AllHave(q, REQUEST_SHAPE)
    ensures Body(BuildRequest(q)) == q
  {
    PlainOnly();
    hide Has;
    assert Has(q[0], REQUEST_SHAPE[0]) && Has(q[1], REQUEST_SHAPE[1]) && Has(q[2], REQUEST_SHAPE[2]);
    assert Has(q[3], REQUEST_SHAPE[3]) && Has(q[4], REQUEST_SHAPE[4]) && Has(q[5], REQUEST_SHAPE[5]);
    assert Has(q[6], REQUEST_SHAPE[6]) && Has(q[7], REQUEST_SHAPE[7]) && Has(q[8], REQUEST_SHAPE[8]);
  }

  lemma AttemptBack(q: seq<Part>)
    requires AllHave(q, ATTEMPT_SHAPE)
    ensures Body(BuildAttempt(q)) == q
  {
    PlainOnly();
    hide Has;
    assert Has(q[0], ATTEMPT_SHAPE[0]) && Has(q[1], ATTEMPT_SHAPE[1]) && Has(q[2], ATTEMPT_SHAPE[2]);
    assert Has(q[3], ATTEMPT_SHAPE[3]) && Has(q[4], ATTEMPT_SHAPE[4]) && Has(q[5], ATTEMPT_SHAPE[5]);
    assert Has(q[6], ATTEMPT_SHAPE[6]) && Has(q[7], ATTEMPT_SHAPE[7]);
    assert Has(q[8], ATTEMPT_SHAPE[8]) && Has(q[9], ATTEMPT_SHAPE[9]);
  }

  /** An optional part is what rebuilding its value and laying it out again gives. */
  lemma OptionsBack(q: seq<Part>)
    requires AllHave(q, MUTATION_SHAPE)
    ensures
      var a := BuildMutation(q);
      && q[6] == (if a.fence.None? then Absent else Present(FenceParts(a.fence.value)))
      && q[7] == (if a.lease.None? then Absent else Present(LeaseParts(a.lease.value)))
      && q[8] == (if a.resume.None? then Absent else Present(ResumeParts(a.resume.value)))
      && q[9] == (if a.checkpoint.None? then Absent else Present(CheckpointParts(a.checkpoint.value)))
  {
    assert Has(q[6], MUTATION_SHAPE[6]) && Has(q[7], MUTATION_SHAPE[7]);
    assert Has(q[8], MUTATION_SHAPE[8]) && Has(q[9], MUTATION_SHAPE[9]);
    hide Has, AllHave, BuildFence, BuildLease, BuildResume, BuildCheckpoint, FenceParts, LeaseParts, ResumeParts, CheckpointParts;
    OptionOnly(q[6], FENCE_SHAPE);
    OptionOnly(q[7], LEASE_SHAPE);
    OptionOnly(q[8], RESUME_SHAPE);
    OptionOnly(q[9], CHECKPOINT_SHAPE);
    if q[6].Present? { FenceBack(q[6].parts); }
    if q[7].Present? { LeaseBack(q[7].parts); }
    if q[8].Present? { ResumeBack(q[8].parts); }
    if q[9].Present? { CheckpointBack(q[9].parts); }
  }

  lemma MutationBack(q: seq<Part>)
    requires AllHave(q, MUTATION_SHAPE)
    ensures Body(BuildMutation(q)) == q
  {
    PlainOnly();
    OptionsBack(q);
    hide Has, BuildFence, BuildLease, BuildResume, BuildCheckpoint, FenceParts, LeaseParts, ResumeParts, CheckpointParts;
    assert Has(q[0], MUTATION_SHAPE[0]) && Has(q[1], MUTATION_SHAPE[1]) && Has(q[2], MUTATION_SHAPE[2]);
    assert Has(q[3], MUTATION_SHAPE[3]) && Has(q[4], MUTATION_SHAPE[4]) && Has(q[5], MUTATION_SHAPE[5]);
    assert Has(q[10], MUTATION_SHAPE[10]) && Has(q[11], MUTATION_SHAPE[11]);
    assert Has(q[12], MUTATION_SHAPE[12]) && Has(q[13], MUTATION_SHAPE[13]);
  }

  lemma BodyBack(a: Action, q: seq<Part>)
    requires AllHave(q, ShapeOf(a))
    ensures Body(Build(a, q)) == q && Tag(Build(a, q)) == Tag(a)
  {
    hide Body, AllHave, Ascii;
    match a
    case AcceptanceContext(_, _, _, _, _, _, _) => ContextBack(q);
    case AcceptanceRequest(_, _, _, _, _, _, _, _, _) => RequestBack(q);
    case AcceptanceAttempt(_, _, _, _, _, _, _, _, _, _) => AttemptBack(q);
    case MutationRequest(_, _, _, _, _, _, _, _, _, _, _, _, _, _) => MutationBack(q);
  }

  /** Writing what was read gives back the bytes: decoder and encoder are inverse. */
  lemma ReadWrites(s: bytes)
    ensures Read(s).Some? ==> Write(Read(s).value) == Some(s)
  {
    hide Ascii, TakeText, TakeAll, Body, Encode, Packs, AllHave, TextAt, NumberAt, StampAt, OptionAt, TakeNumber, EncodeAll;
    if Read(s).Some? {
      TakenText(s);
      var (tag, rest) := TakeText(s).value;
      var a := Read(s).value;
      var q := TakeAll(ShapeOf(a), rest).value.0;
      TakenAll(ShapeOf(a), rest);
      BodyBack(a, q);
      PackFront(tag, q);
      assert rest == EncodeAll(q) + [] == EncodeAll(q);
    }
  }

  lemma PackFront(p: Part, q: seq<Part>)
    requires Packs(p) && AllPack(q)
    ensures AllPack([p] + q) && EncodeAll([p] + q) == Encode(p) + EncodeAll(q)
  {
    assert ([p] + q)[1..] == q;
  }
}
