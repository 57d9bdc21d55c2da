/** Actions as the golden vectors give them, with timestamp texts: which of them share a
    transcript. */
module ActionText {
  import opened Bytes
  import opened Transcript
  import opened Timestamp

  function MapOption<T, U>(f: T -> U, o: Option<T>): Option<U> {
    if o.None? then None else Some(f(o.value))
  }

  function MapLease<T, U>(f: T -> U, l: LeaseOf<T>): LeaseOf<U> {
    Lease(l.fence, f(l.issuedAt), f(l.expiresAt))
  }

  function MapResume<T, U>(f: T -> U, r: ResumeOf<T>): ResumeOf<U> {
    Resume(r.kind, MapOption(f, r.notBefore), MapOption(f, r.probeAfter), r.target, r.dependency, r.signal)
  }

  function MapCheckpoint<T, U>(f: T -> U, c: CheckpointOf<T>): CheckpointOf<U> {
    Checkpoint(c.sequence, c.payloadDigest, c.storageRef, f(c.createdAt))
  }

  /** The action with `f` applied to each point in time. */
  function MapAction<T, U>(f: T -> U, a: ActionOf<T>): ActionOf<U> {
    match a
    case AcceptanceContext(a1, a2, a3, a4, a5, a6, a7) => AcceptanceContext(a1, a2, a3, a4, a5, a6, a7)
    case AcceptanceRequest(a1, a2, a3, a4, a5, a6, a7, a8, a9) => AcceptanceRequest(a1, a2, a3, a4, a5, a6, a7, a8, a9)
    case AcceptanceAttempt(a1, a2, a3, a4, a5, a6, a7, a8, issued, expires) =>
      AcceptanceAttempt(a1, a2, a3, a4, a5, a6, a7, a8, f(issued), f(expires))
    case MutationRequest(a1, a2, a3, at, a5, a6, fence, lease, resume, checkpoint, a11, a12, a13, a14) =>
      MutationRequest(a1, a2, a3, f(at), a5, a6, fence,
                      if lease.None? then None else Some(MapLease(f, lease.value)),
                      if resume.None? then None else Some(MapResume(f, resume.value)),
                      if checkpoint.None? then None else Some(MapCheckpoint(f, checkpoint.value)),
                      a11, a12, a13, a14)
  }

  /** `f` and `g` tell the same texts apart. */
  ghost predicate Alike<T(!new), U(!new), V(!new)>(f: T -> U, g: T -> V) {
    forall x, y :: f(x) == f(y) <==> g(x) == g(y)
  }

  lemma MapTells<T(!new), U(!new), V(!new)>(f: T -> U, g: T -> V, a: ActionOf<T>, b: ActionOf<T>)
    requires Alike(f, g)
    ensures MapAction(f, a) == MapAction(f, b) <==> MapAction(g, a) == MapAction(g, b)
  {
    if a.MutationRequest? && b.MutationRequest? {
      MapLeaseTells(f, g, a.lease, b.lease);
      MapResumeTells(f, g, a.resume, b.resume);
      MapCheckpointTells(f, g, a.checkpoint, b.checkpoint);
      hide MapLease, MapResume, MapCheckpoint;
    }
  }

  lemma MapLeaseTells<T(!new), U(!new), V(!new)>(f: T -> U, g: T -> V, a: Option<LeaseOf<T>>, b: Option<LeaseOf<T>>)
    requires Alike(f, g)
    ensures a.Some? && b.Some? ==>
      (MapLease(f, a.value) == MapLease(f, b.value) <==> MapLease(g, a.value) == MapLease(g, b.value))
  {
  }

  lemma MapResumeTells<T(!new), U(!new), V(!new)>(f: T -> U, g: T -> V, a: Option<ResumeOf<T>>, b: Option<ResumeOf<T>>)
    requires Alike(f, g)
    ensures a.Some? && b.Some? ==>
      (MapResume(f, a.value) == MapResume(f, b.value) <==> MapResume(g, a.value) == MapResume(g, b.value))
  {
  }

  lemma MapCheckpointTells<T(!new), U(!new), V(!new)>(f: T -> U, g: T -> V, a: Option<CheckpointOf<T>>, b: Option<CheckpointOf<T>>)
    requires Alike(f, g)
    ensures a.Some? && b.Some? ==>
      (MapCheckpoint(f, a.value) == MapCheckpoint(f, b.value) <==> MapCheckpoint(g, a.value) == MapCheckpoint(g, b.value))
  {
  }

  // ----- Transcripts of actions with texts -----

  /** All texts of an action have a stamp. */
  predicate AllStamped(a: ActionOf<Option<Stamp>>) {
    match a
    case AcceptanceAttempt(_, _, _, _, _, _, _, _, issued, expires) => issued.Some? && expires.Some?
    case MutationRequest(_, _, _, at, _, _, _, lease, resume, checkpoint, _, _, _, _) =>
      && at.Some?
      && (lease.Some? ==> lease.value.issuedAt.Some? && lease.value.expiresAt.Some?)
      && (resume.Some? ==> resume.value.notBefore != Some(None) && resume.value.probeAfter != Some(None))
      && (checkpoint.Some? ==> checkpoint.value.createdAt.Some?)
    case _ => true
  }

  function Given(s: Option<Stamp>): Stamp {
    if s.Some? then s.value else Stamp(0, 0)
  }

  /** transcript: an error if a text has no stamp or a field does not pack. */
  function WriteText(d: map<char, nat>, a: ActionOf<string>): Option<bytes> {
    var stamps := MapAction(t => StampOf(d, t), a);
    if AllStamped(stamps) then Write(MapAction(Given, stamps)) else None
  }

  lemma GivenTells(a: ActionOf<Option<Stamp>>, b: ActionOf<Option<Stamp>>)
    requires AllStamped(a) && AllStamped(b)
    ensures MapAction(Given, a) == MapAction(Given, b) <==> a == b
  {
    if a.MutationRequest? && b.MutationRequest? {
      GivenTellsLease(a, b);
      GivenTellsResume(a, b);
      GivenTellsCheckpoint(a, b);
      hide MapLease, MapResume, MapCheckpoint;
    }
  }

  lemma GivenTellsLease(a: ActionOf<Option<Stamp>>, b: ActionOf<Option<Stamp>>)
    requires AllStamped(a) && AllStamped(b) && a.MutationRequest? && b.MutationRequest?
    ensures a.lease.Some? && b.lease.Some? ==>
      (MapLease(Given, a.lease.value) == MapLease(Given, b.lease.value) <==> a.lease == b.lease)
  {
  }

  lemma GivenTellsResume(a: ActionOf<Option<Stamp>>, b: ActionOf<Option<Stamp>>)
    requires AllStamped(a) && AllStamped(b) && a.MutationRequest? && b.MutationRequest?
    ensures a.resume.Some? && b.resume.Some? ==>
      (MapResume(Given, a.resume.value) == MapResume(Given, b.resume.value) <==> a.resume == b.resume)
  {
  }

  lemma GivenTellsCheckpoint(a: ActionOf<Option<Stamp>>, b: ActionOf<Option<Stamp>>)
    requires AllStamped(a) && AllStamped(b) && a.MutationRequest? && b.MutationRequest?
    ensures a.checkpoint.Some? && b.checkpoint.Some? ==>
      (MapCheckpoint(Given, a.checkpoint.value) == MapCheckpoint(Given, b.checkpoint.value) <==> a.checkpoint == b.checkpoint)
  {
  }

  /** Two actions given with timestamp texts share a transcript exactly when they are the
      same once every text is replaced by the instant it denotes. */
  lemma TextTranscriptsMeet(d: map<char, nat>, a: ActionOf<string>, b: ActionOf<string>)
    ensures WriteText(d, a).Some? && WriteText(d, b).Some? ==>
      (WriteText(d, a) == WriteText(d, b) <==> MapAction(t => Denoted(d, t), a) == MapAction(t => Denoted(d, t), b))
  {
    hide Write, MapAction, AllStamped, StampOf, Denoted;
    if WriteText(d, a).Some? && WriteText(d, b).Some? {
      var f, g := t => StampOf(d, t), t => Denoted(d, t);
      var x, y := MapAction(f, a), MapAction(f, b);
      GivenTells(x, y);
      TranscriptsDiffer(MapAction(Given, x), MapAction(Given, y));
      forall t, u
        ensures f(t) == f(u) <==> g(t) == g(u)
      {
        TextsShareStamp(d, t, u);
      }
      MapTells(f, g, a, b);
    }
  }

  // ----- When there is a transcript -----

  const EPOCH: Stamp := Stamp(0, 0)

  /** Texts and numbers fit their widths, whatever the points in time. */
  predicate FieldsPack<T>(a: ActionOf<T>) {
    AllPack(Body(MapAction(Flat(), a)))
  }

  predicate StampPacks(s: Stamp) {
    Packs(StampPart(s))
  }

  predicate StampsPack(a: Action) {
    match a
    case AcceptanceAttempt(_, _, _, _, _, _, _, _, issued, expires) => StampPacks(issued) && StampPacks(expires)
    case MutationRequest(_, _, _, at, _, _, _, lease, resume, checkpoint, _, _, _, _) =>
      && StampPacks(at)
      && (lease.Some? ==> StampPacks(lease.value.issuedAt) && StampPacks(lease.value.expiresAt))
      && (resume.Some? ==>
           && (resume.value.notBefore.Some? ==> StampPacks(resume.value.notBefore.value))
           && (resume.value.probeAfter.Some? ==> StampPacks(resume.value.probeAfter.value)))
      && (checkpoint.Some? ==> StampPacks(checkpoint.value.createdAt))
    case _ => true
  }

  lemma EpochPacks()
    ensures StampPacks(EPOCH)
  {
    CapacityOf4();
  }

  lemma SamePack(p: seq<Part>, q: seq<Part>)
    requires |p| == |q| && forall i :: 0 <= i < |p| ==> (Packs(p[i]) <==> Packs(q[i]))
    ensures AllPack(p) <==> AllPack(q)
    ensures Packs(Present(p)) <==> Packs(Present(q))
  {
  }

  function Flat<T>(): T -> Stamp {
    (_: T) => EPOCH
  }

  lemma LeasePacks(l: LeaseOf<Stamp>)
    requires StampPacks(l.issuedAt) && StampPacks(l.expiresAt)
    ensures Packs(Present(LeaseParts(l))) <==> Packs(Present(LeaseParts(MapLease(Flat(), l))))
  {
    hide Packs;
    EpochPacks();
    SamePack(LeaseParts(l), LeaseParts(MapLease(Flat(), l)));
  }

  lemma ResumePacks(r: ResumeOf<Stamp>)
    requires r.notBefore.Some? ==> StampPacks(r.notBefore.value)
    requires r.probeAfter.Some? ==> StampPacks(r.probeAfter.value)
    ensures Packs(Present(ResumeParts(r))) <==> Packs(Present(ResumeParts(MapResume(Flat(), r))))
  {
    hide Packs;
    OptionalPacks(r.notBefore);
    OptionalPacks(r.probeAfter);
    hide OptionalStamp;
    SamePack(ResumeParts(r), ResumeParts(MapResume(Flat(), r)));
  }

  lemma OptionalPacks(t: Option<Stamp>)
    requires t.Some? ==> StampPacks(t.value)
    ensures Packs(OptionalStamp(t)) && Packs(OptionalStamp(MapOption(Flat(), t)))
  {
    EpochPacks();
  }

  lemma CheckpointPacks(c: CheckpointOf<Stamp>)
    requires StampPacks(c.createdAt)
    ensures Packs(Present(CheckpointParts(c))) <==> Packs(Present(CheckpointParts(MapCheckpoint(Flat(), c))))
  {
    hide Packs;
    EpochPacks();
    SamePack(CheckpointParts(c), CheckpointParts(MapCheckpoint(Flat(), c)));
  }

  /** With stamps that pack, only the other fields decide. */
  lemma BodyPacks(a: Action)
    requires StampsPack(a)
    ensures AllPack(Body(a)) <==> FieldsPack(a)
  {
    hide Packs, AllPack;
    EpochPacks();
    var b := MapAction(Flat(), a);
    if a.MutationRequest? {
      if a.lease.Some? {
        LeasePacks(a.lease.value);
      }
      if a.resume.Some? {
        ResumePacks(a.resume.value);
      }
      if a.checkpoint.Some? {
        CheckpointPacks(a.checkpoint.value);
      }
      hide MapLease, MapResume, MapCheckpoint, LeaseParts, ResumeParts, CheckpointParts, FenceParts;
      SamePack(Body(a), Body(b));
    } else {
      SamePack(Body(a), Body(b));
    }
  }

  lemma MapTwice<T, U, V>(f: T -> U, g: U -> V, k: T -> V, a: ActionOf<T>)
    requires forall x :: g(f(x)) == k(x)
    ensures MapAction(g, MapAction(f, a)) == MapAction(k, a)
  {
  }

  lemma TextStampsPack(d: map<char, nat>, a: ActionOf<string>)
    requires AllStamped(MapAction(t => StampOf(d, t), a))
    ensures StampsPack(MapAction(Given, MapAction(t => StampOf(d, t), a)))
  {
    hide StampOf, StampPacks;
    forall t
      ensures StampOf(d, t).Some? ==> StampPacks(StampOf(d, t).value)
    {
      TextPacks(d, t);
    }
  }

  lemma TextPacks(d: map<char, nat>, t: string)
    ensures StampOf(d, t).Some? ==> StampPacks(StampOf(d, t).value)
  {
    hide StampOf;
    TextStampPacks(d, t);
  }

  /** There is a transcript exactly when every text has a stamp and every other field fits
      its width: a stamp that exists always packs. */
  lemma WritesExactly(d: map<char, nat>, a: ActionOf<string>)
    ensures WriteText(d, a).Some? <==> AllStamped(MapAction(t => StampOf(d, t), a)) && FieldsPack(a)
  {
    hide Write, AllStamped, StampOf, AllPack, Body, MapAction;
    var f := t => StampOf(d, t);
    var stamps := MapAction(f, a);
    if AllStamped(stamps) {
      var b := MapAction(Given, stamps);
      TextStampsPack(d, a);
      WritesWhatPacks(b);
      BodyPacks(b);
      MapTwice(Given, Flat(), Flat(), stamps);
      MapTwice(f, Flat(), Flat(), a);
    }
  }
}
