/** The write-ahead proposal receipt of cmd/asb-human/main.go: any number of agent
    processes on one receipt path, each of which may crash at any step.

    Granularity. A step is one system call that another process can observe: a read
    of the file, its exclusive creation, a write of some bytes, a submission. */
module Receipt {
  import opened Bytes
  import opened Framing

  datatype Command = Command(commandID: bytes, operationID: bytes, revision: nat, enabled: bool)

  /** What was asked for on the command line. */
  datatype Options = Options(operationID: Option<bytes>, enabledSet: bool, enabled: bool)

  /** Validate; the receipt text of a command; and readReceipt: the command of a text that
      passes all its checks, among them the size limit, Validate and canonical bytes. */
  datatype Codec = Codec(valid: Command -> bool, encode: Command -> bytes, parse: bytes -> Option<Command>)

  const NEWLINE: bytes := [10]

  /** A receipt is one JSON object: whole, the text of a valid command reads as that
      command or is refused, with its final newline as without; cut short, it does not
      read at all. */
  ghost predicate Lawful(k: Codec) {
    forall c :: k.valid(c) ==>
      && (k.parse(k.encode(c)) == Some(c) || k.parse(k.encode(c)) == None)
      && k.parse(k.encode(c) + NEWLINE) == k.parse(k.encode(c))
      && (forall n :: 0 <= n < |k.encode(c)| ==> k.parse(k.encode(c)[..n]) == None)
  }

  function Text(k: Codec, c: Command): bytes {
    k.encode(c) + NEWLINE
  }

  /** Where a process stands in prepareProposal, saveReceipt and runAgent. */
  datatype Process =
    | Loading(opts: Options, again: bool)
    | Building(opts: Options)
    | Creating(opts: Options, command: Command)
    | Writing(opts: Options, command: Command, written: nat)
    | Syncing(opts: Options)
    | Submitting(opts: Options, command: Command)
    | Submitted
    | GaveUp
    | Crashed

  /** `author` is the process that created the file and the command it was for, `asked` what
      each process was started with, `sent` who submitted what. */
  datatype World = World(
    file: Option<bytes>, procs: map<nat, Process>, author: Option<(nat, Command)>,
    asked: map<nat, Options>, sent: seq<(nat, Command)>)

  datatype Label =
    | Spawn(id: nat, opts: Options)
    | Load(id: nat)
    | Build(id: nat, ok: bool, commandID: bytes, freshID: bytes, revision: nat)
    | Create(id: nat, ok: bool)
    | Write(id: nat, count: nat, ok: bool)
    | Sync(id: nat, ok: bool)
    | Submit(id: nat)
    | Crash(id: nat)

  // ----- Steps -----

  function Set(w: World, id: nat, p: Process): World {
    w.(procs := w.procs[id := p])
  }

  predicate Matches(opts: Options, c: Command) {
    && (opts.operationID.Some? ==> opts.operationID.value == c.operationID)
    && (opts.enabledSet ==> opts.enabled == c.enabled)
  }

  /** load: a readable receipt that fits the request is submitted as it is; a missing
      one is built, but only the first time. */
  function AfterLoad(k: Codec, file: Option<bytes>, opts: Options, again: bool): Process {
    match file
    case None => if again then GaveUp else Building(opts)
    case Some(b) =>
      match k.parse(b)
      case None => GaveUp
      case Some(c) => if Matches(opts, c) then Submitting(opts, c) else GaveUp
  }

  /** The new proposal. A generated operation ID stays in the options, so that the
      second load demands it too. */
  function AfterBuild(k: Codec, opts: Options, ok: bool, commandID: bytes, freshID: bytes, revision: nat): Process {
    if !ok then GaveUp else
    var id := if opts.operationID.Some? then opts.operationID.value else freshID;
    var command := Command(commandID, id, revision, opts.enabled);
    if k.valid(command) then Creating(opts.(operationID := Some(id)), command) else GaveUp
  }

  function StepWrite(k: Codec, w: World, id: nat, count: nat, ok: bool): World
    requires id in w.procs && w.procs[id].Writing?
  {
    var p := w.procs[id];
    var text := Text(k, p.command);
    var end := p.written + count;
    if end > |text| then w else
    Set(w.(file := Some(text[..end])), id,
        if !ok then GaveUp else if end == |text| then Syncing(p.opts) else p.(written := end))
  }

  function Step(k: Codec, w: World, l: Label): World {
    if l.Spawn? then
      if l.id in w.procs then w else Set(w.(asked := w.asked[l.id := l.opts]), l.id, Loading(l.opts, false))
    else if l.id !in w.procs then w
    else
      var p := w.procs[l.id];
      match l
      case Load(id) => if p.Loading? then Set(w, id, AfterLoad(k, w.file, p.opts, p.again)) else w
      case Build(id, ok, commandID, freshID, revision) =>
        if p.Building? then Set(w, id, AfterBuild(k, p.opts, ok, commandID, freshID, revision)) else w
      case Create(id, ok) =>
        if !p.Creating? then w
        else if !ok then Set(w, id, GaveUp)
        else if w.file.Some? then Set(w, id, Loading(p.opts, true))
        else Set(w.(file := Some([]), author := Some((id, p.command))), id, Writing(p.opts, p.command, 0))
      case Write(id, count, ok) => if p.Writing? then StepWrite(k, w, id, count, ok) else w
      case Sync(id, ok) =>
        if p.Syncing? then Set(w, id, if ok then Loading(p.opts, true) else GaveUp) else w
      case Submit(id) =>
        if p.Submitting? then Set(w.(sent := w.sent + [(id, p.command)]), id, Submitted) else w
      case Crash(id) => Set(w, id, Crashed)
  }

  function Initial(file: Option<bytes>): World {
    World(file, map[], None, map[], [])
  }

  function Exec(k: Codec, w: World, ls: seq<Label>): World
    decreases |ls|
  {
    if ls == [] then w else Exec(k, Step(k, w, ls[0]), ls[1..])
  }

  // ----- The invariant -----

  ghost predicate Reads(k: Codec, file: Option<bytes>, c: Command) {
    file.Some? && k.parse(file.value) == Some(c)
  }

  /** The file is the first bytes of its author's receipt. */
  ghost predicate Authored(k: Codec, w: World) {
    w.author.Some? ==> w.file.Some? && k.valid(w.author.value.1) && w.file.value <= Text(k, w.author.value.1)
  }

  /** Only valid commands are saved. */
  ghost predicate Validated(k: Codec, w: World) {
    forall id :: id in w.procs && w.procs[id].Creating? ==> k.valid(w.procs[id].command)
  }

  /** Only the author writes, and it continues where the file ends. */
  ghost predicate WriterIsAuthor(w: World) {
    forall id :: id in w.procs && w.procs[id].Writing? ==>
      && w.author == Some((id, w.procs[id].command))
      && w.file.Some? && |w.file.value| == w.procs[id].written
  }

  /** Every submitted or about to be submitted command is the one the file holds. */
  ghost predicate Backed(k: Codec, w: World) {
    && (forall i :: 0 <= i < |w.sent| ==> Reads(k, w.file, w.sent[i].1))
    && (forall id :: id in w.procs && w.procs[id].Submitting? ==> Reads(k, w.file, w.procs[id].command))
  }

  ghost predicate Kept(k: Codec, w: World) {
    Authored(k, w) && Validated(k, w) && WriterIsAuthor(w)
  }

  ghost predicate Inv(k: Codec, w: World) {
    Kept(k, w) && Backed(k, w)
  }

  /** Who writes what does not depend on how receipts read. */
  lemma StepKept(k: Codec, w: World, l: Label)
    requires Kept(k, w)
    ensures Kept(k, Step(k, w, l))
  {
  }

  lemma CutIsUnreadable(k: Codec, c: Command, n: nat)
    requires Lawful(k) && k.valid(c) && n <= |Text(k, c)|
    ensures n < |k.encode(c)| ==> k.parse(Text(k, c)[..n]) == None
  {
    if n < |k.encode(c)| {
      assert Text(k, c)[..n] == k.encode(c)[..n];
    }
  }

  /** A text that reads is whole, and keeps its meaning when more of it is written. */
  lemma ReadableStays(k: Codec, c: Command, n: nat, m: nat, d: Command)
    requires Lawful(k) && k.valid(c) && n <= m <= |Text(k, c)| && k.parse(Text(k, c)[..n]) == Some(d)
    ensures d == c && k.parse(Text(k, c)[..m]) == Some(d)
  {
    var whole, text := k.encode(c), Text(k, c);
    CutIsUnreadable(k, c, n);
    assert text[..|whole|] == whole && text[..|text|] == text;
  }

  lemma WriteKeeps(k: Codec, w: World, id: nat, count: nat, ok: bool)
    requires Lawful(k) && Inv(k, w) && id in w.procs && w.procs[id].Writing?
    ensures Inv(k, StepWrite(k, w, id, count, ok))
  {
    var p := w.procs[id];
    var text, n, m := Text(k, p.command), p.written, p.written + count;
    if m <= |text| {
      assert w.file.value == text[..n];
      forall d | Reads(k, w.file, d)
        ensures Reads(k, Some(text[..m]), d)
      {
        ReadableStays(k, p.command, n, m, d);
      }
      hide Text, Lawful;
    }
  }

  lemma StepKeeps(k: Codec, w: World, l: Label)
    requires Lawful(k) && Inv(k, w)
    ensures Inv(k, Step(k, w, l))
  {
    hide Lawful;
    if l.Write? && l.id in w.procs && w.procs[l.id].Writing? {
      WriteKeeps(k, w, l.id, l.count, l.ok);
    } else {
      hide StepWrite;
    }
  }

  /** The file, once there, is only ever extended. */
  lemma FileGrows(k: Codec, w: World, l: Label)
    requires Kept(k, w) && w.file.Some?
    ensures Step(k, w, l).file.Some? && w.file.value <= Step(k, w, l).file.value
    ensures Step(k, w, l).author == w.author
    ensures w.author.None? ==> Step(k, w, l).file == w.file
  {
  }

  lemma {:induction false} ExecGrows(k: Codec, w: World, ls: seq<Label>)
    requires Kept(k, w)
    ensures Kept(k, Exec(k, w, ls))
    ensures w.file.Some? ==> Exec(k, w, ls).file.Some? && w.file.value <= Exec(k, w, ls).file.value
    ensures w.file.Some? ==> Exec(k, w, ls).author == w.author
    ensures w.file.Some? && w.author.None? ==> Exec(k, w, ls).file == w.file
    decreases |ls|
  {
    hide Kept, Step;
    if ls != [] {
      StepKept(k, w, ls[0]);
      if w.file.Some? {
        FileGrows(k, w, ls[0]);
      }
      ExecGrows(k, Step(k, w, ls[0]), ls[1..]);
    }
  }

  lemma {:induction false} ExecKeeps(k: Codec, w: World, ls: seq<Label>)
    requires Lawful(k) && Inv(k, w)
    ensures Inv(k, Exec(k, w, ls))
    decreases |ls|
  {
    hide Lawful, Inv, Step;
    if ls != [] {
      StepKeeps(k, w, ls[0]);
      ExecKeeps(k, Step(k, w, ls[0]), ls[1..]);
    }
  }

  // ----- Lawful codecs exist -----

  function SampleParts(c: Command): (ps: seq<bytes>)
    ensures |ps| == 4
  {
    [c.commandID, c.operationID, BigEndian(c.revision, 8), [if c.enabled then 1 else 0]]
  }

  predicate SampleValid(c: Command) {
    |c.commandID| < Capacity(8) && |c.operationID| < Capacity(8) && c.revision < Capacity(8)
  }

  /** Four length-framed parts, with or without a newline behind them. */
  function SampleParse(b: bytes): Option<Command> {
    match TakeParts(4, b)
    case None => None
    case Some((vs, rest)) =>
      if rest != [] && rest != NEWLINE then None
      else Some(Command(vs[0], vs[1], FromBigEndian(vs[2]), vs[3] == [1]))
  }

  lemma SampleFits(c: Command)
    requires SampleValid(c)
    ensures ArgsFit(SampleParts(c))
  {
    CapacityOf8();
  }

  lemma SampleReads(c: Command, rest: bytes)
    requires SampleValid(c) && (rest == [] || rest == NEWLINE)
    ensures SampleParse(Parts(SampleParts(c)) + rest) == Some(c)
  {
    hide TakeParts, Parts, BigEndian, FromBigEndian;
    SampleFits(c);
    TakesParts(SampleParts(c), rest);
    BigEndianDecodes(c.revision, 8);
  }

  lemma SampleCut(c: Command, n: nat)
    requires SampleValid(c) && n < |Parts(SampleParts(c))|
    ensures SampleParse(Parts(SampleParts(c))[..n]) == None
  {
    hide TakeParts, Parts, SampleParts;
    SampleFits(c);
    var whole := Parts(SampleParts(c));
    var cut := TakeParts(4, whole[..n]);
    if cut.Some? {
      var (vs, rest) := cut.value;
      var tail := rest + whole[n..];
      assert |tail| > 0 && whole + [] == whole && whole == Parts(vs) + tail;
      TakesParts(vs, tail);
      TakesParts(SampleParts(c), []);
    }
  }

  /** The requirement on receipts can be met by a codec that reads its commands back. */
  lemma LawfulCodecExists()
    ensures Lawful(Codec(SampleValid, c => Parts(SampleParts(c)), SampleParse))
    ensures forall c :: SampleValid(c) ==> SampleParse(Parts(SampleParts(c))) == Some(c)
  {
    hide SampleValid, SampleParse, SampleParts, Parts;
    forall c | SampleValid(c)
      ensures SampleParse(Parts(SampleParts(c))) == Some(c) && SampleParse(Parts(SampleParts(c)) + NEWLINE) == Some(c)
    {
      SampleReads(c, []);
      SampleReads(c, NEWLINE);
      assert Parts(SampleParts(c)) + [] == Parts(SampleParts(c));
    }
    forall c, n | SampleValid(c) && 0 <= n < |Parts(SampleParts(c))|
      ensures SampleParse(Parts(SampleParts(c))[..n]) == None
    {
      SampleCut(c, n);
    }
  }

  // ----- Who asked for what -----

  /** The command has the operation ID and the value that were asked for, where they were. */
  predicate IsAskedFor(asked: Options, c: Command) {
    (asked.operationID == None || asked.operationID == Some(c.operationID)) && (asked.enabledSet ==> c.enabled == asked.enabled)
  }

  /** A process still goes by what it was asked, with a generated operation ID at most. */
  predicate GoesBy(asked: Options, opts: Options) {
    opts == asked || (asked.operationID == None && opts == asked.(operationID := opts.operationID))
  }

  predicate Ended(p: Process) {
    p.Submitted? || p.GaveUp? || p.Crashed?
  }

  predicate ProcessGoesBy(asked: Options, p: Process) {
    && (!Ended(p) ==> GoesBy(asked, p.opts))
    && (p.Creating? || p.Writing? ==> IsAskedFor(asked, p.command) && p.command.enabled == asked.enabled)
    && (p.Submitting? ==> IsAskedFor(asked, p.command))
  }

  ghost predicate Recorded(w: World) {
    && w.asked.Keys == w.procs.Keys
    && (forall id :: id in w.procs ==> ProcessGoesBy(w.asked[id], w.procs[id]))
    && (w.author.Some? ==>
         && w.author.value.0 in w.asked && IsAskedFor(w.asked[w.author.value.0], w.author.value.1)
         && w.author.value.1.enabled == w.asked[w.author.value.0].enabled)
  }

  ghost predicate SentOnce(w: World) {
    && (forall i :: 0 <= i < |w.sent| ==>
         w.sent[i].0 in w.asked && w.sent[i].0 in w.procs && Ended(w.procs[w.sent[i].0]) && IsAskedFor(w.asked[w.sent[i].0], w.sent[i].1))
    && (forall i, j :: 0 <= i < j < |w.sent| ==> w.sent[i].0 != w.sent[j].0)
  }

  lemma StepRecords(k: Codec, w: World, l: Label)
    requires Recorded(w)
    ensures Recorded(Step(k, w, l))
  {
    hide Text;
    var v := Step(k, w, l);
    if l.id in w.procs {
      ProcessStep(k, w, l);
    }
    forall id | id in v.procs && id != l.id
      ensures id in v.asked && ProcessGoesBy(v.asked[id], v.procs[id])
    {
      assert v.procs[id] == w.procs[id];
    }
  }

  lemma ProcessStep(k: Codec, w: World, l: Label)
    requires Recorded(w) && l.id in w.procs
    ensures
      var v := Step(k, w, l);
      v.asked == w.asked && l.id in v.procs && ProcessGoesBy(w.asked[l.id], v.procs[l.id])
  {
    hide Text;
    assert ProcessGoesBy(w.asked[l.id], w.procs[l.id]);
  }

  lemma StepSendsOnce(k: Codec, w: World, l: Label)
    requires Recorded(w) && SentOnce(w)
    ensures SentOnce(Step(k, w, l))
  {
    hide Text, AfterLoad, AfterBuild;
    if l.id in w.procs {
      assert ProcessGoesBy(w.asked[l.id], w.procs[l.id]);
    }
  }

  lemma {:induction false} ExecRecords(k: Codec, w: World, ls: seq<Label>)
    requires Recorded(w) && SentOnce(w)
    ensures Recorded(Exec(k, w, ls)) && SentOnce(Exec(k, w, ls))
    decreases |ls|
  {
    hide Recorded, SentOnce, Step;
    if ls != [] {
      StepRecords(k, w, ls[0]);
      StepSendsOnce(k, w, ls[0]);
      ExecRecords(k, Step(k, w, ls[0]), ls[1..]);
    }
  }

  /** However receipts read: no process submits twice, what it submits has the operation ID
      and the value that it was asked for, and so has the receipt that it creates. */
  lemma SentAsAsked(k: Codec, file: Option<bytes>, ls: seq<Label>)
    ensures
      var w := Exec(k, Initial(file), ls);
      && (forall i :: 0 <= i < |w.sent| ==> w.sent[i].0 in w.asked && IsAskedFor(w.asked[w.sent[i].0], w.sent[i].1))
      && (forall i, j :: 0 <= i < j < |w.sent| ==> w.sent[i].0 != w.sent[j].0)
      && (w.author.Some? ==>
           && w.author.value.0 in w.asked && IsAskedFor(w.asked[w.author.value.0], w.author.value.1)
           && w.author.value.1.enabled == w.asked[w.author.value.0].enabled)
  {
    hide Exec, IsAskedFor, GoesBy;
    ExecRecords(k, Initial(file), ls);
  }

  // ----- What a process does on its own -----

  /** A load submits exactly the readable commands that were asked for, and builds a new one
      exactly when there is no file yet. */
  lemma LoadDecides(k: Codec, file: Option<bytes>, opts: Options, again: bool)
    ensures
      var p := AfterLoad(k, file, opts, again);
      && (p == Building(opts) <==> file == None && !again)
      && (forall c :: p == Submitting(opts, c) <==> Reads(k, file, c) && IsAskedFor(opts, c))
      && (p != GaveUp ==> p == Building(opts) || (p.Submitting? && p.opts == opts))
  {
  }

  /** The command that a process builds for itself. */
  function Built(asked: Options, commandID: bytes, freshID: bytes, revision: nat): Command {
    Command(commandID, match asked.operationID case Some(id) => id case None => freshID, revision, asked.enabled)
  }

  function LoneRun(k: Codec, id: nat, asked: Options, commandID: bytes, freshID: bytes, revision: nat): seq<Label> {
    [Spawn(id, asked), Load(id), Build(id, true, commandID, freshID, revision), Create(id, true),
     Write(id, |Text(k, Built(asked, commandID, freshID, revision))|, true), Sync(id, true), Load(id), Submit(id)]
  }

  /** A process on its own, undisturbed, on a path without a receipt, writes its command and
      submits it; one that comes later and asks for the same submits the same command. */
  lemma LoneProcessSubmits(k: Codec, id: nat, asked: Options, commandID: bytes, freshID: bytes, revision: nat, other: nat, later: Options)
    requires
      var c := Built(asked, commandID, freshID, revision);
      && k.valid(c) && k.parse(Text(k, c)) == Some(c) && other != id && IsAskedFor(later, c)
    ensures
      var c := Built(asked, commandID, freshID, revision);
      var w := Exec(k, Initial(None), LoneRun(k, id, asked, commandID, freshID, revision));
      && w.sent == [(id, c)] && w.file == Some(Text(k, c)) && w.author == Some((id, c))
      && Exec(k, w, [Spawn(other, later), Load(other), Submit(other)]).sent == [(id, c), (other, c)]
  {
    hide Text, Step;
    var c := Built(asked, commandID, freshID, revision);
    var ls := LoneRun(k, id, asked, commandID, freshID, revision);
    var w := Initial(None);
    ExecSplits(k, w, ls[..4], ls[4..]);
    assert ls == ls[..4] + ls[4..];
    Four(k, w, ls[..4]);
    Prepares(k, id, asked, commandID, freshID, revision);
    var half := Prepared(id, asked, c);
    Four(k, half, ls[4..]);
    Completes(k, id, asked, c);
    Resumes(k, Exec(k, half, ls[4..]), other, later, c);
  }

  /** The process has created the file and is about to write it. */
  function Prepared(id: nat, asked: Options, c: Command): World {
    World(Some([]), map[id := Writing(asked.(operationID := Some(c.operationID)), c, 0)], Some((id, c)), map[id := asked], [])
  }

  lemma Prepares(k: Codec, id: nat, asked: Options, commandID: bytes, freshID: bytes, revision: nat)
    requires k.valid(Built(asked, commandID, freshID, revision))
    ensures
      var w1 := Step(k, Initial(None), Spawn(id, asked));
      var w2 := Step(k, w1, Load(id));
      var w3 := Step(k, w2, Build(id, true, commandID, freshID, revision));
      Step(k, w3, Create(id, true)) == Prepared(id, asked, Built(asked, commandID, freshID, revision))
  {
    var c := Built(asked, commandID, freshID, revision);
    var w1 := Step(k, Initial(None), Spawn(id, asked));
    var w2 := Step(k, w1, Load(id));
    var w3 := Step(k, w2, Build(id, true, commandID, freshID, revision));
    assert w3.procs == map[id := Creating(asked.(operationID := Some(c.operationID)), c)];
    assert w3.asked == map[id := asked];
  }

  lemma Completes(k: Codec, id: nat, asked: Options, c: Command)
    requires k.parse(Text(k, c)) == Some(c) && IsAskedFor(asked, c) && c.enabled == asked.enabled
    ensures
      var w5 := Step(k, Prepared(id, asked, c), Write(id, |Text(k, c)|, true));
      var w6 := Step(k, w5, Sync(id, true));
      var w7 := Step(k, w6, Load(id));
      Step(k, w7, Submit(id)) == World(Some(Text(k, c)), map[id := Submitted], Some((id, c)), map[id := asked], [(id, c)])
  {
    hide Text;
    var text := Text(k, c);
    var own := asked.(operationID := Some(c.operationID));
    var w5 := Step(k, Prepared(id, asked, c), Write(id, |text|, true));
    assert text[..|text|] == text;
    assert w5.file == Some(text) && w5.procs == map[id := Syncing(own)];
    var w6 := Step(k, w5, Sync(id, true));
    assert w6.procs == map[id := Loading(own, true)];
    var w7 := Step(k, w6, Load(id));
    assert w7.procs == map[id := Submitting(own, c)];
  }

  lemma Resumes(k: Codec, w: World, id: nat, asked: Options, c: Command)
    requires id !in w.procs && Reads(k, w.file, c) && IsAskedFor(asked, c)
    ensures Exec(k, w, [Spawn(id, asked), Load(id), Submit(id)]).sent == w.sent + [(id, c)]
  {
    hide Text, StepWrite;
    var ls := [Spawn(id, asked), Load(id), Submit(id)];
    var w1 := Step(k, w, ls[0]);
    var w2 := Step(k, w1, ls[1]);
    var w3 := Step(k, w2, ls[2]);
    hide Step;
    assert ls[1..][0] == ls[1] && ls[1..][1..][0] == ls[2] && ls[1..][1..][1..] == [];
    assert Exec(k, w2, ls[1..][1..]) == Exec(k, w3, []) == w3;
  }

  lemma Four(k: Codec, w: World, ls: seq<Label>)
    requires |ls| == 4
    ensures Exec(k, w, ls) == Step(k, Step(k, Step(k, Step(k, w, ls[0]), ls[1]), ls[2]), ls[3])
  {
    hide Step;
    var t := ls[1..];
    assert t[0] == ls[1] && t[1..][0] == ls[2] && t[1..][1..][0] == ls[3] && t[1..][1..][1..] == [];
    var w1 := Step(k, w, ls[0]);
    var w2 := Step(k, w1, ls[1]);
    var w3 := Step(k, w2, ls[2]);
    assert Exec(k, w, ls) == Exec(k, w1, t);
    assert Exec(k, w1, t) == Exec(k, w2, t[1..]);
    assert Exec(k, w2, t[1..]) == Exec(k, w3, t[1..][1..]);
    assert Exec(k, w3, t[1..][1..]) == Exec(k, Step(k, w3, ls[3]), []);
  }

  // ----- Main results -----

  /** Write-ahead: whatever the number of processes, their options, their interleaving
      and their crashes, and whatever file was there before, every proposal submitted
      is the single command that the one receipt on the path holds. A receipt created
      by a process holds that process's command. */
  lemma ProposalsAreTheReceipt(k: Codec, file: Option<bytes>, ls: seq<Label>)
    requires Lawful(k)
    ensures
      var w := Exec(k, Initial(file), ls);
      forall i :: 0 <= i < |w.sent| ==>
        && Reads(k, w.file, w.sent[i].1)
        && (w.author.Some? ==> w.sent[i].1 == w.author.value.1)
  {
    var w := Exec(k, Initial(file), ls);
    ExecKeeps(k, Initial(file), ls);
    forall i | 0 <= i < |w.sent| && w.author.Some?
      ensures w.sent[i].1 == w.author.value.1
    {
      var c, n := w.author.value.1, |w.file.value|;
      assert w.file.value == Text(k, c)[..n];
      ReadableStays(k, c, n, n, w.sent[i].1);
    }
  }

  /** A partial receipt is never submitted, and none is submitted before one is readable. */
  lemma NothingWithoutReceipt(k: Codec, file: Option<bytes>, ls: seq<Label>)
    requires Lawful(k)
    ensures
      var w := Exec(k, Initial(file), ls);
      w.file.None? || k.parse(w.file.value).None? ==> w.sent == []
  {
    ExecKeeps(k, Initial(file), ls);
    var w := Exec(k, Initial(file), ls);
    if w.sent != [] {
      assert Reads(k, w.file, w.sent[0].1);
    }
  }

  lemma {:induction false} ExecSplits(k: Codec, w: World, a: seq<Label>, b: seq<Label>)
    ensures Exec(k, w, a + b) == Exec(k, Exec(k, w, a), b)
    decreases |a|
  {
    hide Step;
    if a == [] {
      assert a + b == b;
    } else {
      assert (a + b)[0] == a[0] && (a + b)[1..] == a[1..] + b;
      ExecSplits(k, Step(k, w, a[0]), a[1..], b);
    }
  }

  /** A receipt is created at most once and never replaced, however receipts read: at any
      later point of a run the file begins with what it held, its author is the same, and
      a file that was there before is untouched. */
  lemma ReceiptIsNeverReplaced(k: Codec, file: Option<bytes>, a: seq<Label>, b: seq<Label>)
    ensures
      var w, v := Exec(k, Initial(file), a), Exec(k, Initial(file), a + b);
      && (w.file.Some? ==> v.file.Some? && w.file.value <= v.file.value && v.author == w.author)
      && (file.Some? ==> w.file == file)
  {
    hide Exec;
    ExecSplits(k, Initial(file), a, b);
    InitialInv(k, file);
    ExecGrows(k, Initial(file), a);
    ExecGrows(k, Exec(k, Initial(file), a), b);
  }

  lemma InitialInv(k: Codec, file: Option<bytes>)
    ensures Inv(k, Initial(file))
  {
  }
}
