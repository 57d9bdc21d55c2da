/** The byte budgets of internal/zip.go and internal/resource.go: readers that share
    one counter across files and never cut a file short without saying so, and the
    declared-size passes in 64-bit arithmetic. */
module Budget {
  import opened Bytes
  import opened ZipDirectory

  /** A file as its reader delivers it: chunks of any size (empty ones are reads of
      zero bytes without error), then the end of file or a failure, reported with
      the last bytes or on a read of its own. */
  datatype File = File(chunks: seq<bytes>, broken: bool, early: bool)

  function Contents(chunks: seq<bytes>): bytes {
    if chunks == [] then [] else chunks[0] + Contents(chunks[1..])
  }

  datatype ReadError = EndOfFile | SourceFailed | LimitExceeded

  class Source {
    var chunks: seq<bytes>
    const broken: bool
    const early: bool

    constructor (f: File)
      ensures chunks == f.chunks && broken == f.broken && early == f.early
    {
      chunks, broken, early := f.chunks, f.broken, f.early;
    }

    function Ending(): ReadError {
      if broken then SourceFailed else EndOfFile
    }

    /** io.Reader: at most `size` bytes; an error means that nothing is left. */
    method Read(size: nat) returns (out: bytes, error: Option<ReadError>)
      modifies this
      ensures Contents(old(chunks)) == out + Contents(chunks) && |out| <= size
      ensures error.Some? ==> error.value == Ending() && Contents(chunks) == []
      ensures error.None? && size > 0 ==> |chunks| + |Contents(chunks)| < |old(chunks)| + |Contents(old(chunks))|
    {
      if chunks == [] {
        return [], Some(Ending());
      }
      var c := chunks[0];
      if size < |c| {
        assert ([c[size..]] + chunks[1..])[1..] == chunks[1..];
        out, chunks := c[..size], [c[size..]] + chunks[1..];
        return out, None;
      }
      out, chunks := c, chunks[1..];
      error := if chunks == [] && early then Some(Ending()) else None;
    }
  }

  class Counter {
    var remaining: int64

    constructor (limit: int64)
      ensures remaining == limit
    {
      remaining := limit;
    }
  }

  /** zipExpansionReader and resourceReader, which have the same Read. */
  class BudgetReader {
    const source: Source
    const counter: Counter

    constructor (source: Source, counter: Counter)
      ensures this.source == source && this.counter == counter
    {
      this.source, this.counter := source, counter;
    }

    /** A read passes source bytes through and pays for each of them; the limit is
        reported only when the budget is spent and the source has more. */
    method Read(size: nat) returns (out: bytes, error: Option<ReadError>)
      requires counter.remaining >= 0 && size > 0
      modifies source, counter
      ensures counter.remaining >= 0 && counter.remaining as int == old(counter.remaining) as int - |out|
      ensures error == Some(LimitExceeded) ==>
        out == [] && counter.remaining == 0 && |Contents(old(source.chunks))| > 0
      ensures error != Some(LimitExceeded) ==> Contents(old(source.chunks)) == out + Contents(source.chunks)
      ensures error.Some? && error.value != LimitExceeded ==> error.value == source.Ending() && Contents(source.chunks) == []
      ensures error.None? ==>
        |source.chunks| + |Contents(source.chunks)| < |old(source.chunks)| + |Contents(old(source.chunks))|
    {
      if counter.remaining == 0 {
        out, error := source.Read(1);
        if |out| != 0 {
          return [], Some(LimitExceeded);
        }
        return [], error;
      }
      var p := size;
      if p > counter.remaining as int {
        p := counter.remaining as int;
      }
      out, error := source.Read(p);
      counter.remaining := counter.remaining - |out| as int64;
    }

    /** A copy through the budget, whatever the buffer sizes: it delivers the whole
        source when that fits, and otherwise exactly the budget and an error. */
    method Copy(sizes: nat -> nat) returns (out: bytes, error: Option<ReadError>)
      requires counter.remaining >= 0 && forall i :: sizes(i) > 0
      modifies source, counter
      ensures
        var content, budget := Contents(old(source.chunks)), old(counter.remaining) as int;
        if |content| <= budget then
          && out == content && counter.remaining as int == budget - |content|
          && error == if source.broken then Some(SourceFailed) else None
        else
          out == content[..budget] && counter.remaining == 0 && error == Some(LimitExceeded)
    {
      ghost var content := Contents(source.chunks);
      out := [];
      var i := 0;
      while true
        invariant content == out + Contents(source.chunks)
        invariant counter.remaining >= 0 && |out| + counter.remaining as int == old(counter.remaining) as int
        decreases |source.chunks| + |Contents(source.chunks)|
      {
        var part;
        ghost var before := out;
        part, error := Read(sizes(i));
        i := i + 1;
        if error == Some(LimitExceeded) {
          assert out == content[..|out|];
          return;
        }
        out := out + part;
        assert content == out + Contents(source.chunks);
        if error.Some? {
          if error.value == EndOfFile {
            error := None;
          }
          return;
        }
      }
    }
  }

  // ----- Many files, one counter -----

  function Size(f: File): nat {
    |Contents(f.chunks)|
  }

  function Total(files: seq<File>): nat {
    if files == [] then 0 else Total(files[..|files| - 1]) + Size(files[|files| - 1])
  }

  function Spent(outs: seq<bytes>): nat {
    if outs == [] then 0 else Spent(outs[..|outs| - 1]) + |outs[|outs| - 1]|
  }

  ghost predicate Whole(files: seq<File>, outs: seq<bytes>) {
    |outs| <= |files| && forall i :: 0 <= i < |outs| ==> outs[i] == Contents(files[i].chunks) && !files[i].broken
  }

  lemma {:induction false} TotalGrows(files: seq<File>, n: nat)
    requires n <= |files|
    ensures Total(files[..n]) <= Total(files)
    decreases |files| - n
  {
    if n < |files| {
      TotalGrows(files, n + 1);
      assert files[..n + 1][..n] == files[..n];
    } else {
      assert files[..n] == files;
    }
  }

  lemma TotalNext(files: seq<File>, n: nat)
    requires n < |files|
    ensures Total(files[..n + 1]) == Total(files[..n]) + Size(files[n])
  {
    assert files[..n + 1][..n] == files[..n];
  }

  lemma SpentNext(outs: seq<bytes>, out: bytes)
    ensures Spent(outs + [out]) == Spent(outs) + |out|
  {
    assert (outs + [out])[..|outs|] == outs;
  }

  /** All but the last file are whole. The last stops at the prefix that uses up the
      budget, exactly if the files up to it exceed the limit, and otherwise at the
      failure behind its bytes. */
  ghost predicate StoppedAt(files: seq<File>, outs: seq<bytes>, limit: int, error: ReadError) {
    && 0 < |outs| <= |files| && Whole(files, outs[..|outs| - 1])
    && outs[|outs| - 1] <= Contents(files[|outs| - 1].chunks)
    && (error == LimitExceeded <==> Total(files[..|outs|]) > limit)
    && (error == LimitExceeded ==> Spent(outs) == limit)
    && (error != LimitExceeded ==> files[|outs| - 1].broken && outs[|outs| - 1] == Contents(files[|outs| - 1].chunks))
  }

  /** The extraction pass of unzipFromMemory. What was delivered plus what remains is
      the limit; all files are delivered whole exactly when they fit together and
      none is broken; otherwise the last one stops at the budget or at its failure,
      with an error. */
  method ExtractAll(files: seq<File>, limit: int64, sizes: nat -> nat)
    returns (outs: seq<bytes>, remaining: int64, error: Option<ReadError>)
    requires limit >= 0 && forall i :: sizes(i) > 0
    ensures remaining >= 0 && Spent(outs) + remaining as int == limit as int
    ensures error.None? <==> Total(files) <= limit as int && forall i :: 0 <= i < |files| ==> !files[i].broken
    ensures error.None? ==> |outs| == |files| && Whole(files, outs)
    ensures error.Some? ==> StoppedAt(files, outs, limit as int, error.value)
  {
    hide Total, Spent, Contents, Size;
    var counter := new Counter(limit);
    outs := [];
    SpentOfNone();
    assert files[..0] == [];
    for n := 0 to |files|
      invariant fresh(counter) && counter.remaining >= 0
      invariant |outs| == n && Whole(files, outs) && Spent(outs) + counter.remaining as int == limit as int
      invariant Spent(outs) == Total(files[..n]) && forall i :: 0 <= i < n ==> !files[i].broken
    {
      ghost var done := outs;
      TotalNext(files, n);
      TotalGrows(files, n + 1);
      SizeIs(files[n]);
      var source := new Source(files[n]);
      var reader := new BudgetReader(source, counter);
      var out;
      out, error := reader.Copy(sizes);
      SpentNext(done, out);
      outs := outs + [out];
      assert outs[..n] == done;
      remaining := counter.remaining;
      if error.Some? {
        return;
      }
    }
    assert files[..|files|] == files;
    remaining, error := counter.remaining, None;
  }

  lemma SpentOfNone()
    ensures Spent([]) == 0 && Total([]) == 0
  {
  }

  lemma SizeIs(f: File)
    ensures Size(f) == |Contents(f.chunks)|
  {
  }

  // ----- Passes over declared sizes -----

  function Sum(sizes: seq<uint64>): nat {
    if sizes == [] then 0 else sizes[0] as nat + Sum(sizes[1..])
  }

  /** The declared-size pass accepts exactly when the unbounded sum fits; no step
      overflows. */
  method DeclaredSizesFit(sizes: seq<uint64>, maxExpanded: int64) returns (ok: bool)
    requires maxExpanded >= 0
    ensures ok <==> Sum(sizes) <= maxExpanded as int
  {
    var remaining := maxExpanded;
    for i := 0 to |sizes|
      invariant 0 <= remaining <= maxExpanded
      invariant Sum(sizes) <= maxExpanded as int <==> Sum(sizes[i..]) <= remaining as int
    {
      assert sizes[i..][0] == sizes[i] && sizes[i..][1..] == sizes[i + 1..];
      if sizes[i] > remaining as uint64 {
        return false;
      }
      remaining := remaining - sizes[i] as int64;
    }
    assert sizes[|sizes|..] == [];
    return true;
  }

  /** A directory entry met by WalkDir; sizes are those of os.FileInfo. */
  datatype Entry = Folder | Special | Regular(size: int64)

  function RegularTotal(entries: seq<Entry>): int {
    if entries == [] then 0 else RegularTotal(entries[1..]) + if entries[0].Regular? then entries[0].size as int else 0
  }

  function RegularSizes(entries: seq<Entry>): seq<int64> {
    if entries == [] then [] else (if entries[0].Regular? then [entries[0].size] else []) + RegularSizes(entries[1..])
  }

  /** The walk of digestData: entries of every kind are counted, regular files paid for. */
  method WalkEntries(walk: seq<Entry>, limit: int64, maxEntries: nat) returns (files: seq<int64>, ok: bool)
    requires limit >= 0 && forall i :: 0 <= i < |walk| && walk[i].Regular? ==> walk[i].size >= 0
    ensures ok <==> |walk| <= maxEntries && RegularTotal(walk) <= limit as int
    ensures ok ==> files == RegularSizes(walk)
  {
    files := [];
    var entries, remaining := 0, limit;
    for i := 0 to |walk|
      invariant entries == i <= maxEntries && 0 <= remaining <= limit
      invariant RegularTotal(walk) == (limit - remaining) as int + RegularTotal(walk[i..])
      invariant RegularSizes(walk) == files + RegularSizes(walk[i..])
    {
      assert walk[i..][0] == walk[i] && walk[i..][1..] == walk[i + 1..];
      if entries >= maxEntries {
        return files, false;
      }
      entries := entries + 1;
      if walk[i].Regular? {
        if walk[i].size > remaining {
          RegularTotalPositive(walk[i + 1..]);
          return files, false;
        }
        remaining := remaining - walk[i].size;
        files := files + [walk[i].size];
      }
    }
    assert walk[|walk|..] == [];
    return files, true;
  }

  lemma {:induction false} RegularTotalPositive(walk: seq<Entry>)
    requires forall i :: 0 <= i < |walk| && walk[i].Regular? ==> walk[i].size >= 0
    ensures RegularTotal(walk) >= 0
    decreases |walk|
  {
    if walk != [] {
      RegularTotalPositive(walk[1..]);
    }
  }

  /** ReadFileBounded: the file is checked before and while it is read, so a file that
      grew in between is still refused and never truncated. */
  method ReadFileBounded(regular: bool, size: int64, file: File, limit: int64, sizes: nat -> nat)
    returns (data: Option<bytes>)
    requires limit >= 0 && forall i :: sizes(i) > 0
    ensures data.Some? <==> regular && size <= limit && Size(file) <= limit as int && !file.broken
    ensures data.Some? ==> data.value == Contents(file.chunks)
  {
    if !regular || size > limit {
      return None;
    }
    var source := new Source(file);
    var counter := new Counter(limit);
    var reader := new BudgetReader(source, counter);
    var out, error := reader.Copy(sizes);
    data := if error.Some? then None else Some(out);
  }

  /** resourceWriter: bytes buffered plus bytes remaining never change. */
  class BudgetWriter {
    var buffer: bytes
    var remaining: int64

    constructor (limit: int64)
      ensures buffer == [] && remaining == limit
    {
      buffer, remaining := [], limit;
    }

    method Write(p: bytes) returns (error: Option<ReadError>)
      requires remaining >= 0 && |p| < 0x8000_0000_0000_0000
      modifies this
      ensures remaining >= 0 && |buffer| + remaining as int == |old(buffer)| + old(remaining) as int
      ensures error.None? <==> |p| <= old(remaining) as int
      ensures buffer == if error.None? then old(buffer) + p else old(buffer)
    {
      if |p| as int64 > remaining {
        return Some(LimitExceeded);
      }
      buffer := buffer + p;
      remaining := remaining - |p| as int64;
      return None;
    }
  }

  // ----- The second pass of digestData -----

  /** A slice of bytes that fits in memory. */
  type Slice = p: bytes | |p| < 0x8000_0000_0000_0000

  /** A listed file as it is when it is opened again: its kind, its size, its bytes. */
  datatype Opened = Opened(regular: bool, size: int64, file: File)

  function FilesOf(files: seq<Opened>): (r: seq<File>)
    ensures |r| == |files| && forall i :: 0 <= i < |files| ==> r[i] == files[i].file
  {
    seq(|files|, i requires 0 <= i < |files| => files[i].file)
  }

  /** What the ZIP writer emits for the first `n` files; `pack` gives its writes for one. */
  function Emitted(files: seq<Opened>, pack: (nat, bytes) -> seq<Slice>, n: nat): bytes
    requires n <= |files|
  {
    if n == 0 then [] else
    Emitted(files, pack, n - 1) + Contents(pack(n - 1, Contents(files[n - 1].file.chunks)))
  }

  /** Each file is still regular, still fits the budget left, and reads to its end. */
  ghost predicate AllAdmitted(files: seq<Opened>, limit: int, n: nat)
    requires n <= |files|
  {
    forall i :: 0 <= i < n ==>
      files[i].regular && !files[i].file.broken && files[i].size as int <= limit - Total(FilesOf(files)[..i])
  }

  method WriteAll(writer: BudgetWriter, chunks: seq<Slice>) returns (ok: bool)
    requires writer.remaining >= 0
    modifies writer
    ensures writer.remaining >= 0 && |writer.buffer| + writer.remaining as int == |old(writer.buffer)| + old(writer.remaining) as int
    ensures ok <==> |Contents(chunks)| <= old(writer.remaining) as int
    ensures ok ==> writer.buffer == old(writer.buffer) + Contents(chunks)
  {
    assert chunks[0..] == chunks;
    for i := 0 to |chunks|
      invariant writer.remaining >= 0
      invariant |writer.buffer| + writer.remaining as int == |old(writer.buffer)| + old(writer.remaining) as int
      invariant writer.buffer + Contents(chunks[i..]) == old(writer.buffer) + Contents(chunks)
    {
      assert chunks[i..][0] == chunks[i] && chunks[i..][1..] == chunks[i + 1..];
      assert writer.buffer + (chunks[i] + Contents(chunks[i + 1..])) == (writer.buffer + chunks[i]) + Contents(chunks[i + 1..]);
      ghost var left := |Contents(chunks[i..])|;
      assert left + |writer.buffer| == |old(writer.buffer)| + |Contents(chunks)|;
      var error := writer.Write(chunks[i]);
      if error.Some? {
        return false;
      }
    }
    assert chunks[|chunks|..] == [];
    return true;
  }

  lemma {:induction false} EmittedGrows(files: seq<Opened>, pack: (nat, bytes) -> seq<Slice>, n: nat, m: nat)
    requires n <= m <= |files|
    ensures |Emitted(files, pack, n)| <= |Emitted(files, pack, m)|
    decreases m - n
  {
    if n < m {
      EmittedGrows(files, pack, n, m - 1);
    }
  }

  /** Two budgets over one pass: what is read and what is written. The archive is returned
      exactly when every file is admitted, their bytes fit the limit together and what the
      ZIP writer emits fits it too; and then it is all that was emitted. */
  method DigestFiles(files: seq<Opened>, limit: int64, sizes: nat -> nat, pack: (nat, bytes) -> seq<Slice>, closing: seq<Slice>)
    returns (zip: Option<bytes>)
    requires limit >= 0 && forall i :: sizes(i) > 0
    ensures zip.Some? <==>
      && AllAdmitted(files, limit as int, |files|) && Total(FilesOf(files)) <= limit as int
      && |Emitted(files, pack, |files|) + Contents(closing)| <= limit as int
    ensures zip.Some? ==> zip.value == Emitted(files, pack, |files|) + Contents(closing)
  {
    hide Total, Contents, Size, FilesOf;
    ghost var fs := FilesOf(files);
    var counter := new Counter(limit);
    var writer := new BudgetWriter(limit);
    SpentOfNone();
    assert fs[..0] == [];
    for n := 0 to |files|
      invariant fresh(counter) && fresh(writer) && counter.remaining >= 0 && writer.remaining >= 0
      invariant counter.remaining as int == limit as int - Total(fs[..n])
      invariant AllAdmitted(files, limit as int, n)
      invariant writer.buffer == Emitted(files, pack, n) && |writer.buffer| + writer.remaining as int == limit as int
    {
      TotalNext(fs, n);
      TotalGrows(fs, n + 1);
      SizeIs(fs[n]);
      EmittedGrows(files, pack, n + 1, |files|);
      if !files[n].regular || files[n].size > counter.remaining {
        return None;
      }
      var source := new Source(files[n].file);
      var reader := new BudgetReader(source, counter);
      var out, error := reader.Copy(sizes);
      if error.Some? {
        return None;
      }
      var ok := WriteAll(writer, pack(n, out));
      if !ok {
        return None;
      }
    }
    assert fs[..|files|] == fs;
    var ok := WriteAll(writer, closing);
    zip := if ok then Some(writer.buffer) else None;
  }
}
