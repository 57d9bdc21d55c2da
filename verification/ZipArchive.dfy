/** Archives as a writer lays them out, against which the preflight is exact: it
    accepts a well-formed archive if and only if its directory is within the limits. */
module ZipArchive {
  import opened Bytes
  import opened ZipDirectory

  function LittleEndian(n: nat, width: nat): (b: bytes)
    ensures |b| == width
  {
    if width == 0 then [] else [n % 256] + LittleEndian(n / 256, width - 1)
  }

  lemma {:induction false} LittleReads(pre: bytes, n: nat, width: nat, post: bytes)
    requires n < Capacity(width)
    ensures Little(pre + LittleEndian(n, width) + post, |pre|, width) == n
    decreases width
  {
    if width > 0 {
      var rest := LittleEndian(n / 256, width - 1);
      LittleReads(pre + [n % 256], n / 256, width - 1, post);
      assert pre + LittleEndian(n, width) + post == (pre + [n % 256]) + rest + post;
    }
  }

  lemma {:induction false} LittleWrites(data: bytes, at: nat, width: nat)
    requires at + width <= |data|
    ensures LittleEndian(Little(data, at, width), width) == data[at..at + width]
    decreases width
  {
    if width > 0 {
      LittleWrites(data, at + 1, width - 1);
      var n, rest := Little(data, at, width), Little(data, at + 1, width - 1);
      assert n % 256 == data[at] && n / 256 == rest;
      assert data[at..at + width] == [data[at]] + data[at + 1..at + width];
    }
  }

  /** An integer read inside `mid` does not depend on what surrounds it. */
  lemma {:induction false} LittleInside(pre: bytes, mid: bytes, post: bytes, at: nat, width: nat)
    requires at + width <= |mid|
    ensures Little(pre + mid + post, |pre| + at, width) == Little(mid, at, width)
    decreases width
  {
    if width > 0 {
      LittleInside(pre, mid, post, at + 1, width - 1);
    }
  }

  const END_MARK: bytes := [0x50, 0x4b, 5, 6]
  const ZIP64_MARK: bytes := [0x50, 0x4b, 6, 6]
  const LOCATOR_MARK: bytes := [0x50, 0x4b, 6, 7]
  const HEADER_MARK: bytes := [0x50, 0x4b, 1, 2]

  lemma FourBytes(b: bytes, at: nat)
    requires at + 4 <= |b|
    ensures U32(b, at) == b[at] as int + 0x100 * (b[at + 1] as int + 0x100 * (b[at + 2] as int + 0x100 * (b[at + 3] as int)))
  {
    assert Little(b, at, 4) == b[at] + 256 * Little(b, at + 1, 3);
    assert Little(b, at + 1, 3) == b[at + 1] + 256 * Little(b, at + 2, 2);
    assert Little(b, at + 2, 2) == b[at + 2] + 256 * Little(b, at + 3, 1);
    assert Little(b, at + 3, 1) == b[at + 3] + 256 * Little(b, at + 4, 0);
  }

  /** The signatures that the code compares are those marks. */
  lemma Marks()
    ensures U32(END_MARK, 0) == END_SIGNATURE && U32(ZIP64_MARK, 0) == ZIP64_SIGNATURE
    ensures U32(LOCATOR_MARK, 0) == LOCATOR_SIGNATURE && U32(HEADER_MARK, 0) == HEADER_SIGNATURE
  {
    FourBytes(END_MARK, 0);
    FourBytes(ZIP64_MARK, 0);
    FourBytes(LOCATOR_MARK, 0);
    FourBytes(HEADER_MARK, 0);
  }

  lemma MarkReads(data: bytes, j: nat, mark: bytes)
    requires j + 4 <= |data| && |mark| == 4
    ensures U32(data, j) == U32(mark, 0) <==> data[j..j + 4] == mark
  {
    hide Little, LittleEndian;
    LittleWrites(data, j, 4);
    LittleWrites(mark, 0, 4);
    assert mark[0..4] == mark;
    if data[j..j + 4] == mark {
      assert data == data[..j] + mark + data[j + 4..];
      LittleInside(data[..j], mark, data[j + 4..], 0, 4);
    }
  }

  // ----- The end record -----

  /** An end record (APPNOTE section 4.3.16): mark, disk numbers, records, size and offset of
      the directory, and a comment after its length. */
  datatype End = End(disks: bytes, records: nat, size: nat, offset: nat, comment: bytes)

  predicate EndFits(r: End) {
    && |r.disks| == 6 && r.records < 0x1_0000 && r.size < 0x1_0000_0000 && r.offset < 0x1_0000_0000 && |r.comment| < 0x1_0000
  }

  function EndRecord(r: End): bytes {
    END_MARK + (r.disks + (LittleEndian(r.records, 2) + (LittleEndian(r.size, 4) + (LittleEndian(r.offset, 4)
    + (LittleEndian(|r.comment|, 2) + r.comment)))))
  }

  lemma EndRecordReads(r: End)
    requires EndFits(r)
    ensures
      var b := EndRecord(r);
      && |b| == 22 + |r.comment| && U32(b, 0) == END_SIGNATURE && U16(b, 10) == r.records && U32(b, 12) == r.size
      && U32(b, 16) == r.offset && U16(b, 20) == |r.comment|
  {
    CapacityOf2();
    CapacityOf4();
    var s, z, n, d, o, c := END_MARK, r.disks, LittleEndian(r.records, 2), LittleEndian(r.size, 4), LittleEndian(r.offset, 4), LittleEndian(|r.comment|, 2);
    var b := EndRecord(r);
    hide LittleEndian, Little, Capacity;
    Marks();
    MarkReads(b, 0, s);
    assert b == (s + z) + n + (d + (o + (c + r.comment)));
    LittleReads(s + z, r.records, 2, d + (o + (c + r.comment)));
    assert b == (s + z + n) + d + (o + (c + r.comment));
    LittleReads(s + z + n, r.size, 4, o + (c + r.comment));
    assert b == (s + z + n + d) + o + (c + r.comment);
    LittleReads(s + z + n + d, r.offset, 4, c + r.comment);
    assert b == (s + z + n + d + o) + c + r.comment;
    LittleReads(s + z + n + d + o, |r.comment|, 2, r.comment);
  }

  /** Nothing behind the record's own mark looks like an end record: where the mark occurs
      again, the two length bytes claim a comment that does not fit. */
  predicate LastOfItsKind(r: End) {
    forall j :: 0 < j <= |r.comment| ==> !LooksLikeEnd(EndRecord(r), j)
  }

  predicate LooksLikeEnd(b: bytes, j: nat) {
    j + 22 <= |b| && b[j..j + 4] == END_MARK && b[j + 20] as int + 0x100 * (b[j + 21] as int) <= |b| - j - 22
  }

  lemma LooksAreExact(b: bytes, j: nat)
    requires j + 22 <= |b|
    ensures IsEnd(b, j) <==> LooksLikeEnd(b, j)
  {
    Marks();
    MarkReads(b, j, END_MARK);
    hide U32;
    assert U16(b, j + 20) == b[j + 20] as int + 0x100 * (b[j + 21] as int) by {
      assert Little(b, j + 20, 2) == b[j + 20] + 256 * Little(b, j + 21, 1);
      assert Little(b, j + 21, 1) == b[j + 21] + 256 * Little(b, j + 22, 0);
    }
  }

  /** Data without an end record in its last 65557 bytes has no directory. */
  lemma NothingFound(data: bytes)
    ensures
      (forall j :: 0 <= j && |data| - 65557 <= j <= |data| - 22 ==> !LooksLikeEnd(data, j)) ==> DirectoryOf(data) == Err(BadFormat)
  {
    hide LooksLikeEnd, IsEnd, DirectoryAt;
    if EndIndex(data) >= 0 {
      LooksAreExact(data, EndIndex(data));
    }
  }

  lemma EndInside(pre: bytes, r: End)
    requires EndFits(r)
    ensures
      var data := pre + EndRecord(r);
      && |data| == |pre| + 22 + |r.comment| && IsEnd(data, |pre|) && U16(data, |pre| + 10) == r.records && U32(data, |pre| + 12) == r.size
      && U32(data, |pre| + 16) == r.offset
  {
    hide Little, Capacity, EndRecord;
    EndRecordReads(r);
    var b := EndRecord(r);
    assert pre + b == pre + b + [];
    LittleInside(pre, b, [], 0, 4);
    LittleInside(pre, b, [], 10, 2);
    LittleInside(pre, b, [], 12, 4);
    LittleInside(pre, b, [], 16, 4);
    LittleInside(pre, b, [], 20, 2);
  }

  /** The search finds the record that ends the archive, whatever precedes it and whatever
      comment of up to 65535 bytes it has. */
  lemma SearchFinds(pre: bytes, r: End)
    requires EndFits(r) && LastOfItsKind(r)
    ensures EndIndex(pre + EndRecord(r)) == |pre|
  {
    hide Little, Capacity, EndRecord, U16, U32, LooksLikeEnd;
    var b := EndRecord(r);
    var data := pre + b;
    EndInside(pre, r);
    forall j | |pre| < j <= |data| - END_LEN
      ensures !IsEnd(data, j)
    {
      var k := j - |pre|;
      assert !LooksLikeEnd(b, k);
      LooksAreExact(data, j);
      LooksInside(pre, b, k);
    }
  }

  lemma LooksInside(pre: bytes, b: bytes, k: nat)
    requires k + 22 <= |b|
    ensures LooksLikeEnd(pre + b, |pre| + k) <==> LooksLikeEnd(b, k)
  {
    assert (pre + b)[|pre| + k..|pre| + k + 4] == b[k..k + 4];
  }

  /** No Zip64 locator ends right before the end record. */
  predicate Unlocated(pre: bytes) {
    |pre| < 20 || pre[|pre| - 20..|pre| - 16] != LOCATOR_MARK
  }

  predicate Defers(r: End) {
    r.records == 0xffff || r.size == 0xffff || r.offset == 0xffff_ffff
  }

  /** What the end record says is what is found, unless it defers to a Zip64 record. */
  lemma FindsLast(pre: bytes, r: End)
    requires EndFits(r) && LastOfItsKind(r) && (!Defers(r) || Unlocated(pre))
    ensures DirectoryOf(pre + EndRecord(r)) == Ok(Directory(|pre|, r.size, r.offset, r.records))
  {
    hide Little, Capacity, EndRecord, U16, U32;
    var data := pre + EndRecord(r);
    EndInside(pre, r);
    SearchFinds(pre, r);
    if |pre| >= 20 {
      Marks();
      MarkReads(data, |pre| - 20, LOCATOR_MARK);
      assert data[|pre| - 20..|pre| - 16] == pre[|pre| - 20..|pre| - 16];
    }
  }

  // ----- Zip64 -----

  /** A Zip64 end record (section 4.3.14): mark, 28 bytes, records, size and offset. */
  function Zip64Record(lead: bytes, d: Directory): bytes {
    ZIP64_MARK + (lead + (LittleEndian(d.records, 8) + (LittleEndian(d.size, 8) + LittleEndian(d.offset, 8))))
  }

  /** A locator (section 4.3.15): mark, disk, place of the record, number of disks. */
  function Locator(disk: nat, at: nat, total: nat): (b: bytes)
    ensures |b| == 20
  {
    LOCATOR_MARK + (LittleEndian(disk, 4) + (LittleEndian(at, 8) + LittleEndian(total, 4)))
  }

  lemma Zip64Reads(lead: bytes, d: Directory)
    requires |lead| == 28 && d.records < Capacity(8) && d.size < Capacity(8) && d.offset < Capacity(8)
    ensures
      var b := Zip64Record(lead, d);
      |b| == 56 && b[..4] == ZIP64_MARK && U64(b, 32) == d.records && U64(b, 40) == d.size && U64(b, 48) == d.offset
  {
    var s, r, e, o := ZIP64_MARK, LittleEndian(d.records, 8), LittleEndian(d.size, 8), LittleEndian(d.offset, 8);
    var b := Zip64Record(lead, d);
    hide LittleEndian, Little, Capacity;
    assert b == (s + lead) + r + (e + o);
    LittleReads(s + lead, d.records, 8, e + o);
    assert b == (s + lead + r) + e + o;
    LittleReads(s + lead + r, d.size, 8, o);
    assert b == (s + lead + r + e) + o + [];
    LittleReads(s + lead + r + e, d.offset, 8, []);
  }

  lemma LocatorReads(disk: nat, at: nat, total: nat)
    requires disk < Capacity(4) && at < Capacity(8) && total < Capacity(4)
    ensures
      var b := Locator(disk, at, total);
      U32(b, 0) == LOCATOR_SIGNATURE && U32(b, 4) == disk && U64(b, 8) == at && U32(b, 16) == total
  {
    var s, z, a, n := LOCATOR_MARK, LittleEndian(disk, 4), LittleEndian(at, 8), LittleEndian(total, 4);
    var b := Locator(disk, at, total);
    Marks();
    MarkReads(b, 0, s);
    hide LittleEndian, Little, Capacity;
    assert b == s + z + (a + n);
    LittleReads(s, disk, 4, a + n);
    assert b == (s + z) + a + n;
    LittleReads(s + z, at, 8, n);
    assert b == (s + z + a) + n + [];
    LittleReads(s + z + a, total, 4, []);
  }

  lemma LocatorInside(pre: bytes, l: bytes, post: bytes)
    requires |l| == 20
    ensures
      var data := pre + l + post;
      && U32(data, |pre|) == U32(l, 0) && U32(data, |pre| + 4) == U32(l, 4)
      && U64(data, |pre| + 8) == U64(l, 8) && U32(data, |pre| + 16) == U32(l, 16)
  {
    hide Little, Capacity;
    LittleInside(pre, l, post, 0, 4);
    LittleInside(pre, l, post, 4, 4);
    LittleInside(pre, l, post, 8, 8);
    LittleInside(pre, l, post, 16, 4);
  }

  lemma Zip64Inside(pre: bytes, z: bytes, post: bytes)
    requires |z| == 56
    ensures
      var data := pre + z + post;
      && (U32(data, |pre|) == ZIP64_SIGNATURE <==> z[..4] == ZIP64_MARK) && U64(data, |pre| + 32) == U64(z, 32)
      && U64(data, |pre| + 40) == U64(z, 40) && U64(data, |pre| + 48) == U64(z, 48)
  {
    var data := pre + z + post;
    Marks();
    MarkReads(data, |pre|, ZIP64_MARK);
    assert data[|pre|..|pre| + 4] == z[..4];
    hide Little, Capacity, U32;
    LittleInside(pre, z, post, 32, 8);
    LittleInside(pre, z, post, 40, 8);
    LittleInside(pre, z, post, 48, 8);
  }

  /** The reads of an archive `pre + z + gap + locator + end record`, at its end record. */
  lemma DirectoryRead(pre: bytes, z: bytes, gap: bytes, disk: nat, at: nat, total: nat, r: End)
    requires |z| == 56 && disk < Capacity(4) && at < Capacity(8) && total < Capacity(4) && EndFits(r) && LastOfItsKind(r)
    ensures
      var front := pre + z + gap + Locator(disk, at, total);
      var data, e := front + EndRecord(r), |front|;
      && EndIndex(data) == e && IsEnd(data, e) && e == |pre| + 56 + |gap| + 20
      && U16(data, e + 10) == r.records && U32(data, e + 12) == r.size && U32(data, e + 16) == r.offset
      && U32(data, e - 20) == LOCATOR_SIGNATURE && U32(data, e - 16) == disk && U64(data, e - 12) == at && U32(data, e - 4) == total
      && (U32(data, |pre|) == ZIP64_SIGNATURE <==> z[..4] == ZIP64_MARK)
      && U64(data, |pre| + 32) == U64(z, 32) && U64(data, |pre| + 40) == U64(z, 40) && U64(data, |pre| + 48) == U64(z, 48)
  {
    hide Locator, EndRecord, Capacity, U16, U32, U64, EndFits, LastOfItsKind;
    var l, b := Locator(disk, at, total), EndRecord(r);
    var front := pre + z + gap + l;
    LocatorReads(disk, at, total);
    EndInside(front, r);
    SearchFinds(front, r);
    assert front + b == (pre + z + gap) + l + b;
    LocatorInside(pre + z + gap, l, b);
    assert front + b == pre + z + (gap + l + b);
    Zip64Inside(pre, z, gap + l + b);
  }

  /** The Zip64 lookup, exactly: it is taken if the end record defers and its locator is for
      a single disk; a record out of reach or without its mark is a bad format; and
      otherwise it returns what was written. */
  lemma FindsZip64(pre: bytes, z: bytes, gap: bytes, disk: nat, at: nat, total: nat, r: End)
    requires |z| == 56 && disk < Capacity(4) && at < Capacity(8) && total < Capacity(4) && EndFits(r) && LastOfItsKind(r)
    ensures
      var front := pre + z + gap + Locator(disk, at, total);
      var found := DirectoryOf(front + EndRecord(r));
      && (!Defers(r) || disk != 0 || total != 1 ==> found == Ok(Directory(|front|, r.size, r.offset, r.records)))
      && (Defers(r) && disk == 0 && total == 1 ==>
           && (at > |front| - 20 - 56 ==> found == Err(BadFormat))
           && (at == |pre| && z[..4] != ZIP64_MARK ==> found == Err(BadFormat))
           && (at == |pre| && z[..4] == ZIP64_MARK ==> found == Ok(Directory(|pre|, U64(z, 40), U64(z, 48), U64(z, 32)))))
  {
    hide Locator, EndRecord, Capacity, U16, U32, U64, EndFits, LastOfItsKind;
    DirectoryRead(pre, z, gap, disk, at, total, r);
  }

  /** So a written Zip64 record is read back. */
  lemma Zip64ReadsBack(pre: bytes, lead: bytes, gap: bytes, d: Directory, r: End)
    requires |lead| == 28 && d.end == |pre| < Capacity(8) && d.records < Capacity(8) && d.size < Capacity(8) && d.offset < Capacity(8)
    requires EndFits(r) && LastOfItsKind(r) && Defers(r)
    ensures DirectoryOf(pre + Zip64Record(lead, d) + gap + Locator(0, |pre|, 1) + EndRecord(r)) == Ok(d)
  {
    CapacityOf4();
    hide Locator, EndRecord, Capacity, U16, U32, U64, EndFits, LastOfItsKind, DirectoryOf, Zip64Record;
    Zip64Reads(lead, d);
    FindsZip64(pre, Zip64Record(lead, d), gap, 0, |pre|, 1, r);
  }

  // ----- The central headers -----

  /** A central header (section 4.3.12): mark, 24 bytes, the lengths of name, extra field and
      comment, 12 bytes, and then those three. */
  datatype Header = Header(front: bytes, middle: bytes, name: bytes, extra: bytes, comment: bytes)

  predicate HeaderFits(h: Header) {
    |h.front| == 24 && |h.middle| == 12 && |h.name| < 0x1_0000 && |h.extra| < 0x1_0000 && |h.comment| < 0x1_0000
  }

  function HeaderBytes(h: Header): bytes {
    HEADER_MARK + (h.front + (LittleEndian(|h.name|, 2) + (LittleEndian(|h.extra|, 2) + (LittleEndian(|h.comment|, 2)
    + (h.middle + (h.name + (h.extra + h.comment)))))))
  }

  ghost predicate AllFit(hs: seq<Header>) {
    forall i :: 0 <= i < |hs| ==> HeaderFits(hs[i])
  }

  function Concat(hs: seq<Header>): bytes {
    if hs == [] then [] else HeaderBytes(hs[0]) + Concat(hs[1..])
  }

  lemma HeaderReads(h: Header)
    requires HeaderFits(h)
    ensures
      var b := HeaderBytes(h);
      && |b| == 46 + |h.name| + |h.extra| + |h.comment| && U32(b, 0) == HEADER_SIGNATURE
      && U16(b, 28) == |h.name| && U16(b, 30) == |h.extra| && U16(b, 32) == |h.comment|
  {
    CapacityOf2();
    var s, n, x, c := HEADER_MARK, LittleEndian(|h.name|, 2), LittleEndian(|h.extra|, 2), LittleEndian(|h.comment|, 2);
    var tail := h.middle + (h.name + (h.extra + h.comment));
    var b := HeaderBytes(h);
    hide LittleEndian, Little, Capacity;
    Marks();
    MarkReads(b, 0, s);
    assert b == (s + h.front) + n + (x + (c + tail));
    LittleReads(s + h.front, |h.name|, 2, x + (c + tail));
    assert b == (s + h.front + n) + x + (c + tail);
    LittleReads(s + h.front + n, |h.extra|, 2, c + tail);
    assert b == (s + h.front + n + x) + c + tail;
    LittleReads(s + h.front + n + x, |h.comment|, 2, tail);
  }

  lemma HeaderInside(pre: bytes, h: Header, post: bytes)
    requires HeaderFits(h)
    ensures
      var data := pre + HeaderBytes(h) + post;
      WholeHeader(data, |pre|) && HeaderSize(data, |pre|) == |HeaderBytes(h)|
  {
    hide Little, Capacity, HeaderBytes;
    HeaderReads(h);
    var b := HeaderBytes(h);
    LittleInside(pre, b, post, 0, 4);
    LittleInside(pre, b, post, 28, 2);
    LittleInside(pre, b, post, 30, 2);
    LittleInside(pre, b, post, 32, 2);
  }

  /** No header mark starts at `p`. */
  predicate Unmarked(data: bytes, p: nat) {
    p + 46 > |data| || data[p..p + 4] != HEADER_MARK
  }

  /** The walk meets exactly the headers that were written, and stops behind them. */
  lemma {:induction false} WalksWritten(pre: bytes, hs: seq<Header>, post: bytes)
    requires AllFit(hs) && Unmarked(pre + Concat(hs) + post, |pre| + |Concat(hs)|)
    ensures
      var data := pre + Concat(hs) + post;
      && |Walk(data, |pre|)| == |hs| && WalkEnd(data, |pre|) == |pre| + |Concat(hs)|
      && !AtHeader(data, |pre| + |Concat(hs)|)
    decreases |hs|
  {
    hide Little, HeaderBytes, U32;
    if hs == [] {
      UnmarkedIsExact(pre + Concat(hs) + post, |pre|);
    } else {
      var h, rest := HeaderBytes(hs[0]), hs[1..];
      assert pre + Concat(hs) + post == pre + h + (Concat(rest) + post);
      HeaderInside(pre, hs[0], Concat(rest) + post);
      assert pre + Concat(hs) + post == (pre + h) + Concat(rest) + post;
      WalksWritten(pre + h, rest, post);
    }
  }

  /** What the scan decides about them. */
  lemma WrittenBounded(pre: bytes, hs: seq<Header>, post: bytes, maxEntries: nat)
    requires AllFit(hs) && Unmarked(pre + Concat(hs) + post, |pre| + |Concat(hs)|)
    ensures Bounded(pre + Concat(hs) + post, |pre|, maxEntries) <==> |hs| <= maxEntries && |Concat(hs)| <= 64 * 1024 * 1024
  {
    hide Concat, Walk, WalkEnd, AtHeader, AllFit;
    WalksWritten(pre, hs, post);
  }

  lemma Joined(data: bytes, i: nat, j: nat, k: nat)
    requires i <= j <= k <= |data|
    ensures data[i..j] + data[j..k] == data[i..k]
  {
  }

  /** Every whole header that the walk meets is laid out as one. */
  lemma HeaderParses(data: bytes, p: nat) returns (h: Header)
    requires WholeHeader(data, p)
    ensures HeaderFits(h) && HeaderBytes(h) == data[p..p + HeaderSize(data, p)]
  {
    hide Little, LittleEndian, U32;
    var n, x, c := U16(data, p + 28), U16(data, p + 30), U16(data, p + 32);
    var q := p + 46;
    var end := q + n + x + c;
    assert end == p + HeaderSize(data, p);
    h := Header(data[p + 4..p + 28], data[p + 34..q], data[q..q + n], data[q + n..q + n + x], data[q + n + x..end]);
    assert data[p..p + 4] == HEADER_MARK by {
      Marks();
      MarkReads(data, p, HEADER_MARK);
    }
    LittleWrites(data, p + 28, 2);
    LittleWrites(data, p + 30, 2);
    LittleWrites(data, p + 32, 2);
    Pieces(data, p, n, x, c);
  }

  lemma Pieces(data: bytes, p: nat, n: nat, x: nat, c: nat)
    requires p + 46 + n + x + c <= |data|
    ensures
      var q, end := p + 46, p + 46 + n + x + c;
      data[p..p + 4] + (data[p + 4..p + 28] + (data[p + 28..p + 30] + (data[p + 30..p + 32] + (data[p + 32..p + 34]
      + (data[p + 34..q] + (data[q..q + n] + (data[q + n..q + n + x] + data[q + n + x..end]))))))) == data[p..end]
  {
    var q, end := p + 46, p + 46 + n + x + c;
    Joined(data, q + n, q + n + x, end);
    Joined(data, q, q + n, end);
    Joined(data, p + 34, q, end);
    Joined(data, p + 32, p + 34, end);
    Joined(data, p + 30, p + 32, end);
    Joined(data, p + 28, p + 30, end);
    Joined(data, p + 4, p + 28, end);
    Joined(data, p, p + 4, end);
  }

  lemma {:induction false} WalkParses(data: bytes, p: nat) returns (hs: seq<Header>)
    requires p <= |data|
    ensures AllFit(hs) && |hs| == |Walk(data, p)| && Concat(hs) == data[p..WalkEnd(data, p)]
    decreases |data| - p
  {
    hide HeaderBytes, HeaderFits, HeaderSize, Little, U32;
    if WholeHeader(data, p) {
      var h := HeaderParses(data, p);
      var q := p + HeaderSize(data, p);
      var rest := WalkParses(data, q);
      hs := [h] + rest;
      assert hs[0] == h && hs[1..] == rest;
      Joined(data, p, q, WalkEnd(data, q));
    } else {
      hs := [];
    }
  }

  /** The data from `p` on is a list of at most `maxEntries` headers, in at most 64 MiB, with
      no header mark behind them. */
  ghost predicate IsDirectory(data: bytes, p: nat, hs: seq<Header>, maxEntries: nat)
    requires p <= |data|
  {
    && AllFit(hs) && |hs| <= maxEntries && |Concat(hs)| <= 64 * 1024 * 1024
    && Concat(hs) <= data[p..] && Unmarked(data, p + |Concat(hs)|)
  }

  /** The scan accepts exactly the data that is laid out so. */
  lemma ScanIsExact(data: bytes, p: nat, maxEntries: nat)
    requires p <= |data|
    ensures Bounded(data, p, maxEntries) <==> exists hs :: IsDirectory(data, p, hs, maxEntries)
  {
    hide Concat, Walk, WalkEnd, AtHeader, AllFit, Unmarked, WholeHeader;
    if Bounded(data, p, maxEntries) {
      var hs := WalkParses(data, p);
      UnmarkedIsExact(data, WalkEnd(data, p));
      assert IsDirectory(data, p, hs, maxEntries);
    }
    if hs :| IsDirectory(data, p, hs, maxEntries) {
      var q := p + |Concat(hs)|;
      assert data == data[..p] + Concat(hs) + data[q..];
      WrittenBounded(data[..p], hs, data[q..], maxEntries);
    }
  }

  lemma UnmarkedIsExact(data: bytes, p: nat)
    ensures AtHeader(data, p) <==> !Unmarked(data, p)
  {
    Marks();
    if p + 46 <= |data| {
      MarkReads(data, p, HEADER_MARK);
    }
  }

  lemma {:induction false} ConcatAdds(a: seq<Header>, b: seq<Header>)
    ensures Concat(a + b) == Concat(a) + Concat(b)
    decreases |a|
  {
    hide HeaderBytes;
    if a == [] {
      assert a + b == b;
    } else {
      assert (a + b)[0] == a[0] && (a + b)[1..] == a[1..] + b;
      ConcatAdds(a[1..], b);
    }
  }

  /** Anything, then headers, then an end record whose offset points at the first of them
      and whose size covers only the last ones. */
  function Archive(pre: bytes, first: seq<Header>, last: seq<Header>, end: bytes): bytes {
    pre + (Concat(first) + Concat(last)) + end
  }

  lemma EndIsNoHeader(pre: bytes, r: End)
    requires EndFits(r)
    ensures Unmarked(pre + EndRecord(r), |pre|)
  {
    hide LittleEndian;
    var data := pre + EndRecord(r);
    assert data[|pre|..|pre| + 4] == END_MARK;
  }

  lemma ArchiveFound(pre: bytes, first: seq<Header>, last: seq<Header>, r: End)
    requires EndFits(r) && LastOfItsKind(r) && !Defers(r)
    ensures
      DirectoryOf(Archive(pre, first, last, EndRecord(r)))
      == Ok(Directory(|pre| + |Concat(first)| + |Concat(last)|, r.size, r.offset, r.records))
    ensures |pre| + |Concat(first)| + |Concat(last)| <= |Archive(pre, first, last, EndRecord(r))|
  {
    hide EndRecord, DirectoryOf, Concat, LastOfItsKind, EndFits;
    FindsLast(pre + (Concat(first) + Concat(last)), r);
  }

  lemma ArchiveBounded(pre: bytes, first: seq<Header>, last: seq<Header>, r: End, maxEntries: nat)
    requires AllFit(first) && AllFit(last) && EndFits(r)
    ensures
      var data := Archive(pre, first, last, EndRecord(r));
      && |pre| + |Concat(first)| <= |data|
      && (Bounded(data, |pre|, maxEntries) <==>
           |first| + |last| <= maxEntries && |Concat(first)| + |Concat(last)| <= 64 * 1024 * 1024)
      && (Bounded(data, |pre| + |Concat(first)|, maxEntries) <==> |last| <= maxEntries && |Concat(last)| <= 64 * 1024 * 1024)
  {
    hide EndRecord, Concat, EndFits, Unmarked, Bounded;
    var end := EndRecord(r);
    var data := Archive(pre, first, last, end);
    EndIsNoHeader(pre + (Concat(first) + Concat(last)), r);
    ConcatAdds(first, last);
    WrittenBounded(pre, first + last, end, maxEntries);
    assert data == (pre + Concat(first)) + Concat(last) + end;
    WrittenBounded(pre + Concat(first), last, end, maxEntries);
  }

  /** A header whose declared lengths reach past the end of the data is cut off, and so
      reported as a bad format unless a limit was exceeded before it. */
  lemma CutOffHeader(pre: bytes, hs: seq<Header>, h: Header, n: nat, maxEntries: nat)
    requires AllFit(hs) && HeaderFits(h) && 46 <= n < 46 + |h.name| + |h.extra| + |h.comment| && n <= |HeaderBytes(h)|
    ensures
      var data := pre + Concat(hs) + HeaderBytes(h)[..n];
      && !Bounded(data, |pre|, maxEntries)
      && (CutOff(data, |pre|, maxEntries) <==> |hs| < maxEntries && |Concat(hs)| <= 64 * 1024 * 1024)
  {
    hide HeaderBytes, Concat, Walk, WalkEnd, AllFit, HeaderFits;
    WalksToCut(pre, hs, h, n);
  }

  lemma {:induction false} WalksToCut(pre: bytes, hs: seq<Header>, h: Header, n: nat)
    requires AllFit(hs) && HeaderFits(h) && 46 <= n < 46 + |h.name| + |h.extra| + |h.comment| && n <= |HeaderBytes(h)|
    ensures
      var data := pre + Concat(hs) + HeaderBytes(h)[..n];
      && |Walk(data, |pre|)| == |hs| && WalkEnd(data, |pre|) == |pre| + |Concat(hs)|
      && AtHeader(data, |pre| + |Concat(hs)|)
    decreases |hs|
  {
    hide Little, HeaderBytes, U32, U16, HeaderFits;
    var cut := HeaderBytes(h)[..n];
    if hs == [] {
      CutReads(pre, h, n);
      assert pre + Concat(hs) + cut == pre + cut;
    } else {
      var b, rest := HeaderBytes(hs[0]), hs[1..];
      assert pre + Concat(hs) + cut == pre + b + (Concat(rest) + cut);
      HeaderInside(pre, hs[0], Concat(rest) + cut);
      assert pre + Concat(hs) + cut == (pre + b) + Concat(rest) + cut;
      WalksToCut(pre + b, rest, h, n);
    }
  }

  lemma CutReads(pre: bytes, h: Header, n: nat)
    requires HeaderFits(h) && 46 <= n < 46 + |h.name| + |h.extra| + |h.comment| && n <= |HeaderBytes(h)|
    ensures
      var data := pre + HeaderBytes(h)[..n];
      AtHeader(data, |pre|) && !WholeHeader(data, |pre|)
  {
    hide Little, Capacity, HeaderBytes;
    HeaderReads(h);
    var b := HeaderBytes(h);
    var cut := b[..n];
    assert b == [] + cut + b[n..] && pre + cut == pre + cut + [];
    LittleInside(pre, cut, [], 0, 4);
    LittleInside(pre, cut, [], 28, 2);
    LittleInside(pre, cut, [], 30, 2);
    LittleInside(pre, cut, [], 32, 2);
    LittleInside([], cut, b[n..], 0, 4);
    LittleInside([], cut, b[n..], 28, 2);
    LittleInside([], cut, b[n..], 30, 2);
    LittleInside([], cut, b[n..], 32, 2);
  }

  /** Preflight is exact on written archives: both the headers that the declared size covers
      and those that the declared offset leads to count. With as many records as declared,
      the archive is accepted if and only if there are at most `maxEntries` headers from
      the offset on, in at most 64 MiB. */
  lemma WrittenArchiveAccepted(pre: bytes, first: seq<Header>, last: seq<Header>, r: End, maxEntries: nat)
    requires AllFit(first) && AllFit(last) && EndFits(r) && LastOfItsKind(r) && !Defers(r)
    requires r.size == |Concat(last)| && r.offset == |pre|
    ensures
      var data := Archive(pre, first, last, EndRecord(r));
      var d := DirectoryOf(data);
      d.Ok? && (Accepts(data, d.value, maxEntries) <==>
        && r.records <= maxEntries && |first| + |last| <= maxEntries
        && |Concat(first)| + |Concat(last)| <= 64 * 1024 * 1024)
  {
    hide EndRecord, DirectoryOf, Concat, LastOfItsKind, EndFits, Bounded, Archive;
    ArchiveFound(pre, first, last, r);
    ArchiveBounded(pre, first, last, r, maxEntries);
  }
}
