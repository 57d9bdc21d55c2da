/** The ZIP directory preflight of internal/zip.go: the backward search for the end
    record (PKWARE APPNOTE sections 4.3.14 to 4.3.16) and the bounded walk over the
    central headers (section 4.3.12). Methods work on 64-bit integers, so that every
    conversion and sum of the source is shown to be in range. */
module ZipDirectory {
  import opened Bytes

  newtype int64 = x: int | -0x8000_0000_0000_0000 <= x < 0x8000_0000_0000_0000
  newtype uint64 = x: int | 0 <= x < 0x1_0000_0000_0000_0000

  const MAX_DIRECTORY_BYTES: nat := 0x400_0000
  const END_LEN: nat := 22
  const HEADER_LEN: nat := 46
  const END_SIGNATURE: nat := 0x06054b50
  const LOCATOR_SIGNATURE: nat := 0x07064b50
  const ZIP64_SIGNATURE: nat := 0x06064b50
  const HEADER_SIGNATURE: nat := 0x02014b50

  /** No Go allocation is larger than 2^48 bytes. */
  ghost predicate InMemory(data: bytes) {
    |data| <= 0x1_0000_0000_0000
  }

  /** The `width`-byte little-endian integer at `at`. */
  function Little(data: bytes, at: nat, width: nat): (n: nat)
    requires at + width <= |data|
    ensures n < Capacity(width)
    decreases width
  {
    if width == 0 then 0 else data[at] + 256 * Little(data, at + 1, width - 1)
  }

  function U16(data: bytes, at: nat): (n: nat)
    requires at + 2 <= |data|
    ensures n < 0x1_0000
  {
    CapacityOf2();
    Little(data, at, 2)
  }

  function U32(data: bytes, at: nat): (n: nat)
    requires at + 4 <= |data|
    ensures n < 0x1_0000_0000
  {
    CapacityOf4();
    Little(data, at, 4)
  }

  function U64(data: bytes, at: nat): (n: nat)
    requires at + 8 <= |data|
    ensures n < 0x1_0000_0000_0000_0000
  {
    CapacityOf8();
    Little(data, at, 8)
  }

  datatype Failure = BadFormat | OverLimit
  datatype Result<+T> = Ok(value: T) | Err(error: Failure)

  // ----- The end record -----

  /** An end record whose comment fits. */
  predicate IsEnd(data: bytes, i: int) {
    && 0 <= i && i + END_LEN <= |data|
    && U32(data, i) == END_SIGNATURE
    && i + END_LEN + U16(data, i + 20) <= |data|
  }

  /** The search covers the last 65557 bytes. */
  function WindowStart(data: bytes): nat {
    if |data| < 65557 then 0 else |data| - 65557
  }

  /** `e` is the greatest index in the window with an end record. */
  ghost predicate GreatestEnd(data: bytes, e: int) {
    && WindowStart(data) <= e && IsEnd(data, e)
    && forall j :: e < j <= |data| - END_LEN ==> !IsEnd(data, j)
  }

  ghost predicate NoEnd(data: bytes) {
    forall j :: WindowStart(data) <= j <= |data| - END_LEN ==> !IsEnd(data, j)
  }

  function LastEnd(data: bytes, i: int): (e: int)
    requires i <= |data| - END_LEN
    ensures e == -1 || (WindowStart(data) <= e <= i && IsEnd(data, e))
    ensures forall j :: WindowStart(data) <= j <= i && e < j ==> !IsEnd(data, j)
    decreases i
  {
    if i < WindowStart(data) then -1 else if IsEnd(data, i) then i else LastEnd(data, i - 1)
  }

  /** The index the search is for, or -1. */
  function EndIndex(data: bytes): (e: int)
    ensures if e == -1 then NoEnd(data) else e >= 0 && GreatestEnd(data, e)
  {
    LastEnd(data, |data| - END_LEN)
  }

  /** The backward loop of zipDirectoryEnd. */
  method FindEnd(data: bytes) returns (end: int64)
    requires InMemory(data)
    ensures end as int == EndIndex(data)
    ensures if end == -1 then NoEnd(data) else end >= 0 && GreatestEnd(data, end as int)
  {
    if |data| < END_LEN {
      return -1;
    }
    var start: int64 := |data| as int64 - 65557;
    if start < 0 {
      start := 0;
    }
    var i: int64 := |data| as int64 - 22;
    while i >= start
      invariant start - 1 <= i <= |data| as int64 - 22
      invariant EndIndex(data) == LastEnd(data, i as int)
    {
      if U32(data, i as int) == END_SIGNATURE && i + 22 + U16(data, i as int + 20) as int64 <= |data| as int64 {
        return i;
      }
      i := i - 1;
    }
    return -1;
  }

  /** Where the directory ends, its size, its declared offset and its record count. */
  datatype Directory = Directory(end: nat, size: nat, offset: nat, records: nat)

  /** A Zip64 locator for a single-disk archive right before the end record. */
  predicate HasLocator(data: bytes, e: nat)
    requires IsEnd(data, e)
  {
    e >= 20 && U32(data, e - 20) == LOCATOR_SIGNATURE && U32(data, e - 16) == 0 && U32(data, e - 4) == 1
  }

  predicate WantsZip64(records: nat, size: nat, offset: nat) {
    records == 0xffff || size == 0xffff || offset == 0xffffffff
  }

  /** What the end record at `e` says, directly or through its Zip64 record. */
  function DirectoryAt(data: bytes, e: nat): Result<Directory>
    requires IsEnd(data, e)
  {
    var records, size, offset := U16(data, e + 10), U32(data, e + 12), U32(data, e + 16);
    if !WantsZip64(records, size, offset) || !HasLocator(data, e) then Ok(Directory(e, size, offset, records)) else
    var z := U64(data, e - 12);
    if z + 76 > e || U32(data, z) != ZIP64_SIGNATURE then Err(BadFormat)
    else Ok(Directory(z, U64(data, z + 40), U64(data, z + 48), U64(data, z + 32)))
  }

  function DirectoryOf(data: bytes): (r: Result<Directory>)
    ensures if r.Ok? then r.value.end <= |data| else r.error == BadFormat
  {
    if EndIndex(data) < 0 then Err(BadFormat) else DirectoryAt(data, EndIndex(data))
  }

  /** zipDirectoryEnd: every read and conversion is in range for every input. */
  method ZipDirectoryEnd(data: bytes) returns (r: Result<(int64, uint64, uint64, uint64)>)
    requires InMemory(data)
    ensures r.Err? ==> DirectoryOf(data) == Err(r.error)
    ensures r.Ok? ==> r.value.0 >= 0
    ensures r.Ok? ==> DirectoryOf(data) == Ok(Directory(r.value.0 as int, r.value.1 as int, r.value.2 as int, r.value.3 as int))
  {
    hide EndIndex, Little;
    var end := FindEnd(data);
    if end < 0 {
      return Err(BadFormat);
    }
    var records: uint64 := U16(data, end as int + 10) as uint64;
    var size: uint64 := U32(data, end as int + 12) as uint64;
    var offset: uint64 := U32(data, end as int + 16) as uint64;
    if records != 0xffff && size != 0xffff && offset != 0xffffffff {
      return Ok((end, size, offset, records));
    }
    var locator: int64 := end - 20;
    if locator < 0 || U32(data, locator as int) != LOCATOR_SIGNATURE
       || U32(data, locator as int + 4) != 0 || U32(data, locator as int + 16) != 1 {
      return Ok((end, size, offset, records));
    }
    var zip64Offset: uint64 := U64(data, locator as int + 8) as uint64;
    if locator < 56 || zip64Offset > (locator - 56) as uint64 {
      return Err(BadFormat);
    }
    var zip64End: int64 := zip64Offset as int64;
    if U32(data, zip64End as int) != ZIP64_SIGNATURE {
      return Err(BadFormat);
    }
    return Ok((zip64End, U64(data, zip64End as int + 40) as uint64,
               U64(data, zip64End as int + 48) as uint64, U64(data, zip64End as int + 32) as uint64));
  }

  // ----- The walk over central headers -----

  predicate AtHeader(data: bytes, p: nat) {
    p + HEADER_LEN <= |data| && U32(data, p) == HEADER_SIGNATURE
  }

  function HeaderSize(data: bytes, p: nat): (n: nat)
    requires AtHeader(data, p)
    ensures HEADER_LEN <= n < 200_000
  {
    HEADER_LEN + U16(data, p + 28) + U16(data, p + 30) + U16(data, p + 32)
  }

  predicate WholeHeader(data: bytes, p: nat) {
    AtHeader(data, p) && p + HeaderSize(data, p) <= |data|
  }

  /** The consecutive whole headers from `p` on, as the archive reader meets them. */
  function Walk(data: bytes, p: nat): seq<nat>
    requires p <= |data|
    decreases |data| - p
  {
    if WholeHeader(data, p) then [p] + Walk(data, p + HeaderSize(data, p)) else []
  }

  /** Where that walk stops. */
  function WalkEnd(data: bytes, p: nat): (q: nat)
    requires p <= |data|
    ensures p <= q <= |data| && !WholeHeader(data, q)
    decreases |data| - p
  {
    if WholeHeader(data, p) then WalkEnd(data, p + HeaderSize(data, p)) else p
  }

  /** The walk is short, spans little and does not stop at a cut-off header. */
  predicate Bounded(data: bytes, p: nat, maxEntries: nat)
    requires p <= |data|
  {
    && |Walk(data, p)| <= maxEntries
    && WalkEnd(data, p) - p <= MAX_DIRECTORY_BYTES
    && !AtHeader(data, WalkEnd(data, p))
  }

  /** The walk stays within the limits and ends in a header that is not all there. */
  predicate CutOff(data: bytes, start: nat, maxEntries: nat)
    requires start <= |data|
  {
    && |Walk(data, start)| < maxEntries
    && WalkEnd(data, start) - start <= MAX_DIRECTORY_BYTES
    && AtHeader(data, WalkEnd(data, start))
  }

  /** scanZipDirectory accepts exactly the bounded walks, and tells a cut-off header
      from an exceeded limit. */
  method ScanZipDirectory(data: bytes, start: int64, maxEntries: int64) returns (error: Option<Failure>)
    requires InMemory(data) && 0 <= start as int <= |data| && maxEntries >= 0
    ensures error.None? <==> Bounded(data, start as nat, maxEntries as nat)
    ensures error == Some(BadFormat) <==> CutOff(data, start as nat, maxEntries as nat)
  {
    var entries: int64 := 0;
    var pos := start;
    var len := |data| as int64;
    while pos < len
      invariant start <= pos <= len && pos - start <= 0x400_0000
      invariant 0 <= entries <= maxEntries
      invariant entries as int + |Walk(data, pos as nat)| == |Walk(data, start as nat)|
      invariant WalkEnd(data, pos as nat) == WalkEnd(data, start as nat)
      decreases len - pos
    {
      if len - pos < 46 {
        return None;
      }
      if U32(data, pos as int) != HEADER_SIGNATURE {
        return None;
      }
      if entries >= maxEntries {
        return Some(OverLimit);
      }
      var variableLen := U16(data, pos as int + 28) as int64 + U16(data, pos as int + 30) as int64
                       + U16(data, pos as int + 32) as int64;
      if 46 + variableLen > len - pos {
        return Some(BadFormat);
      }
      pos := pos + 46 + variableLen;
      if pos - start > 0x400_0000 {
        return Some(OverLimit);
      }
      entries := entries + 1;
    }
    return None;
  }

  /** Everything preflight demands of the directory it found. */
  ghost predicate Accepts(data: bytes, d: Directory, maxEntries: nat) {
    && d.records <= maxEntries && d.size <= MAX_DIRECTORY_BYTES && d.size <= d.end <= |data|
    && Bounded(data, d.end - d.size, maxEntries)
    && (d.offset < d.end - d.size ==> Bounded(data, d.offset, maxEntries))
  }

  /** A directory within the limits that does not lie before its end, or whose headers
      are cut off. */
  ghost predicate Malformed(data: bytes, d: Directory, maxEntries: nat) {
    && d.records <= maxEntries && d.size <= MAX_DIRECTORY_BYTES && d.end <= |data|
    && (|| d.size > d.end
        || CutOff(data, d.end - d.size, maxEntries)
        || (Bounded(data, d.end - d.size, maxEntries) && d.offset < d.end - d.size && CutOff(data, d.offset, maxEntries)))
  }

  /** preflightZipDirectory succeeds exactly when the archive has an acceptable
      directory: the walks from end-minus-size, and from the declared offset when
      that is lower, are bounded by `maxEntries` headers and 64 MiB. It reports a bad
      format exactly when there is no directory or its headers are cut off. */
  method PreflightZipDirectory(data: bytes, maxEntries: int64) returns (error: Option<Failure>)
    requires InMemory(data) && maxEntries >= 0
    ensures error.None? <==> DirectoryOf(data).Ok? && Accepts(data, DirectoryOf(data).value, maxEntries as nat)
    ensures error == Some(BadFormat) <==> DirectoryOf(data).Err? || Malformed(data, DirectoryOf(data).value, maxEntries as nat)
  {
    hide DirectoryOf, Bounded, CutOff;
    var r := ZipDirectoryEnd(data);
    if r.Err? {
      return Some(r.error);
    }
    var (end, directorySize, directoryOffset, records) := r.value;
    if records > maxEntries as uint64 || directorySize > 0x400_0000 {
      return Some(OverLimit);
    }
    if directorySize > end as uint64 {
      return Some(BadFormat);
    }
    var start := end - directorySize as int64;
    error := ScanZipDirectory(data, start, maxEntries);
    if error.Some? {
      return;
    }
    if directoryOffset < start as uint64 && directoryOffset < |data| as uint64 {
      error := ScanZipDirectory(data, directoryOffset as int64, maxEntries);
    }
  }
}
