/**
 The ZIP preflight (internal/updater/zip_limits.go): before a release archive is
 opened, its central directory is walked in place, from both of the offsets that
 the ZIP reader may choose, and refused if either walk meets too many records.
 Record layouts are those of sections 4.3.12 and 4.3.14 to 4.3.16 of the PKWARE
 APPNOTE.TXT.
 */
module Zip {

  import opened Octets

  datatype Verdict = Accepted | BadFormat | TooMany

  datatype Directory = Missing | Directory(records: nat, size: nat, offset: nat, end: nat)

  const END_RECORD := 0x06054b50
  const END_RECORD_64 := 0x06064b50
  const LOCATOR_64 := 0x07064b50
  const FILE_HEADER := 0x02014b50
  const SEARCHED := 65 * 1024

  // ---------------------------------------------------------------- little-endian numbers

  function U16(s: Bytes, i: nat): nat
    requires i + 2 <= |s|
  {
    s[i] as int + 0x100 * s[i + 1] as int
  }

  function U32(s: Bytes, i: nat): nat
    requires i + 4 <= |s|
  {
    U16(s, i) + 0x1_0000 * U16(s, i + 2)
  }

  function U64(s: Bytes, i: nat): nat
    requires i + 8 <= |s|
  {
    U32(s, i) + 0x1_0000_0000 * U32(s, i + 4)
  }

  // ---------------------------------------------------------------- one walk

  predicate AtRecord(s: Bytes, i: nat) { i + 4 <= |s| && U32(s, i) == FILE_HEADER }

  function RecordLength(s: Bytes, i: nat): nat
    requires i + 46 <= |s|
  {
    46 + U16(s, i + 28) + U16(s, i + 30) + U16(s, i + 32)
  }

  /** The record at i lies within the archive. */
  predicate Whole(s: Bytes, i: nat) { i + 46 <= |s| && i + RecordLength(s, i) <= |s| }

  /** From i there are n whole records one after the other, and then none. */
  ghost predicate Chain(s: Bytes, i: nat, n: nat)
    decreases n
  {
    if n == 0 then !AtRecord(s, i) else AtRecord(s, i) && Whole(s, i) && Chain(s, i + RecordLength(s, i), n - 1)
  }

  ghost predicate ChainsAtMost(s: Bytes, i: nat, most: nat) { exists n: nat :: n <= most && Chain(s, i, n) }

  ghost function Counted(s: Bytes, i: nat, most: nat): Verdict
    decreases |s| - i
  {
    if !AtRecord(s, i) then Accepted else
    if most == 0 then TooMany else
    if !Whole(s, i) then BadFormat else
    Counted(s, i + RecordLength(s, i), most - 1)
  }

  method CountZipDirectory(content: Bytes, start: nat, maxEntries: nat) returns (r: Verdict)
    ensures r == Counted(content, start, maxEntries)
  {
    var position, count := start, 0;
    while position <= |content| - 4 && U32(content, position) == FILE_HEADER
      invariant count <= maxEntries
      invariant Counted(content, start, maxEntries) == Counted(content, position, maxEntries - count)
      decreases |content| - position
    {
      if count >= maxEntries {
        return TooMany;
      }
      if position > |content| - 46 {
        return BadFormat;
      }
      var length := 46 + U16(content, position + 28) + U16(content, position + 30) + U16(content, position + 32);
      if length > |content| - position {
        return BadFormat;
      }
      position, count := position + length, count + 1;
    }
    r := Accepted;
  }

  /** A walk is accepted exactly if it meets at most so many records, all of them whole. */
  lemma {:induction false} CountedIff(s: Bytes, i: nat, most: nat)
    ensures Counted(s, i, most) == Accepted <==> ChainsAtMost(s, i, most)
    decreases most
  {
    if !AtRecord(s, i) {
      assert Chain(s, i, 0);
    } else if most > 0 && Whole(s, i) {
      var next := i + RecordLength(s, i);
      CountedIff(s, next, most - 1);
      if n: nat :| n <= most - 1 && Chain(s, next, n) {
        assert Chain(s, i, n + 1);
      }
      if n: nat :| n <= most && Chain(s, i, n) {
        assert Chain(s, next, n - 1);
      }
    }
  }

  // ---------------------------------------------------------------- finding the directory

  ghost predicate IsEnd(s: Bytes, i: nat) {
    && i + 22 <= |s| <= i + SEARCHED && U32(s, i) == END_RECORD
    && forall j :: i < j <= |s| - 22 ==> U32(s, j) != END_RECORD
  }

  lemma EndUnique(s: Bytes, i: nat, j: nat)
    requires IsEnd(s, i) && IsEnd(s, j)
    ensures i == j
  {
  }

  /** The zip64 record that an end record with overflowing fields may point to. */
  function Wide(s: Bytes, end: nat): Directory
    requires 20 <= end <= |s|
  {
    var position := U64(s, end - 12);
    if U32(s, end - 16) != 0 || U32(s, end - 4) != 1 || position + 56 > |s| || U32(s, position) != END_RECORD_64
    then Missing else
    Directory(U64(s, position + 32), U64(s, position + 40), U64(s, position + 48), position)
  }

  function Declared(s: Bytes, end: nat): Directory
    requires end + 22 <= |s|
  {
    if U16(s, end + 20) > |s| - end - 22 then Missing else
    var d := Directory(U16(s, end + 10), U32(s, end + 12), U32(s, end + 16), end);
    var overflowing := d.records == 0xffff || d.size == 0xffff_ffff || d.offset == 0xffff_ffff;
    if overflowing && end >= 20 && U32(s, end - 20) == LOCATOR_64 then Wide(s, end) else d
  }

  ghost function Found(s: Bytes): Directory {
    if end: nat :| IsEnd(s, end) then Declared(s, end) else Missing
  }

  ghost function Judged(s: Bytes, most: nat): Verdict {
    var d := Found(s);
    if d.Missing? then BadFormat else
    if d.records > most then TooMany else
    if d.size > d.end || d.offset > |s| then BadFormat else
    var derived := Counted(s, d.end - d.size, most);
    if derived != Accepted then derived else Counted(s, d.offset, most)
  }

  /** Look backwards for the end record. */
  method FindEnd(content: Bytes) returns (end: int)
    ensures end < 0 ==> forall i: nat :: !IsEnd(content, i)
    ensures end >= 0 ==> IsEnd(content, end)
  {
    var minimum := if |content| - SEARCHED > 0 then |content| - SEARCHED else 0;
    var i := |content| - 22;
    while i >= minimum
      invariant i <= |content| - 22
      invariant forall j :: i < j <= |content| - 22 && j >= minimum ==> U32(content, j) != END_RECORD
    {
      if U32(content, i) == END_RECORD {
        return i;
      }
      i := i - 1;
    }
    end := -1;
  }

  /** The fields of the zip64 record, if the locator leads to one. */
  method ReadWide(content: Bytes, locator: nat) returns (d: Directory)
    requires locator + 20 <= |content|
    ensures d == Wide(content, locator + 20)
  {
    if U32(content, locator + 4) != 0 || U32(content, locator + 16) != 1 {
      return Missing;
    }
    var position := U64(content, locator + 8);
    if |content| < 56 || position > |content| - 56 {
      return Missing;
    }
    if U32(content, position) != END_RECORD_64 {
      return Missing;
    }
    d := Directory(U64(content, position + 32), U64(content, position + 40), U64(content, position + 48), position);
  }

  method ReadDirectory(content: Bytes, end: nat) returns (d: Directory)
    requires end + 22 <= |content|
    ensures d == Declared(content, end)
  {
    if U16(content, end + 20) > |content| - end - 22 {
      return Missing;
    }
    d := Directory(U16(content, end + 10), U32(content, end + 12), U32(content, end + 16), end);
    if d.records == 0xffff || d.size == 0xffff_ffff || d.offset == 0xffff_ffff {
      var locator := end - 20;
      if locator >= 0 && U32(content, locator) == LOCATOR_64 {
        d := ReadWide(content, locator);
      }
    }
  }

  method PreflightZipDirectory(content: Bytes, maxEntries: nat) returns (r: Verdict)
    ensures r == Judged(content, maxEntries)
  {
    var end := FindEnd(content);
    if end < 0 {
      return BadFormat;
    }
    FoundIs(content, end);
    var d := ReadDirectory(content, end);
    if d.Missing? {
      return BadFormat;
    }
    if d.records > maxEntries {
      return TooMany;
    }
    if d.size > d.end || d.offset > |content| {
      return BadFormat;
    }
    var start := d.end - d.size;
    r := CountZipDirectory(content, start, maxEntries);
    if r != Accepted {
      return;
    }
    if d.offset != start {
      r := CountZipDirectory(content, d.offset, maxEntries);
    }
  }

  lemma FoundIs(s: Bytes, end: nat)
    requires IsEnd(s, end)
    ensures Found(s) == Declared(s, end)
  {
    forall other: nat | IsEnd(s, other) ensures other == end {
      EndUnique(s, other, end);
    }
  }

  /** Accepted exactly if a directory is declared, within bounds, and both walks meet at most so many records. */
  lemma AcceptedIff(s: Bytes, most: nat)
    ensures Judged(s, most) == Accepted <==>
            && Found(s).Directory? && Found(s).records <= most && Found(s).size <= Found(s).end
               && Found(s).offset <= |s|
            && ChainsAtMost(s, Found(s).end - Found(s).size, most) && ChainsAtMost(s, Found(s).offset, most)
  {
    var d := Found(s);
    if d.Directory? && d.size <= d.end {
      CountedIff(s, d.end - d.size, most);
      CountedIff(s, d.offset, most);
    }
  }

  // ---------------------------------------------------------------- well-formed archives

  /** "PK" and two more bytes. */
  predicate Starts(s: Bytes, a: byte, b: byte) { |s| >= 4 && s[0] == 0x50 && s[1] == 0x4b && s[2] == a && s[3] == b }

  /** Two, four and eight bytes, the lowest first. */
  function Two(s: Bytes, i: nat): nat
    requires i + 2 <= |s|
  {
    s[i] as int + 256 * s[i + 1] as int
  }

  function Four(s: Bytes, i: nat): nat
    requires i + 4 <= |s|
  {
    s[i] as int + 256 * s[i + 1] as int + 65536 * s[i + 2] as int + 16777216 * s[i + 3] as int
  }

  function Eight(s: Bytes, i: nat): nat
    requires i + 8 <= |s|
  {
    Four(s, i) + 4294967296 * Four(s, i + 4)
  }

  lemma NumbersAre(s: Bytes, i: nat)
    requires i + 2 <= |s|
    ensures U16(s, i) == Two(s, i)
    ensures i + 4 <= |s| ==> U32(s, i) == Four(s, i)
    ensures i + 8 <= |s| ==> U64(s, i) == Eight(s, i)
  {
  }

  lemma SignatureIs(s: Bytes, a: byte, b: byte)
    requires |s| >= 4
    ensures U32(s, 0) == 0x4b50 + 0x1_0000 * a as int + 0x100_0000 * b as int <==> Starts(s, a, b)
  {
    assert U16(s, 0) == 0x4b50 <==> s[0] == 0x50 && s[1] == 0x4b;
  }

  /** A central directory record: its signature, its fixed fields, and as many more bytes as they announce. */
  predicate IsRecord(r: Bytes) { |r| >= 46 && Starts(r, 1, 2) && |r| == 46 + Two(r, 28) + Two(r, 30) + Two(r, 32) }

  function Flat(records: seq<Bytes>): Bytes { if records == [] then [] else records[0] + Flat(records[1..]) }

  /** An end record for n records in `size` bytes at `offset`, all too small for zip64, and a comment. */
  predicate IsEndRecord(e: Bytes, n: nat, size: nat, offset: nat, comment: Bytes) {
    && |e| == 22 && Starts(e, 5, 6) && Two(e, 20) == |comment|
    && Two(e, 10) == n < 65535 && Four(e, 12) == size < 4294967295 && Four(e, 16) == offset < 4294967295
  }

  /** No other end record could start later. */
  predicate LastEnd(tail: Bytes) { forall j :: 0 < j <= |tail| - 22 ==> !Starts(tail[j..], 5, 6) }

  predicate AllRecords(records: seq<Bytes>) { forall k :: 0 <= k < |records| ==> IsRecord(records[k]) }

  predicate IsArchive(files: Bytes, records: seq<Bytes>, end: Bytes, comment: Bytes) {
    && AllRecords(records) && IsEndRecord(end, |records|, |Flat(records)|, |files|, comment) && LastEnd(end + comment)
  }

  /** Reading inside a part of an archive. */
  lemma ReadsPart(pre: Bytes, part: Bytes, post: Bytes, i: nat)
    requires i + 2 <= |part|
    ensures U16(pre + part + post, |pre| + i) == U16(part, i)
    ensures i + 4 <= |part| ==> U32(pre + part + post, |pre| + i) == U32(part, i)
  {
  }

  lemma {:induction false} RecordsChain(pre: Bytes, records: seq<Bytes>, post: Bytes)
    requires AllRecords(records) && |post| >= 4 && U32(post, 0) != FILE_HEADER
    ensures Chain(pre + Flat(records) + post, |pre|, |records|)
    decreases |records|
  {
    var s := pre + Flat(records) + post;
    if records == [] {
      assert s == pre + post + [];
      ReadsPart(pre, post, [], 0);
    } else {
      var r, rest := records[0], Flat(records[1..]) + post;
      assert s == pre + r + rest;
      RecordRead(pre, r, rest);
      RecordsChain(pre + r, records[1..], post);
      assert s == (pre + r) + Flat(records[1..]) + post;
    }
  }

  /** A record is read as such wherever it stands. */
  lemma RecordRead(pre: Bytes, r: Bytes, rest: Bytes)
    requires IsRecord(r)
    ensures var s := pre + r + rest; AtRecord(s, |pre|) && Whole(s, |pre|) && RecordLength(s, |pre|) == |r|
  {
    SignatureIs(r, 1, 2);
    ReadsPart(pre, r, rest, 0);
    ReadsPart(pre, r, rest, 28);
    ReadsPart(pre, r, rest, 30);
    ReadsPart(pre, r, rest, 32);
  }

  /** A walk has one length. */
  lemma {:induction false} ChainUnique(s: Bytes, i: nat, m: nat, n: nat)
    requires Chain(s, i, m) && Chain(s, i, n)
    ensures m == n
    decreases m
  {
    if m > 0 && n > 0 {
      ChainUnique(s, i + RecordLength(s, i), m - 1, n - 1);
    }
  }

  /** A walk over n whole records is accepted under exactly the limits that allow n. */
  lemma AcceptedFrom(s: Bytes, i: nat, n: nat, most: nat)
    requires Chain(s, i, n)
    ensures Counted(s, i, most) == Accepted <==> n <= most
  {
    CountedIff(s, i, most);
    if m: nat :| m <= most && Chain(s, i, m) {
      ChainUnique(s, i, m, n);
    }
  }

  /** The last end record is found where it is, whatever stands before it. */
  lemma EndIsFound(pre: Bytes, tail: Bytes)
    requires |tail| >= 22 && Starts(tail, 5, 6) && LastEnd(tail) && |tail| <= SEARCHED
    ensures IsEnd(pre + tail, |pre|)
  {
    var s := pre + tail;
    SignatureIs(tail, 5, 6);
    ReadsPart(pre, tail, [], 0);
    assert s == pre + tail + [];
    forall j | |pre| < j <= |s| - 22 ensures U32(s, j) != END_RECORD {
      var k := j - |pre|;
      ReadsPart(pre, tail, [], k);
      assert !Starts(tail[k..], 5, 6);
      SignatureIs(tail[k..], 5, 6);
      assert U32(tail[k..], 0) == U32(tail, k);
    }
  }

  lemma ArchiveFound(files: Bytes, records: seq<Bytes>, end: Bytes, comment: Bytes)
    requires IsArchive(files, records, end, comment)
    ensures var s := files + Flat(records) + (end + comment);
            Found(s) == Directory(|records|, |Flat(records)|, |files|, |files + Flat(records)|)
  {
    var pre, tail := files + Flat(records), end + comment;
    EndIsFound(pre, tail);
    FoundIs(pre + tail, |pre|);
    EndFieldsRead(pre, end, comment);
  }

  lemma EndFieldsRead(pre: Bytes, end: Bytes, comment: Bytes)
    requires |end| == 22
    ensures var s := pre + (end + comment);
            && U16(s, |pre| + 10) == Two(end, 10) && U32(s, |pre| + 12) == Four(end, 12)
            && U32(s, |pre| + 16) == Four(end, 16) && U16(s, |pre| + 20) == Two(end, 20)
  {
    assert pre + (end + comment) == pre + end + comment;
    ReadsPart(pre, end, comment, 10);
    ReadsPart(pre, end, comment, 12);
    ReadsPart(pre, end, comment, 16);
    ReadsPart(pre, end, comment, 20);
  }

  /** The walk from the first record of an archive, up to what is not one. */
  lemma RecordsCounted(pre: Bytes, records: seq<Bytes>, post: Bytes, most: nat)
    requires AllRecords(records) && |post| >= 4 && !Starts(post, 1, 2)
    ensures Counted(pre + Flat(records) + post, |pre|, most) == Accepted <==> |records| <= most
  {
    SignatureIs(post, 1, 2);
    RecordsChain(pre, records, post);
    AcceptedFrom(pre + Flat(records) + post, |pre|, |records|, most);
  }

  /**
   A well-formed archive is accepted exactly if it has at most so many entries, and refused as too
   large otherwise.
   */
  lemma WellFormedIff(files: Bytes, records: seq<Bytes>, end: Bytes, comment: Bytes, most: nat)
    requires IsArchive(files, records, end, comment)
    ensures Judged(files + Flat(records) + (end + comment), most) == if |records| <= most then Accepted else TooMany
  {
    ArchiveFound(files, records, end, comment);
    RecordsCounted(files, records, end + comment, most);
    OneWalk(files + Flat(records) + (end + comment), most);
  }

  // ---------------------------------------------------------------- archives with a zip64 record

  /** A zip64 end record for n records in `size` bytes at `offset`. */
  predicate IsWideRecord(w: Bytes, n: nat, size: nat, offset: nat) {
    |w| == 56 && Starts(w, 6, 6) && Eight(w, 32) == n && Eight(w, 40) == size && Eight(w, 48) == offset
  }

  /** Its locator: on the first disk, of one. */
  predicate IsLocator(l: Bytes, position: nat) {
    |l| == 20 && Starts(l, 6, 7) && Four(l, 4) == 0 && Eight(l, 8) == position && Four(l, 16) == 1
  }

  /** An end record that says that the numbers are elsewhere. */
  predicate IsMarker(e: Bytes, comment: Bytes) {
    && |e| == 22 && Starts(e, 5, 6) && Two(e, 20) == |comment|
    && (Two(e, 10) == 65535 || Four(e, 12) == 4294967295 || Four(e, 16) == 4294967295)
  }

  predicate IsWideArchive(files: Bytes, records: seq<Bytes>, wide: Bytes, locator: Bytes, end: Bytes, comment: Bytes) {
    && AllRecords(records) && IsWideRecord(wide, |records|, |Flat(records)|, |files|)
    && IsLocator(locator, |files + Flat(records)|) && IsMarker(end, comment) && LastEnd(end + comment)
  }

  lemma LocatorRead(pre: Bytes, locator: Bytes, post: Bytes)
    requires |locator| == 20
    ensures var s, i := pre + locator + post, |pre|;
            && U32(s, i) == U32(locator, 0) && U32(s, i + 4) == Four(locator, 4)
            && U64(s, i + 8) == Eight(locator, 8) && U32(s, i + 16) == Four(locator, 16)
  {
    ReadsPart(pre, locator, post, 0);
    ReadsPart(pre, locator, post, 4);
    ReadsPart(pre, locator, post, 8);
    ReadsPart(pre, locator, post, 12);
    ReadsPart(pre, locator, post, 16);
  }

  lemma WideRead(pre: Bytes, wide: Bytes, post: Bytes)
    requires |wide| == 56
    ensures var s, i := pre + wide + post, |pre|;
            && U32(s, i) == U32(wide, 0) && U64(s, i + 32) == Eight(wide, 32)
            && U64(s, i + 40) == Eight(wide, 40) && U64(s, i + 48) == Eight(wide, 48)
  {
    ReadsPart(pre, wide, post, 0);
    ReadsPart(pre, wide, post, 32);
    ReadsPart(pre, wide, post, 36);
    ReadsPart(pre, wide, post, 40);
    ReadsPart(pre, wide, post, 44);
    ReadsPart(pre, wide, post, 48);
    ReadsPart(pre, wide, post, 52);
  }

  /** What stands behind the locator is the directory that the archive declares. */
  lemma WideIs(body: Bytes, wide: Bytes, locator: Bytes, tail: Bytes, n: nat, size: nat, offset: nat)
    requires IsWideRecord(wide, n, size, offset) && IsLocator(locator, |body|) && |tail| >= 22
    ensures var s, end := body + wide + locator + tail, |body| + 76;
            && U32(s, end - 20) == LOCATOR_64
            && Wide(s, end) == Directory(n, size, offset, |body|)
  {
    var s := body + wide + locator + tail;
    LocatorRead(body + wide, locator, tail);
    SignatureIs(locator, 6, 7);
    SignatureIs(wide, 6, 6);
    assert s == body + wide + (locator + tail);
    WideRead(body, wide, locator + tail);
  }

  lemma MarkedIsWide(s: Bytes, end: nat)
    requires 20 <= end && end + 22 <= |s| && U16(s, end + 20) <= |s| - end - 22 && U32(s, end - 20) == LOCATOR_64
    requires U16(s, end + 10) == 0xffff || U32(s, end + 12) == 0xffff_ffff || U32(s, end + 16) == 0xffff_ffff
    ensures Declared(s, end) == Wide(s, end)
  {
  }

  lemma WideFound(body: Bytes, wide: Bytes, locator: Bytes, end: Bytes, comment: Bytes, n: nat, size: nat, offset: nat)
    requires IsWideRecord(wide, n, size, offset) && IsLocator(locator, |body|)
    requires IsMarker(end, comment) && LastEnd(end + comment)
    ensures Found(body + wide + locator + (end + comment)) == Directory(n, size, offset, |body|)
  {
    var pre, tail := body + wide + locator, end + comment;
    EndIsFound(pre, tail);
    FoundIs(pre + tail, |pre|);
    EndFieldsRead(pre, end, comment);
    WideIs(body, wide, locator, tail, n, size, offset);
    MarkedIsWide(pre + tail, |pre|);
  }

  /** An archive whose numbers are in a zip64 record is accepted exactly under the same limits. */
  lemma WideIff(files: Bytes, records: seq<Bytes>, wide: Bytes, locator: Bytes, end: Bytes, comment: Bytes, most: nat)
    requires IsWideArchive(files, records, wide, locator, end, comment)
    ensures Judged(files + Flat(records) + wide + locator + (end + comment), most) ==
            if |records| <= most then Accepted else TooMany
  {
    var body, post := files + Flat(records), wide + locator + (end + comment);
    var s := body + wide + locator + (end + comment);
    WideFound(body, wide, locator, end, comment, |records|, |Flat(records)|, |files|);
    assert s == body + post;
    RecordsCounted(files, records, post, most);
    OneWalk(s, most);
  }

  /** When both offsets are the same, one walk decides. */
  lemma OneWalk(s: Bytes, most: nat)
    requires Found(s).Directory? && Found(s).size <= Found(s).end
    requires Found(s).offset == Found(s).end - Found(s).size <= |s|
    ensures Judged(s, most) == if Found(s).records > most then TooMany else Counted(s, Found(s).offset, most)
  {
  }

  // ---------------------------------------------------------------- refusals

  /**
   An archive whose last end record announces a longer comment than there is, or which has no end
   record, is refused.
   */
  lemma CutShort(pre: Bytes, tail: Bytes, most: nat)
    requires |tail| >= 22 && Starts(tail, 5, 6) && LastEnd(tail) && |tail| <= SEARCHED && Two(tail, 20) > |tail| - 22
    ensures Judged(pre + tail, most) == BadFormat
  {
    EndIsFound(pre, tail);
    FoundIs(pre + tail, |pre|);
    assert pre + tail == pre + tail + [];
    ReadsPart(pre, tail, [], 20);
  }

  lemma NoEnd(s: Bytes, most: nat)
    requires forall i :: 0 <= i <= |s| - 22 ==> !Starts(s[i..], 5, 6)
    ensures Judged(s, most) == BadFormat
  {
    forall i: nat ensures !IsEnd(s, i) {
      if i + 22 <= |s| {
        SignatureIs(s[i..], 5, 6);
        assert U32(s[i..], 0) == U32(s, i);
      }
    }
  }

  /** A zip64 locator that leads to no zip64 record, or to another disk, is refused. */
  lemma LostRecord(body: Bytes, locator: Bytes, end: Bytes, comment: Bytes, most: nat)
    requires |locator| == 20 && Starts(locator, 6, 7) && IsMarker(end, comment) && LastEnd(end + comment)
    requires var s, p := body + locator + (end + comment), Eight(locator, 8);
             Four(locator, 4) != 0 || Four(locator, 16) != 1 || p + 56 > |s| || !Starts(s[p..], 6, 6)
    ensures Judged(body + locator + (end + comment), most) == BadFormat
  {
    var pre, tail := body + locator, end + comment;
    var s, p := pre + tail, Eight(locator, 8);
    EndIsFound(pre, tail);
    FoundIs(s, |pre|);
    EndFieldsRead(pre, end, comment);
    LocatorRead(body, locator, tail);
    SignatureIs(locator, 6, 7);
    if p + 56 <= |s| {
      SignatureIs(s[p..], 6, 6);
      assert U32(s[p..], 0) == U32(s, p);
    }
  }

  /** A walk that comes to a record that is cut off is refused. */
  lemma CutRecord(pre: Bytes, records: seq<Bytes>, cut: Bytes, most: nat)
    requires AllRecords(records) && Starts(cut, 1, 2)
    requires |cut| < 46 || |cut| < 46 + Two(cut, 28) + Two(cut, 30) + Two(cut, 32)
    ensures Counted(pre + Flat(records) + cut, |pre|, most) != Accepted
    decreases |records|
  {
    var s := pre + Flat(records) + cut;
    if records == [] {
      assert s == pre + cut + [];
      SignatureIs(cut, 1, 2);
      ReadsPart(pre, cut, [], 0);
      if |cut| >= 46 {
        ReadsPart(pre, cut, [], 28);
        ReadsPart(pre, cut, [], 30);
        ReadsPart(pre, cut, [], 32);
      }
    } else if most > 0 {
      var r, rest := records[0], Flat(records[1..]) + cut;
      assert s == pre + r + rest;
      RecordRead(pre, r, rest);
      CutRecord(pre + r, records[1..], cut, most - 1);
      assert s == (pre + r) + Flat(records[1..]) + cut;
    } else {
      var r, rest := records[0], Flat(records[1..]) + cut;
      assert s == pre + r + rest;
      RecordRead(pre, r, rest);
    }
  }
}
