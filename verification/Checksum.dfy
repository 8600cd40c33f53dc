/**
 Looking an asset up in a checksum manifest (internal/updater/checksum.go:91-126),
 and the manifests that the packaging script prints (scripts/package.sh:35).
 */
module Checksum {

  import opened Octets

  const NEWLINE: byte := 10
  const RETURN: byte := 13
  const SPACE: byte := 32
  const STAR: byte := 42

  /** bufio.Scanner gives up on a line that does not fit its buffer together with the newline. */
  const LONGEST_LINE := 64 * 1024 - 1

  /** What strings.TrimSpace leaves nothing of: not a line with a visible ASCII character. */
  ghost predicate Blanks(blank: Bytes -> bool) {
    blank([]) && forall line: Bytes, i :: 0 <= i < |line| && 0x21 <= line[i] <= 0x7e ==> !blank(line)
  }

  // ---------------------------------------------------------------- lines

  function UpToNewline(t: Bytes): (line: Bytes)
    ensures |line| <= |t| && NEWLINE !in line && line == t[..|line|]
    ensures |line| < |t| ==> t[|line|] == NEWLINE
  {
    if t == [] || t[0] == NEWLINE then [] else [t[0]] + UpToNewline(t[1..])
  }

  /** The lines of the text; nothing follows a final newline. */
  function Lines(t: Bytes): seq<Bytes> {
    if t == [] then [] else
    var line := UpToNewline(t);
    [line] + if |line| < |t| then Lines(t[|line| + 1..]) else []
  }

  /** A scanned line has lost one carriage return. */
  function Scanned(line: Bytes): Bytes { if line != [] && line[|line| - 1] == RETURN then line[..|line| - 1] else line }

  // ---------------------------------------------------------------- entries

  function HexValue(b: byte): int {
    if 48 <= b <= 57 then b - 48 else if 97 <= b <= 102 then b - 87 else if 65 <= b <= 70 then b - 55 else -1
  }

  predicate IsHex(s: Bytes) { forall i :: 0 <= i < |s| ==> HexValue(s[i]) >= 0 }

  function Decode(s: Bytes): (d: Bytes)
    requires |s| % 2 == 0 && IsHex(s)
    ensures |d| * 2 == |s|
  {
    if s == [] then [] else [(HexValue(s[0]) * 16 + HexValue(s[1])) as byte] + Decode(s[2..])
  }

  /** A digest in hex, a space, the mode, and a file name. */
  predicate WellFormed(line: Bytes) {
    |line| >= 67 && line[64] == SPACE && (line[65] == SPACE || line[65] == STAR) && IsHex(line[..64])
  }

  function NameOf(line: Bytes): Bytes
    requires WellFormed(line)
  {
    line[66..]
  }

  datatype Found = Digest(bytes: Bytes) | Refused

  /** What must hold of every line. */
  predicate Acceptable(blank: Bytes -> bool, line: Bytes) {
    |line| <= LONGEST_LINE && (blank(Scanned(line)) || WellFormed(Scanned(line)))
  }

  predicate Names(blank: Bytes -> bool, line: Bytes, name: Bytes) {
    !blank(Scanned(line)) && WellFormed(Scanned(line)) && NameOf(Scanned(line)) == name
  }

  ghost predicate Apart(blank: Bytes -> bool, a: Bytes, b: Bytes) {
    forall name :: Names(blank, a, name) ==> !Names(blank, b, name)
  }

  /** Every line is blank or well formed, and no name is repeated. */
  ghost predicate Sound(blank: Bytes -> bool, lines: seq<Bytes>) {
    && (forall i :: 0 <= i < |lines| ==> Acceptable(blank, lines[i]))
    && (forall i, j :: 0 <= i < j < |lines| ==> Apart(blank, lines[i], lines[j]))
  }

  ghost predicate Says(blank: Bytes -> bool, lines: seq<Bytes>, name: Bytes, d: Bytes) {
    exists i :: 0 <= i < |lines| && LineSays(blank, lines[i], name, d)
  }

  predicate LineSays(blank: Bytes -> bool, line: Bytes, name: Bytes, d: Bytes) {
    Names(blank, line, name) && Decode(Scanned(line)[..64]) == d
  }

  datatype Read = Blank | Bad | Named(name: Bytes, digest: Bytes)

  /** One line on its own. */
  method ReadLine(raw: Bytes, blank: Bytes -> bool) returns (r: Read)
    ensures r.Bad? <==> !Acceptable(blank, raw)
    ensures r.Blank? <==> Acceptable(blank, raw) && blank(Scanned(raw))
    ensures r.Named? ==> forall name, d :: LineSays(blank, raw, name, d) <==> name == r.name && d == r.digest
  {
    if |raw| > LONGEST_LINE {
      return Bad;
    }
    var line := Scanned(raw);
    if blank(line) {
      return Blank;
    }
    if |line| < 67 || line[64] != SPACE || (line[65] != SPACE && line[65] != STAR) {
      return Bad;
    }
    if exists k :: 0 <= k < 64 && HexValue(line[..64][k]) < 0 {
      return Bad;
    }
    r := Named(line[66..], Decode(line[..64]));
  }

  /** The names of the lines so far. */
  ghost predicate Seen(blank: Bytes -> bool, lines: seq<Bytes>, seen: set<Bytes>) {
    forall n :: n in seen <==> NamedIn(blank, lines, n)
  }

  ghost predicate NamedIn(blank: Bytes -> bool, lines: seq<Bytes>, n: Bytes) {
    exists k :: 0 <= k < |lines| && Names(blank, lines[k], n)
  }

  lemma LineNames(blank: Bytes -> bool, line: Bytes, n: Bytes)
    ensures Names(blank, line, n) <==> exists d :: LineSays(blank, line, n, d)
  {
    if Names(blank, line, n) {
      assert LineSays(blank, line, n, Decode(Scanned(line)[..64]));
    }
  }

  /** What is known after some lines: they are sound, `seen` holds their names, and r is what they say of the name. */
  ghost predicate Known(blank: Bytes -> bool, lines: seq<Bytes>, seen: set<Bytes>, name: Bytes, r: Found) {
    && Sound(blank, lines) && Seen(blank, lines, seen)
    && (r.Refused? ==> name !in seen)
    && (r.Digest? ==> Says(blank, lines, name, r.bytes))
  }

  /**
   The asset's digest is returned exactly if the whole manifest is sound and a line names the asset
   with that digest.
   */
  method ChecksumForAsset(data: Bytes, name: Bytes, blank: Bytes -> bool) returns (r: Found)
    ensures forall d :: r == Digest(d) <==> Sound(blank, Lines(data)) && Says(blank, Lines(data), name, d)
  {
    var lines := Lines(data);
    var seen: set<Bytes> := {};
    r := Refused;
    for i := 0 to |lines|
      invariant Known(blank, lines[..i], seen, name, r)
    {
      assert lines[..i + 1] == lines[..i] + [lines[i]];
      var line := ReadLine(lines[i], blank);
      if line.Bad? {
        return Refused;
      }
      if line.Blank? {
        BlankMore(blank, lines[..i], lines[i], seen, name, r);
        continue;
      }
      if line.name in seen {
        Repeated(blank, lines, i, line.name, line.digest);
        return Refused;
      }
      NamedMore(blank, lines[..i], lines[i], seen, name, r, line.name, line.digest);
      seen := seen + {line.name};
      if line.name == name {
        r := Digest(line.digest);
      }
    }
    assert lines[..|lines|] == lines;
    Conclude(blank, lines, name, seen, r);
  }

  lemma SaysMore(blank: Bytes -> bool, lines: seq<Bytes>, line: Bytes, name: Bytes)
    ensures forall d :: Says(blank, lines, name, d) || LineSays(blank, line, name, d) ==>
            Says(blank, lines + [line], name, d)
  {
    var all := lines + [line];
    forall d | Says(blank, lines, name, d) || LineSays(blank, line, name, d) ensures Says(blank, all, name, d) {
      if LineSays(blank, line, name, d) {
        assert LineSays(blank, all[|lines|], name, d);
      } else {
        var i :| 0 <= i < |lines| && LineSays(blank, lines[i], name, d);
        assert LineSays(blank, all[i], name, d);
      }
    }
  }

  lemma BlankMore(blank: Bytes -> bool, lines: seq<Bytes>, line: Bytes, seen: set<Bytes>, name: Bytes, r: Found)
    requires Known(blank, lines, seen, name, r) && Acceptable(blank, line) && blank(Scanned(line))
    ensures Known(blank, lines + [line], seen, name, r)
  {
    SoundMore(blank, lines, line);
    SeenMore(blank, lines, line, seen, {});
    SaysMore(blank, lines, line, name);
  }

  lemma SeenMore(blank: Bytes -> bool, lines: seq<Bytes>, line: Bytes, seen: set<Bytes>, more: set<Bytes>)
    requires Seen(blank, lines, seen) && forall n :: n in more <==> Names(blank, line, n)
    ensures Seen(blank, lines + [line], seen + more)
  {
    var all := lines + [line];
    forall n ensures n in seen + more <==> NamedIn(blank, all, n) {
      if n in more {
        assert Names(blank, all[|lines|], n);
      } else if n in seen {
        var k :| 0 <= k < |lines| && Names(blank, lines[k], n);
        assert Names(blank, all[k], n);
      }
    }
  }

  lemma NamedMore(blank: Bytes -> bool, lines: seq<Bytes>, line: Bytes, seen: set<Bytes>, name: Bytes, r: Found,
          n: Bytes, d: Bytes)
    requires Known(blank, lines, seen, name, r) && Acceptable(blank, line) && n !in seen
    requires forall m, e :: LineSays(blank, line, m, e) <==> m == n && e == d
    ensures Known(blank, lines + [line], seen + {n}, name, if n == name then Digest(d) else r)
  {
    NamedSound(blank, lines, line, seen, n, d);
    SaysMore(blank, lines, line, name);
  }

  lemma NamedSound(blank: Bytes -> bool, lines: seq<Bytes>, line: Bytes, seen: set<Bytes>, name: Bytes, digest: Bytes)
    requires Sound(blank, lines) && Seen(blank, lines, seen) && Acceptable(blank, line) && name !in seen
    requires forall n, d :: LineSays(blank, line, n, d) <==> n == name && d == digest
    ensures Sound(blank, lines + [line]) && Seen(blank, lines + [line], seen + {name})
  {
    forall n ensures Names(blank, line, n) <==> n == name {
      LineNames(blank, line, n);
      assert LineSays(blank, line, name, digest);
    }
    forall k, n | 0 <= k < |lines| && Names(blank, lines[k], n) ensures !Names(blank, line, n) {
      assert NamedIn(blank, lines, n);
    }
    SoundMore(blank, lines, line);
    SeenMore(blank, lines, line, seen, {name});
  }

  lemma Conclude(blank: Bytes -> bool, lines: seq<Bytes>, name: Bytes, seen: set<Bytes>, r: Found)
    requires Known(blank, lines, seen, name, r)
    ensures forall d :: r == Digest(d) <==> Says(blank, lines, name, d)
  {
    if r.Digest? {
      OneDigest(blank, lines, name, r.bytes);
    }
    forall d | Says(blank, lines, name, d) ensures r.Digest? {
      var i :| 0 <= i < |lines| && LineSays(blank, lines[i], name, d);
      assert NamedIn(blank, lines, name);
    }
  }

  lemma SoundMore(blank: Bytes -> bool, lines: seq<Bytes>, line: Bytes)
    requires Sound(blank, lines) && Acceptable(blank, line)
    requires forall k, n :: 0 <= k < |lines| && Names(blank, lines[k], n) ==> !Names(blank, line, n)
    ensures Sound(blank, lines + [line])
  {
  }

  lemma Repeated(blank: Bytes -> bool, lines: seq<Bytes>, i: nat, n: Bytes, d: Bytes)
    requires i < |lines| && LineSays(blank, lines[i], n, d) && NamedIn(blank, lines[..i], n)
    ensures !Sound(blank, lines)
  {
    var k :| 0 <= k < i && Names(blank, lines[..i][k], n);
    assert !Apart(blank, lines[k], lines[i]);
  }

  lemma OneDigest(blank: Bytes -> bool, lines: seq<Bytes>, name: Bytes, d: Bytes)
    requires Sound(blank, lines) && Says(blank, lines, name, d)
    ensures forall e :: Says(blank, lines, name, e) ==> e == d
  {
    var i :| 0 <= i < |lines| && LineSays(blank, lines[i], name, d);
    forall e | Says(blank, lines, name, e) ensures e == d {
      var j :| 0 <= j < |lines| && LineSays(blank, lines[j], name, e);
      assert i < j ==> Apart(blank, lines[i], lines[j]);
      assert j < i ==> Apart(blank, lines[j], lines[i]);
    }
  }

  // ---------------------------------------------------------------- printed manifests

  datatype Entry = Entry(digest: Bytes, binary: bool, name: Bytes)

  function HexDigit(n: int): byte
    requires 0 <= n < 16
  {
    if n < 10 then n + 48 else n + 87
  }

  function Hex(d: Bytes): (s: Bytes)
    ensures |s| == 2 * |d| && IsHex(s)
    ensures forall i :: 0 <= i < |s| ==> 0x21 <= s[i] <= 0x7e
  {
    if d == [] then [] else [HexDigit(d[0] / 16), HexDigit(d[0] % 16)] + Hex(d[1..])
  }

  lemma {:induction false} DecodeHex(d: Bytes)
    ensures Decode(Hex(d)) == d
  {
    if d != [] {
      assert Hex(d)[2..] == Hex(d[1..]);
      DecodeHex(d[1..]);
    }
  }

  function PrintLine(e: Entry): Bytes { Hex(e.digest) + [SPACE, if e.binary then STAR else SPACE] + e.name }

  function Print(entries: seq<Entry>): Bytes {
    if entries == [] then [] else PrintLine(entries[0]) + [NEWLINE] + Print(entries[1..])
  }

  /** A SHA-256 digest and a name that fits on a line and does not change when scanned. */
  predicate Printable(e: Entry) {
    && |e.digest| == 32 && e.name != [] && NEWLINE !in e.name && e.name[|e.name| - 1] != RETURN
    && 66 + |e.name| <= LONGEST_LINE
  }

  lemma {:induction false} LineFirst(line: Bytes, rest: Bytes)
    requires NEWLINE !in line
    ensures UpToNewline(line + [NEWLINE] + rest) == line
  {
    var t := line + [NEWLINE] + rest;
    if line != [] {
      assert t[1..] == line[1..] + [NEWLINE] + rest;
      LineFirst(line[1..], rest);
    }
  }

  lemma PrintedLine(e: Entry, blank: Bytes -> bool)
    requires Printable(e) && Blanks(blank)
    ensures var line := PrintLine(e);
            && NEWLINE !in line && Scanned(line) == line && Acceptable(blank, line)
            && (forall n :: Names(blank, line, n) <==> n == e.name) && Decode(line[..64]) == e.digest
  {
    var line := PrintLine(e);
    DecodeHex(e.digest);
    assert line[..64] == Hex(e.digest) && line[66..] == e.name;
    assert 0x21 <= line[0] <= 0x7e;
    assert line[|line| - 1] == e.name[|e.name| - 1];
  }

  function PrintLines(entries: seq<Entry>): seq<Bytes> {
    seq(|entries|, i requires 0 <= i < |entries| => PrintLine(entries[i]))
  }

  lemma LinesMore(line: Bytes, rest: Bytes)
    requires NEWLINE !in line
    ensures Lines(line + [NEWLINE] + rest) == [line] + Lines(rest)
  {
    var t := line + [NEWLINE] + rest;
    LineFirst(line, rest);
    assert t[|line| + 1..] == rest;
  }

  lemma NoNewline(e: Entry)
    requires Printable(e)
    ensures NEWLINE !in PrintLine(e)
  {
    assert forall b :: b in Hex(e.digest) ==> b >= 0x21;
  }

  lemma {:induction false} PrintedLines(entries: seq<Entry>)
    requires forall i :: 0 <= i < |entries| ==> Printable(entries[i])
    ensures Lines(Print(entries)) == PrintLines(entries)
  {
    if entries != [] {
      var rest := entries[1..];
      assert forall i :: 0 <= i < |rest| ==> rest[i] == entries[i + 1];
      NoNewline(entries[0]);
      LinesMore(PrintLine(entries[0]), Print(rest));
      PrintedLines(rest);
      PrintLinesMore(entries);
    }
  }

  lemma PrintLinesMore(entries: seq<Entry>)
    requires entries != []
    ensures PrintLines(entries) == [PrintLine(entries[0])] + PrintLines(entries[1..])
  {
  }

  lemma PrintedSound(entries: seq<Entry>, blank: Bytes -> bool)
    requires Blanks(blank) && forall i :: 0 <= i < |entries| ==> Printable(entries[i])
    requires forall i, j :: 0 <= i < j < |entries| ==> entries[i].name != entries[j].name
    ensures Sound(blank, PrintLines(entries))
  {
    var lines := PrintLines(entries);
    forall i | 0 <= i < |lines|
      ensures Acceptable(blank, lines[i]) && forall n :: Names(blank, lines[i], n) <==> n == entries[i].name
    {
      PrintedLine(entries[i], blank);
    }
  }

  lemma PrintedLineSays(e: Entry, blank: Bytes -> bool, name: Bytes, d: Bytes)
    requires Printable(e) && Blanks(blank)
    ensures LineSays(blank, PrintLine(e), name, d) <==> e.name == name && e.digest == d
  {
    PrintedLine(e, blank);
  }

  lemma PrintedSays(entries: seq<Entry>, blank: Bytes -> bool, name: Bytes, d: Bytes)
    requires Blanks(blank) && forall i :: 0 <= i < |entries| ==> Printable(entries[i])
    ensures Says(blank, PrintLines(entries), name, d) <==>
            exists i :: 0 <= i < |entries| && entries[i].name == name && entries[i].digest == d
  {
    var lines := PrintLines(entries);
    forall i | 0 <= i < |lines|
      ensures LineSays(blank, lines[i], name, d) <==> entries[i].name == name && entries[i].digest == d
    {
      PrintedLineSays(entries[i], blank, name, d);
    }
  }

  /** Lookup undoes printing: a listed name gives its digest, and no other name gives any. */
  lemma LookupUndoesPrint(entries: seq<Entry>, blank: Bytes -> bool, name: Bytes, d: Bytes)
    requires Blanks(blank) && forall i :: 0 <= i < |entries| ==> Printable(entries[i])
    requires forall i, j :: 0 <= i < j < |entries| ==> entries[i].name != entries[j].name
    ensures Sound(blank, Lines(Print(entries)))
    ensures Says(blank, Lines(Print(entries)), name, d) <==>
            exists i :: 0 <= i < |entries| && entries[i].name == name && entries[i].digest == d
  {
    PrintedLines(entries);
    PrintedSound(entries, blank);
    PrintedSays(entries, blank, name, d);
  }

  // ---------------------------------------------------------------- lines and digits, byte by byte

  /** The byte is the hex digit n, in either case. */
  predicate IsDigit(b: byte, n: nat) {
    (n < 10 && b as int == '0' as int + n) ||
    (10 <= n < 16 && (b as int == 'a' as int + n - 10 || b as int == 'A' as int + n - 10))
  }

  lemma HexValueIff(b: byte, n: nat)
    ensures HexValue(b) as int == n <==> IsDigit(b, n)
  {
  }

  ghost predicate SomeDigit(b: byte) { exists n: nat :: IsDigit(b, n) }

  lemma SomeDigitIff(b: byte)
    ensures HexValue(b) >= 0 <==> SomeDigit(b)
  {
    if HexValue(b) >= 0 {
      assert IsDigit(b, HexValue(b) as int);
    }
    if n: nat :| IsDigit(b, n) {
      HexValueIff(b, n);
    }
  }

  lemma IsHexIff(s: Bytes)
    ensures IsHex(s) <==> forall i :: 0 <= i < |s| ==> SomeDigit(s[i])
  {
    forall i | 0 <= i < |s| { SomeDigitIff(s[i]); }
  }

  /** Each byte of a digest is two digits, the high one first. */
  lemma {:induction false} DecodedAt(s: Bytes, i: nat, high: nat, low: nat)
    requires |s| % 2 == 0 && IsHex(s) && 2 * i < |s| && IsDigit(s[2 * i], high) && IsDigit(s[2 * i + 1], low)
    ensures i < |Decode(s)| && Decode(s)[i] as int == 16 * high + low
    decreases i
  {
    if i == 0 {
      HexValueIff(s[0], high);
      HexValueIff(s[1], low);
    } else {
      assert s[2..][2 * (i - 1)] == s[2 * i] && s[2..][2 * (i - 1) + 1] == s[2 * i + 1];
      DecodedAt(s[2..], i - 1, high, low);
    }
  }

  /** A line without its carriage return. */
  function Line(raw: Bytes): Bytes { if raw != [] && raw[|raw| - 1] == 13 then raw[..|raw| - 1] else raw }

  /** What a line says: 64 hex digits, a space, a space or an asterisk, and a name that is not empty. */
  lemma LineSaysIff(blank: Bytes -> bool, raw: Bytes, name: Bytes, d: Bytes)
    ensures var line := Line(raw);
            LineSays(blank, raw, name, d) <==>
              && !blank(line) && |line| > 66 && IsHex(line[..64]) && line[64] == 32
              && (line[65] == 32 || line[65] == 42) && name == line[66..] && d == Decode(line[..64])
  {
  }

  /** A line is accepted if it is blank or says something, and is not longer than 65535 bytes. */
  lemma AcceptableIff(blank: Bytes -> bool, raw: Bytes)
    ensures Acceptable(blank, raw) <==>
            |raw| <= 65535 && (blank(Line(raw)) || exists name, d :: LineSays(blank, raw, name, d))
  {
    if Acceptable(blank, raw) && !blank(Line(raw)) {
      assert LineSays(blank, raw, NameOf(Scanned(raw)), Decode(Scanned(raw)[..64]));
    }
  }
}
