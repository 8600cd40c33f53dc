/**
 Precedence as section 11 of Semantic Versioning 2.0.0 defines it, on versions
 without build metadata, and the versions on which CompareVersions agrees.
 */
module SemVer {
  import opened Versions
  import opened Text

  datatype Id = Num(n: nat) | Word(s: string)

  datatype Version = Version(major: nat, minor: nat, patch: nat, pre: seq<Id>)

  // ---------------------------------------------------------------- the standard

  predicate IdChar(c: char) { IsDigit(c) || 'a' <= c <= 'z' || 'A' <= c <= 'Z' || c == '-' }

  predicate ValidWord(s: string) { s != [] && !AllDigits(s) && forall i :: 0 <= i < |s| ==> IdChar(s[i]) }

  predicate ValidId(id: Id) { id.Word? ==> ValidWord(id.s) }

  predicate Valid(x: Version) { forall i :: 0 <= i < |x.pre| ==> ValidId(x.pre[i]) }

  function IdPrecedence(a: Id, b: Id): int {
    match (a, b)
    case (Num(m), Num(n)) => Sign(m, n)
    case (Num(_), Word(_)) => -1
    case (Word(_), Num(_)) => 1
    case (Word(s), Word(t)) => OrderStrings(s, t)
  }

  function PrePrecedence(p: seq<Id>, q: seq<Id>): int {
    if p == [] && q == [] then 0 else if q == [] then -1 else if p == [] then 1 else Lex(p, q, IdPrecedence)
  }

  function BasePrecedence(x: Version, y: Version): int {
    if x.major != y.major then Sign(x.major, y.major) else if x.minor != y.minor then Sign(x.minor, y.minor)
      else Sign(x.patch, y.patch)
  }

  function Precedence(x: Version, y: Version): int {
    var base := BasePrecedence(x, y);
    if base != 0 then base else PrePrecedence(x.pre, y.pre)
  }

  // ---------------------------------------------------------------- printed versions

  function Digit(n: nat): (c: char)
    requires n < 10
    ensures IsDigit(c) && DigitOf(c) == n
  {
    ('0' as int + n) as char
  }

  function Digits(n: nat): (s: string)
    ensures s != [] && AllDigits(s)
  {
    if n < 10 then [Digit(n)] else Digits(n / 10) + [Digit(n % 10)]
  }

  lemma {:induction false} ValueAppend(s: string, c: char, n: nat)
    requires AllDigits(s) && IsDigit(c)
    ensures ValueFrom(s + [c], n) == ValueFrom(s, n) * 10 + DigitOf(c)
  {
    if s == [] {
      assert [c][1..] == [];
    } else {
      assert (s + [c])[1..] == s[1..] + [c];
      ValueAppend(s[1..], c, n * 10 + DigitOf(s[0]));
    }
  }

  lemma {:induction false} DigitsValueIs(n: nat)
    ensures Value(Digits(n)) == n
  {
    if n < 10 {
      ValueAppend([], Digit(n), 0);
      assert [] + [Digit(n)] == [Digit(n)];
    } else {
      DigitsValueIs(n / 10);
      ValueAppend(Digits(n / 10), Digit(n % 10), 0);
    }
  }

  function PrintId(id: Id): string { if id.Num? then Digits(id.n) else id.s }

  function Each<T, U>(s: seq<T>, f: T -> U): seq<U> { seq(|s|, i requires 0 <= i < |s| => f(s[i])) }

  function PrintIds(p: seq<Id>): seq<string> { Each(p, PrintId) }

  function Join(parts: seq<string>): string {
    if parts == [] then [] else if |parts| == 1 then parts[0] else parts[0] + ['.'] + Join(parts[1..])
  }

  function PrintBase(x: Version): string { Join([Digits(x.major), Digits(x.minor), Digits(x.patch)]) }

  function PrintPre(p: seq<Id>): string { Join(PrintIds(p)) }

  function Print(x: Version): string { if x.pre == [] then PrintBase(x) else PrintBase(x) + ['-'] + PrintPre(x.pre) }

  // ---------------------------------------------------------------- where Atoi reads what is meant

  /** A hyphen and digits: Atoi takes it for a negative number. */
  predicate LooksNegative(s: string) { |s| > 1 && s[0] == '-' && AllDigits(s[1..]) && Value(s[1..]) <= MAX_INT + 1 }

  predicate FitId(id: Id) { if id.Num? then id.n <= MAX_INT else !LooksNegative(id.s) }

  /** Numbers fit an int, and no identifier is a hyphen followed by such a number. */
  predicate Fits(x: Version) {
    x.major <= MAX_INT && x.minor <= MAX_INT && x.patch <= MAX_INT && forall i :: 0 <= i < |x.pre| ==> FitId(x.pre[i])
  }

  function Clamped(n: nat): nat { if n <= MAX_INT then n else MAX_INT }

  lemma AtoiDigits(n: nat)
    ensures Atoi(Digits(n)) == if n <= MAX_INT then Number(n, true) else Number(MAX_INT, false)
  {
    assert IsDigit(Digits(n)[0]);
    DigitsValueIs(n);
    UnsignedIs(Digits(n), 0);
  }

  lemma AtoiWord(s: string)
    requires ValidWord(s)
    ensures Atoi(s).ok <==> LooksNegative(s)
    ensures Atoi(s).ok ==> Atoi(s).value <= 0
  {
    assert IdChar(s[0]);
    if s[0] != '-' {
      UnsignedNot(s, 0);
    } else if AllDigits(s[1..]) {
      UnsignedIs(s[1..], 0);
    } else {
      UnsignedNot(s[1..], 0);
    }
  }

  /** On identifiers that fit, the code's order is the standard's. */
  lemma IdsAgree(a: Id, b: Id)
    requires ValidId(a) && ValidId(b) && FitId(a) && FitId(b)
    ensures OrderIds(PrintId(a), PrintId(b)) == IdPrecedence(a, b)
  {
    if a.Num? { AtoiDigits(a.n); } else { AtoiWord(a.s); }
    if b.Num? { AtoiDigits(b.n); } else { AtoiWord(b.s); }
  }

  // ---------------------------------------------------------------- printing and splitting

  lemma {:induction false} CutJoin(a: string, b: string, c: char)
    requires c !in a
    ensures Before(a + [c] + b, c) == a && After(a + [c] + b, c) == b
  {
    var s := a + [c] + b;
    if a != [] {
      assert s[1..] == a[1..] + [c] + b;
      CutJoin(a[1..], b, c);
    } else {
      assert s[1..] == b;
    }
  }

  lemma {:induction false} NoCut(a: string, c: char)
    requires c !in a
    ensures Before(a, c) == a && After(a, c) == []
  {
    if a != [] {
      NoCut(a[1..], c);
    }
  }

  lemma {:induction false} SplitJoin(parts: seq<string>)
    requires parts != [] && forall i :: 0 <= i < |parts| ==> '.' !in parts[i]
    ensures Split(Join(parts)) == parts
  {
    if |parts| > 1 {
      assert forall i :: 0 <= i < |parts[1..]| ==> parts[1..][i] == parts[i + 1];
      SplitJoin(parts[1..]);
      CutJoin(parts[0], Join(parts[1..]), '.');
      assert Join(parts)[|parts[0]|] == '.';
    }
  }

  lemma PrintIdPlain(id: Id)
    requires ValidId(id)
    ensures PrintId(id) != [] && '.' !in PrintId(id)
    ensures forall i :: 0 <= i < |PrintId(id)| ==> IdChar(PrintId(id)[i])
  {
  }

  lemma {:induction false} JoinPlain(parts: seq<string>)
    requires forall i :: 0 <= i < |parts| ==> parts[i] != [] && forall j :: 0 <= j < |parts[i]| ==> IdChar(parts[i][j])
    ensures var s := Join(parts);
            && (forall i :: 0 <= i < |s| ==> IdChar(s[i]) || s[i] == '.')
            && (parts != [] ==> s != [] && IdChar(s[0]) && IdChar(s[|s| - 1]))
  {
    if |parts| > 1 {
      assert forall i :: 0 <= i < |parts[1..]| ==> parts[1..][i] == parts[i + 1];
      JoinPlain(parts[1..]);
    }
  }

  lemma DigitsJoined(a: string, b: string, c: string)
    requires a != [] && b != [] && c != [] && AllDigits(a) && AllDigits(b) && AllDigits(c)
    ensures var s := Join([a, b, c]);
            s == a + ['.'] + b + ['.'] + c && '-' !in s && IsDigit(s[0]) && IsDigit(s[|s| - 1])
  {
    assert [a, b, c][1..] == [b, c] && [b, c][1..] == [c];
    assert Join([b, c]) == b + ['.'] + c;
    assert IsDigit(a[0]) && IsDigit(c[|c| - 1]);
  }

  /** A printed version starts with a digit and does not end with a blank. */
  lemma PrintEnds(x: Version)
    requires Valid(x)
    ensures var s := Print(x); s != [] && IsDigit(s[0]) && !IsSpace(s[|s| - 1])
  {
    DigitsJoined(Digits(x.major), Digits(x.minor), Digits(x.patch));
    var s := Print(x);
    assert IsDigit(s[0]);
    if x.pre != [] {
      forall i | 0 <= i < |PrintIds(x.pre)|
        ensures PrintIds(x.pre)[i] != [] && forall j :: 0 <= j < |PrintIds(x.pre)[i]| ==> IdChar(PrintIds(x.pre)[i][j])
      {
        PrintIdPlain(x.pre[i]);
      }
      JoinPlain(PrintIds(x.pre));
    }
  }

  /** It has nothing to clean. */
  lemma CleanPrint(x: Version)
    requires Valid(x)
    ensures Clean(Print(x)) == Print(x)
  {
    PrintEnds(x);
    TrimEnds(Print(x));
  }

  lemma ValuesOfThree(a: string, b: string, c: string, x: int, y: int, z: int)
    requires Atoi(a).value == x && Atoi(b).value == y && Atoi(c).value == z
    ensures Values([a, b, c]) == [x, y, z]
  {
  }

  lemma DigitsValue(n: nat)
    ensures Atoi(Digits(n)).value == Clamped(n)
  {
    AtoiDigits(n);
  }

  lemma DigitsValues(x: Version)
    ensures Values([Digits(x.major), Digits(x.minor), Digits(x.patch)]) ==
            [Clamped(x.major), Clamped(x.minor), Clamped(x.patch)]
  {
    DigitsValue(x.major);
    DigitsValue(x.minor);
    DigitsValue(x.patch);
    ValuesOfThree(Digits(x.major), Digits(x.minor), Digits(x.patch), Clamped(x.major), Clamped(x.minor),
      Clamped(x.patch));
  }

  lemma PrintedBase(x: Version)
    ensures Numbers(PrintBase(x)) == [Clamped(x.major), Clamped(x.minor), Clamped(x.patch)]
    ensures '-' !in PrintBase(x)
  {
    var parts := [Digits(x.major), Digits(x.minor), Digits(x.patch)];
    DigitsJoined(parts[0], parts[1], parts[2]);
    SplitJoin(parts);
    DigitsValues(x);
  }

  lemma PrintedParts(x: Version)
    requires Valid(x)
    ensures Before(Print(x), '-') == PrintBase(x)
    ensures After(Print(x), '-') == (if x.pre == [] then [] else PrintPre(x.pre))
    ensures Print(x) != []
  {
    PrintedBase(x);
    DigitsJoined(Digits(x.major), Digits(x.minor), Digits(x.patch));
    if x.pre == [] {
      NoCut(PrintBase(x), '-');
    } else {
      CutJoin(PrintBase(x), PrintPre(x.pre), '-');
    }
  }

  lemma PrintedPre(p: seq<Id>)
    requires p != [] && forall i :: 0 <= i < |p| ==> ValidId(p[i])
    ensures PrintPre(p) != [] && Split(PrintPre(p)) == PrintIds(p)
  {
    var parts := PrintIds(p);
    forall i | 0 <= i < |parts| ensures parts[i] != [] && '.' !in parts[i] {
      PrintIdPlain(p[i]);
    }
    SplitJoin(parts);
    PrintIdPlain(p[0]);
  }

  // ---------------------------------------------------------------- the code's order of printed versions

  function CodePre(p: seq<Id>, q: seq<Id>): int {
    if p == [] && q == [] then 0 else if q == [] then -1 else if p == [] then 1
      else Lex(PrintIds(p), PrintIds(q), OrderIds)
  }

  lemma PaddedTriples(a: int, b: int, c: int, d: int, e: int, f: int)
    ensures Padded([a, b, c], [d, e, f]) == if a != d then Sign(a, d) else if b != e then Sign(b, e)
            else if c != f then Sign(c, f) else 0
  {
    assert [a, b, c][1..] == [b, c] && [b, c][1..] == [c] && [c][1..] == [];
    assert [d, e, f][1..] == [e, f] && [e, f][1..] == [f] && [f][1..] == [];
    assert Padded([a, b, c], [d, e, f]) == if a != d then Sign(a, d) else Padded([b, c], [e, f]);
    assert Padded([b, c], [e, f]) == if b != e then Sign(b, e) else Padded([c], [f]);
    assert Padded([c], [f]) == if c != f then Sign(c, f) else Padded([], []);
  }

  lemma PrintedPreOrder(p: seq<Id>, q: seq<Id>)
    requires forall i :: 0 <= i < |p| ==> ValidId(p[i])
    requires forall i :: 0 <= i < |q| ==> ValidId(q[i])
    ensures OrderPre(if p == [] then [] else PrintPre(p), if q == [] then [] else PrintPre(q)) == CodePre(p, q)
  {
    if p != [] { PrintedPre(p); }
    if q != [] { PrintedPre(q); }
    if p == [] && q == [] {
      PreOpposite([], []);
    }
  }

  function CodeBase(x: Version, y: Version): int {
    if Clamped(x.major) != Clamped(y.major) then Sign(Clamped(x.major), Clamped(y.major)) else
    if Clamped(x.minor) != Clamped(y.minor) then Sign(Clamped(x.minor), Clamped(y.minor)) else
    Sign(Clamped(x.patch), Clamped(y.patch))
  }

  lemma PrintedBaseOrder(x: Version, y: Version)
    ensures Padded(Numbers(PrintBase(x)), Numbers(PrintBase(y))) == CodeBase(x, y)
  {
    PrintedBase(x);
    PrintedBase(y);
    PaddedTriples(Clamped(x.major), Clamped(x.minor), Clamped(x.patch), Clamped(y.major), Clamped(y.minor),
      Clamped(y.patch));
  }

  lemma PrintedOrder(x: Version, y: Version)
    requires Valid(x) && Valid(y)
    ensures Order(Print(x), Print(y)) == if CodeBase(x, y) != 0 then CodeBase(x, y) else CodePre(x.pre, y.pre)
  {
    CleanPrint(x);
    CleanPrint(y);
    PrintedParts(x);
    PrintedParts(y);
    CleanFormula(Print(x), Print(y));
    PrintedBaseOrder(x, y);
    PrintedPreOrder(x.pre, y.pre);
  }

  // ---------------------------------------------------------------- agreement, exactly

  lemma {:induction false} LexAgree<T, U>(p: seq<T>, q: seq<T>, f: T -> U, cmp: (U, U) -> int, std: (T, T) -> int)
    requires forall i, j :: 0 <= i < |p| && 0 <= j < |q| ==> cmp(f(p[i]), f(q[j])) == std(p[i], q[j])
    ensures Lex(Each(p, f), Each(q, f), cmp) == Lex(p, q, std)
    decreases |p|
  {
    if p != [] && q != [] {
      assert Each(p, f)[1..] == Each(p[1..], f) && Each(q, f)[1..] == Each(q[1..], f);
      assert forall i :: 0 <= i < |p[1..]| ==> p[1..][i] == p[i + 1];
      assert forall i :: 0 <= i < |q[1..]| ==> q[1..][i] == q[i + 1];
      LexAgree(p[1..], q[1..], f, cmp, std);
    }
  }

  lemma PreAgree(p: seq<Id>, q: seq<Id>)
    requires forall i :: 0 <= i < |p| ==> ValidId(p[i]) && FitId(p[i])
    requires forall i :: 0 <= i < |q| ==> ValidId(q[i]) && FitId(q[i])
    ensures CodePre(p, q) == PrePrecedence(p, q)
  {
    forall i, j | 0 <= i < |p| && 0 <= j < |q|
      ensures OrderIds(PrintId(p[i]), PrintId(q[j])) == IdPrecedence(p[i], q[j])
    {
      IdsAgree(p[i], q[j]);
    }
    LexAgree(p, q, PrintId, OrderIds, IdPrecedence);
  }

  lemma BaseAgree(x: Version, y: Version)
    requires x.major <= MAX_INT && x.minor <= MAX_INT && x.patch <= MAX_INT && y.major <= MAX_INT && y.minor <= MAX_INT
    requires y.patch <= MAX_INT
    ensures CodeBase(x, y) == BasePrecedence(x, y)
  {
  }

  /** Versions that fit are ordered as the standard orders them. */
  lemma FittingAgree(x: Version, y: Version)
    requires Valid(x) && Valid(y) && Fits(x) && Fits(y)
    ensures Order(Print(x), Print(y)) == Precedence(x, y)
  {
    PrintedOrder(x, y);
    BaseAgree(x, y);
    PreAgree(x.pre, y.pre);
  }

  /** A fitting identifier that the standard puts on the other side of one that does not fit. */
  function Witness(id: Id): Id { if id.Num? then Word("-") else Num(1) }

  lemma WitnessFits(id: Id)
    ensures ValidId(Witness(id)) && FitId(Witness(id))
  {
    if id.Num? {
      var word := Witness(id).s;
      assert |word| == 1 && word[0] == '-';
    }
  }

  lemma WitnessDisagrees(id: Id)
    requires ValidId(id) && !FitId(id)
    ensures OrderIds(PrintId(id), PrintId(Witness(id))) == -IdPrecedence(id, Witness(id)) != 0
  {
    if id.Num? {
      AtoiDigits(id.n);
      var word, digits := Witness(id).s, Digits(id.n);
      assert |word| == 1 && word[0] == '-' && IsDigit(digits[0]);
      WitnessFits(id);
      AtoiWord(word);
    } else {
      AtoiWord(id.s);
      AtoiDigits(1);
    }
  }

  lemma {:induction false} LexAfterPrefix<T>(p: seq<T>, a: T, rest: seq<T>, b: T, cmp: (T, T) -> int)
    requires cmp(a, b) != 0 && forall i :: 0 <= i < |p| ==> cmp(p[i], p[i]) == 0
    ensures Lex(p + [a] + rest, p + [b], cmp) == cmp(a, b)
    decreases |p|
  {
    var x, y := p + [a] + rest, p + [b];
    if p != [] {
      assert x[1..] == p[1..] + [a] + rest && y[1..] == p[1..] + [b];
      assert forall i :: 0 <= i < |p[1..]| ==> p[1..][i] == p[i + 1];
      LexAfterPrefix(p[1..], a, rest, b, cmp);
    }
  }

  lemma AfterCommonPrefix(p: seq<Id>, a: Id, rest: seq<Id>, b: Id)
    requires OrderIds(PrintId(a), PrintId(b)) != 0 && IdPrecedence(a, b) != 0
    ensures Lex(PrintIds(p + [a] + rest), PrintIds(p + [b]), OrderIds) == OrderIds(PrintId(a), PrintId(b))
    ensures Lex(p + [a] + rest, p + [b], IdPrecedence) == IdPrecedence(a, b)
  {
    forall i | 0 <= i < |p| {
      SameId(p[i]);
    }
    assert PrintIds(p + [a] + rest) == PrintIds(p) + [PrintId(a)] + PrintIds(rest);
    assert PrintIds(p + [b]) == PrintIds(p) + [PrintId(b)];
    LexAfterPrefix(PrintIds(p), PrintId(a), PrintIds(rest), PrintId(b), OrderIds);
    LexAfterPrefix(p, a, rest, b, IdPrecedence);
  }

  lemma SameId(id: Id)
    ensures OrderIds(PrintId(id), PrintId(id)) == 0 && IdPrecedence(id, id) == 0
  {
    IdsPreorder();
    assert Opposite(OrderIds(PrintId(id), PrintId(id)), OrderIds(PrintId(id), PrintId(id)));
    assert Preorder(OrderChars);
    if id.Word? {
      LexOpposite(id.s, id.s, OrderChars);
    }
  }

  /** The version whose prerelease ends in b where x's has its identifier k. */
  function Cut(x: Version, k: nat, b: Id): Version
    requires k < |x.pre|
  {
    x.(pre := x.pre[..k] + [b])
  }

  lemma CutFits(x: Version, k: nat, b: Id)
    requires Valid(x) && x.major <= MAX_INT && x.minor <= MAX_INT && x.patch <= MAX_INT
    requires k < |x.pre| && (forall i :: 0 <= i < k ==> FitId(x.pre[i])) && ValidId(b) && FitId(b)
    ensures Valid(Cut(x, k, b)) && Fits(Cut(x, k, b))
  {
  }

  lemma CutPre(x: Version, k: nat, b: Id)
    requires k < |x.pre| && OrderIds(PrintId(x.pre[k]), PrintId(b)) != 0 && IdPrecedence(x.pre[k], b) != 0
    ensures CodePre(x.pre, Cut(x, k, b).pre) == OrderIds(PrintId(x.pre[k]), PrintId(b))
    ensures PrePrecedence(x.pre, Cut(x, k, b).pre) == IdPrecedence(x.pre[k], b)
  {
    assert x.pre == x.pre[..k] + [x.pre[k]] + x.pre[k + 1..];
    AfterCommonPrefix(x.pre[..k], x.pre[k], x.pre[k + 1..], b);
  }

  lemma CutOrder(x: Version, k: nat, b: Id)
    requires Valid(x) && k < |x.pre| && Valid(Cut(x, k, b))
    ensures Order(Print(x), Print(Cut(x, k, b))) == CodePre(x.pre, Cut(x, k, b).pre)
    ensures Precedence(x, Cut(x, k, b)) == PrePrecedence(x.pre, Cut(x, k, b).pre)
  {
    PrintedOrder(x, Cut(x, k, b));
  }

  /** A prerelease with an identifier that does not fit, and a fitting version that tells. */
  lemma PreMisfit(x: Version, k: nat) returns (y: Version)
    requires Valid(x) && x.major <= MAX_INT && x.minor <= MAX_INT && x.patch <= MAX_INT
    requires k < |x.pre| && !FitId(x.pre[k]) && forall i :: 0 <= i < k ==> FitId(x.pre[i])
    ensures Valid(y) && Fits(y) && Order(Print(x), Print(y)) != Precedence(x, y)
  {
    var b := Witness(x.pre[k]);
    WitnessFits(x.pre[k]);
    CutFits(x, k, b);
    WitnessDisagrees(x.pre[k]);
    CutPre(x, k, b);
    CutOrder(x, k, b);
    y := Cut(x, k, b);
  }

  /** The fitting version just below one whose numbers do not fit. */
  function Clipped(x: Version): Version {
    if x.major > MAX_INT then Version(MAX_INT, MAX_INT, MAX_INT, []) else
    if x.minor > MAX_INT then Version(x.major, MAX_INT, MAX_INT, []) else
    Version(x.major, x.minor, MAX_INT, [])
  }

  lemma ClippedBelow(x: Version)
    requires !(x.major <= MAX_INT && x.minor <= MAX_INT && x.patch <= MAX_INT)
    ensures Precedence(x, Clipped(x)) == 1
  {
  }

  lemma ClippedNotBelow(x: Version)
    ensures CodeBase(x, Clipped(x)) <= 0
  {
  }

  /** A version number that does not fit is taken for the largest that does. */
  lemma BaseMisfit(x: Version) returns (y: Version)
    requires Valid(x) && !(x.major <= MAX_INT && x.minor <= MAX_INT && x.patch <= MAX_INT)
    ensures Valid(y) && Fits(y) && Order(Print(x), Print(y)) != Precedence(x, y)
  {
    y := Clipped(x);
    ClippedBelow(x);
    ClippedNotBelow(x);
    var none: seq<Id> := [];
    assert y.pre == none && CodePre(x.pre, none) <= 0;
    PrintedOrder(x, y);
  }

  lemma Misfit(x: Version) returns (y: Version)
    requires Valid(x) && !Fits(x)
    ensures Valid(y) && Fits(y) && Order(Print(x), Print(y)) != Precedence(x, y)
  {
    if x.major <= MAX_INT && x.minor <= MAX_INT && x.patch <= MAX_INT {
      var k := 0;
      while FitId(x.pre[k])
        invariant k < |x.pre| && forall i :: 0 <= i < k ==> FitId(x.pre[i])
        decreases |x.pre| - k
      {
        k := k + 1;
      }
      y := PreMisfit(x, k);
    } else {
      y := BaseMisfit(x);
    }
  }

  /** A version compares as the standard says, with every version that fits, exactly if it fits itself. */
  lemma AgreesIff(x: Version)
    requires Valid(x)
    ensures Fits(x) <==> forall y :: Valid(y) && Fits(y) ==> Order(Print(x), Print(y)) == Precedence(x, y)
  {
    if Fits(x) {
      forall y | Valid(y) && Fits(y) ensures Order(Print(x), Print(y)) == Precedence(x, y) {
        FittingAgree(x, y);
      }
    } else {
      var y := Misfit(x);
    }
  }

  /** The word that prints a hyphen and n. */
  function Hyphenated(n: nat): Id { Word(['-'] + Digits(n)) }

  lemma HyphenatedMisfits(n: nat)
    requires n <= MAX_INT
    ensures ValidId(Hyphenated(n)) && LooksNegative(Hyphenated(n).s)
  {
    var word := Hyphenated(n).s;
    assert word[0] == '-' && word[1..] == Digits(n);
    DigitsValueIs(n);
  }

  /** With n = 1: 1.0.0--1 comes before 1.0.0-0 in the code, and after it in the standard. */
  lemma HyphenIsNotMinus(n: nat)
    requires 0 < n <= MAX_INT
    ensures var x, y := Version(1, 0, 0, [Hyphenated(n)]), Version(1, 0, 0, [Num(0)]);
            Valid(x) && Order(Print(x), Print(y)) == -1 && Precedence(x, y) == 1
  {
    var x, y := Version(1, 0, 0, [Hyphenated(n)]), Version(1, 0, 0, [Num(0)]);
    HyphenatedMisfits(n);
    NegativeBelowZero(n);
    PrintedOrder(x, y);
    assert PrintIds(x.pre)[0] == PrintId(Hyphenated(n)) && PrintIds(y.pre)[0] == PrintId(Num(0));
  }

  lemma NegativeBelowZero(n: nat)
    requires 0 < n <= MAX_INT
    ensures OrderIds(PrintId(Hyphenated(n)), PrintId(Num(0))) == -1
  {
    var word := Hyphenated(n).s;
    assert word[0] == '-' && word[1..] == Digits(n);
    DigitsValueIs(n);
    UnsignedIs(Digits(n), 0);
    AtoiDigits(0);
  }

  // ---------------------------------------------------------------- texts that are not printed versions

  lemma VersionTrims(pre: string, v: string, x: Version, post: string)
    requires Valid(x) && (v == [] || v == ['v'] || v == ['V'])
    requires forall k :: 0 <= k < |pre| ==> IsSpace(pre[k])
    requires forall k :: 0 <= k < |post| ==> IsSpace(post[k])
    ensures Trim(pre + (v + Print(x)) + post) == v + Print(x)
  {
    var s := v + Print(x);
    PrintEnds(x);
    assert s[|s| - 1] == Print(x)[|Print(x)| - 1];
    assert s[0] == if v == [] then Print(x)[0] else v[0];
    TrimAround(pre, s, post);
  }

  lemma LetterDrops(v: string, x: Version)
    requires Valid(x) && (v == [] || v == ['v'] || v == ['V'])
    ensures var s := v + Print(x);
            var u := if s[0] == 'v' then s[1..] else s;
            u != [] && (if u[0] == 'V' then u[1..] else u) == Print(x)
  {
    PrintEnds(x);
    assert if v == [] then v + Print(x) == Print(x) else (v + Print(x))[1..] == Print(x);
  }

  /**
   A tag, a printed version after a v or V or neither and between blanks, is cleaned to that
   version, and ordered as it is.
   */
  lemma TagIsCleaned(pre: string, v: string, x: Version, post: string, w: string)
    requires Valid(x) && (v == [] || v == ['v'] || v == ['V'])
    requires forall k :: 0 <= k < |pre| ==> IsSpace(pre[k])
    requires forall k :: 0 <= k < |post| ==> IsSpace(post[k])
    ensures var t := pre + (v + Print(x)) + post;
            Clean(t) == Print(x) && Order(t, w) == Order(Print(x), w) && Order(w, t) == Order(w, Print(x))
  {
    CleanPrint(x);
    VersionTrims(pre, v, x, post);
    LetterDrops(v, x);
  }

  /** Numbers that are missing count as zero, */
  lemma {:induction false} MissingIsZero(a: seq<int>, b: seq<int>)
    ensures Padded(a + [0], b) == Padded(a, b)
    decreases |a| + |b|
  {
    if a == [] {
      assert [] + [0] == [0] && [0][1..] == [];
      if b != [] {
        assert Padded([0], b) == if b[0] != 0 then Sign(0, b[0]) else Padded([], b[1..]);
      }
    } else {
      assert (a + [0])[1..] == a[1..] + [0];
      MissingIsZero(a[1..], if b == [] then [] else b[1..]);
    }
  }

  /** and so do parts that do not start like numbers. */
  lemma WordIsZero(s: string)
    requires s == [] || (!IsDigit(s[0]) && s[0] != '-' && s[0] != '+')
    ensures Atoi(s) == Number(0, false)
  {
  }

  /** A blank version comes before every other. */
  lemma BlankIsLeast(v: string, w: string)
    requires Clean(v) == [] && Clean(w) != []
    ensures Order(v, w) == -1 && Order(w, v) == 1
  {
  }

  /** Digits are read as the number they make, with a sign before them or not, as far as an int of 64 bits reaches. */
  lemma NumberIs(s: string)
    requires s != [] && AllDigits(s)
    ensures Atoi(s) == Atoi(['+'] + s)
    ensures Atoi(s) == if Value(s) <= 9223372036854775807 then Number(Value(s), true)
                       else Number(9223372036854775807, false)
    ensures Atoi(['-'] + s) == if Value(s) <= 9223372036854775808 then Number(0 - Value(s) as int, true)
                               else Number(-9223372036854775808, false)
  {
    UnsignedIs(s, 0);
    assert (['+'] + s)[1..] == s && (['-'] + s)[1..] == s;
    assert IsDigit(s[0]);
  }
}
