/**
 The order of release versions (internal/updater/updater.go:121-214): it is a total
 preorder on all strings, and on printed versions it is the precedence of section
 11 of Semantic Versioning 2.0.0 exactly where Go's Atoi reads the numbers as meant.
 Go compares the bytes of UTF-8 text, which order as its characters do.
 */
module Versions {
  import opened Text

  // ---------------------------------------------------------------- numbers

  const MAX_INT := 0x7FFF_FFFF_FFFF_FFFF
  const MAX_UINT := 0xFFFF_FFFF_FFFF_FFFF

  predicate IsDigit(c: char) { '0' <= c <= '9' }

  predicate AllDigits(s: string) { forall i :: 0 <= i < |s| ==> IsDigit(s[i]) }

  function DigitOf(c: char): nat
    requires IsDigit(c)
  {
    c as int - '0' as int
  }

  /** The number that the digits make after the number n. */
  function ValueFrom(s: string, n: nat): (r: nat)
    requires AllDigits(s)
    ensures n <= r
  {
    if s == [] then n else ValueFrom(s[1..], n * 10 + DigitOf(s[0]))
  }

  function Value(s: string): nat
    requires AllDigits(s)
  {
    ValueFrom(s, 0)
  }

  datatype Scan = Whole(n: nat) | Syntax | Overflow

  /** The loop of strconv.ParseUint: what follows an overflow is not read. */
  function Unsigned(s: string, n: nat): Scan {
    if s == [] then Whole(n) else
    if !IsDigit(s[0]) then Syntax else
    if n * 10 + DigitOf(s[0]) > MAX_UINT then Overflow else
    Unsigned(s[1..], n * 10 + DigitOf(s[0]))
  }

  lemma {:induction false} UnsignedIs(s: string, n: nat)
    requires AllDigits(s) && n <= MAX_UINT
    ensures Unsigned(s, n) == if ValueFrom(s, n) <= MAX_UINT then Whole(ValueFrom(s, n)) else Overflow
  {
    if s != [] && n * 10 + DigitOf(s[0]) <= MAX_UINT {
      UnsignedIs(s[1..], n * 10 + DigitOf(s[0]));
    }
  }

  lemma {:induction false} UnsignedNot(s: string, n: nat)
    requires !AllDigits(s)
    ensures !Unsigned(s, n).Whole?
  {
    if IsDigit(s[0]) && n * 10 + DigitOf(s[0]) <= MAX_UINT {
      UnsignedNot(s[1..], n * 10 + DigitOf(s[0]));
    }
  }

  datatype Number = Number(value: int, ok: bool)

  function Signed(scan: Scan, negative: bool): Number {
    if scan.Syntax? then Number(0, false) else
    if scan.Whole? && scan.n <= MAX_INT then Number(if negative then 0 - scan.n as int else scan.n as int, true) else
    if negative && scan.Whole? && scan.n == MAX_INT + 1 then Number(-MAX_INT - 1, true) else
    Number(if negative then -MAX_INT - 1 else MAX_INT, false)
  }

  /** strconv.Atoi: zero on a syntax error, the nearest int when out of range. */
  function Atoi(s: string): Number {
    var negative := s != [] && s[0] == '-';
    var text := if negative || (s != [] && s[0] == '+') then s[1..] else s;
    Signed(if text == [] then Syntax else Unsigned(text, 0), negative)
  }

  // ---------------------------------------------------------------- cutting strings up

  function Before(s: string, c: char): (r: string)
    ensures c !in r && |r| <= |s|
  {
    if s == [] || s[0] == c then [] else [s[0]] + Before(s[1..], c)
  }

  function After(s: string, c: char): (r: string)
    ensures s != [] ==> |r| < |s|
  {
    if s == [] then [] else if s[0] == c then s[1..] else After(s[1..], c)
  }

  /** strings.Split(s, "."). */
  function Split(s: string): (parts: seq<string>)
    ensures parts != []
    decreases |s|
  {
    if '.' !in s then [s] else [Before(s, '.')] + Split(After(s, '.'))
  }

  function Clean(v: string): string {
    var t := Trim(v);
    var u := if t != [] && t[0] == 'v' then t[1..] else t;
    if u != [] && u[0] == 'V' then u[1..] else u
  }

  // ---------------------------------------------------------------- the comparison

  function Sign(a: int, b: int): int { if a < b then -1 else if a > b then 1 else 0 }

  /** The first difference decides; failing that, the shorter is less. */
  function Lex<T>(a: seq<T>, b: seq<T>, cmp: (T, T) -> int): int {
    if a == [] || b == [] then Sign(|a|, |b|) else
    var c := cmp(a[0], b[0]);
    if c != 0 then c else Lex(a[1..], b[1..], cmp)
  }

  function OrderChars(a: char, b: char): int { Sign(a as int, b as int) }

  function OrderStrings(a: string, b: string): int { Lex(a, b, OrderChars) }

  /** Numbers by value and before words. */
  function Rank(m: Number, n: Number, words: int): int {
    if m.ok && n.ok then Sign(m.value, n.value) else if m.ok then -1 else if n.ok then 1 else words
  }

  function OrderIds(a: string, b: string): int { Rank(Atoi(a), Atoi(b), OrderStrings(a, b)) }

  /** The shorter list goes on with zeros. */
  function Padded(a: seq<int>, b: seq<int>): int
    decreases |a| + |b|
  {
    if a == [] && b == [] then 0 else
    var x, y := if a == [] then 0 else a[0], if b == [] then 0 else b[0];
    if x != y then Sign(x, y) else Padded(if a == [] then [] else a[1..], if b == [] then [] else b[1..])
  }

  function Numbers(base: string): seq<int> { Values(Split(base)) }

  function Values(parts: seq<string>): seq<int> { seq(|parts|, i requires 0 <= i < |parts| => Atoi(parts[i]).value) }

  function OrderPre(p: string, q: string): int {
    if p != [] && q == [] then -1 else if p == [] && q != [] then 1 else Lex(Split(p), Split(q), OrderIds)
  }

  function OrderClean(c: string, d: string): int {
    if c == d then 0 else if c == [] then -1 else if d == [] then 1 else
    var base := Padded(Numbers(Before(c, '-')), Numbers(Before(d, '-')));
    if base != 0 then base else OrderPre(After(c, '-'), After(d, '-'))
  }

  function Order(v: string, w: string): int { OrderClean(Clean(v), Clean(w)) }

  method SplitPreRelease(v: string) returns (base: string, pre: string)
    ensures base == Before(v, '-') && pre == After(v, '-')
  {
    var i := 0;
    while i < |v| && v[i] != '-'
      invariant i <= |v|
      invariant Before(v, '-') == v[..i] + Before(v[i..], '-') && After(v, '-') == After(v[i..], '-')
    {
      assert v[i..][1..] == v[i + 1..];
      assert v[..i + 1] == v[..i] + [v[i]];
      i := i + 1;
    }
    if i < |v| {
      return v[..i], v[i + 1..];
    }
    assert v[i..] == [];
    return v, [];
  }

  lemma LexStep<T>(a: seq<T>, b: seq<T>, cmp: (T, T) -> int, i: nat)
    requires i < |a| && i < |b|
    ensures Lex(a[i..], b[i..], cmp) == var c := cmp(a[i], b[i]); if c != 0 then c else Lex(a[i + 1..], b[i + 1..], cmp)
  {
    assert a[i..][1..] == a[i + 1..] && b[i..][1..] == b[i + 1..];
  }

  /** Identifier by identifier, then the number of them. */
  method CompareLists<T>(left: seq<T>, right: seq<T>, cmp: (T, T) -> int) returns (r: int)
    ensures r == Lex(left, right, cmp)
  {
    var i := 0;
    while i < |left| && i < |right|
      invariant i <= |left| && i <= |right|
      invariant Lex(left, right, cmp) == Lex(left[i..], right[i..], cmp)
    {
      LexStep(left, right, cmp, i);
      var order := cmp(left[i], right[i]);
      if order != 0 {
        return order;
      }
      i := i + 1;
    }
    return Sign(|left|, |right|);
  }

  method ComparePreRelease(a: string, b: string) returns (r: int)
    ensures r == Lex(Split(a), Split(b), OrderIds)
  {
    r := CompareLists(Split(a), Split(b), OrderIds);
  }

  function Rest(s: seq<int>, i: nat): seq<int> { if i < |s| then s[i..] else [] }

  lemma RestMore(s: seq<int>, i: nat)
    ensures Rest(s, i + 1) == if Rest(s, i) == [] then [] else Rest(s, i)[1..]
    ensures i < |s| ==> Rest(s, i) != [] && Rest(s, i)[0] == s[i]
  {
  }

  /** The numbers of the two bases, up to the longer. */
  method CompareBases(ns1: seq<int>, ns2: seq<int>) returns (r: int)
    ensures r == Padded(ns1, ns2)
  {
    var maxLen := if |ns2| > |ns1| then |ns2| else |ns1|;
    for i := 0 to maxLen
      invariant Padded(ns1, ns2) == Padded(Rest(ns1, i), Rest(ns2, i))
    {
      var n1, n2 := 0, 0;
      if i < |ns1| {
        n1 := ns1[i];
      }
      if i < |ns2| {
        n2 := ns2[i];
      }
      RestMore(ns1, i);
      RestMore(ns2, i);
      if n1 < n2 {
        return -1;
      }
      if n1 > n2 {
        return 1;
      }
    }
    r := 0;
  }

  method CompareVersions(v1: string, v2: string) returns (r: int)
    ensures r == Order(v1, v2)
  {
    var c1, c2 := Clean(v1), Clean(v2);
    if c1 == c2 {
      return 0;
    }
    if c1 == [] {
      return -1;
    }
    if c2 == [] {
      return 1;
    }
    var base1, pre1 := SplitPreRelease(c1);
    var base2, pre2 := SplitPreRelease(c2);
    r := CompareBases(Numbers(base1), Numbers(base2));
    if r != 0 {
      return;
    }
    if pre1 != [] && pre2 == [] {
      return -1;
    }
    if pre1 == [] && pre2 != [] {
      return 1;
    }
    r := ComparePreRelease(pre1, pre2);
  }

  // ---------------------------------------------------------------- a total preorder

  ghost predicate Opposite(x: int, y: int) { -1 <= x <= 1 && x == -y }

  /** From a <= b and b <= c follows a <= c, strictly if either is. */
  ghost predicate Follows(ab: int, bc: int, ac: int) {
    ab <= 0 && bc <= 0 ==> ac <= 0 && (ab < 0 || bc < 0 ==> ac < 0)
  }

  ghost predicate Preorder<T(!new)>(cmp: (T, T) -> int) {
    && (forall a, b :: Opposite(cmp(a, b), cmp(b, a)))
    && (forall a, b, c :: Follows(cmp(a, b), cmp(b, c), cmp(a, c)))
  }

  lemma {:induction false} LexOpposite<T(!new)>(a: seq<T>, b: seq<T>, cmp: (T, T) -> int)
    requires Preorder(cmp)
    ensures Opposite(Lex(a, b, cmp), Lex(b, a, cmp))
    decreases |a|
  {
    if a != [] && b != [] {
      assert Opposite(cmp(a[0], b[0]), cmp(b[0], a[0]));
      LexOpposite(a[1..], b[1..], cmp);
    }
  }

  lemma {:induction false} LexFollows<T(!new)>(a: seq<T>, b: seq<T>, c: seq<T>, cmp: (T, T) -> int)
    requires Preorder(cmp)
    ensures Follows(Lex(a, b, cmp), Lex(b, c, cmp), Lex(a, c, cmp))
    decreases |a|
  {
    if a != [] && b != [] && c != [] {
      assert Follows(cmp(a[0], b[0]), cmp(b[0], c[0]), cmp(a[0], c[0]));
      assert Opposite(cmp(a[0], b[0]), cmp(b[0], a[0])) && Opposite(cmp(b[0], c[0]), cmp(c[0], b[0]))
             && Opposite(cmp(a[0], c[0]), cmp(c[0], a[0]));
      assert Follows(cmp(c[0], b[0]), cmp(b[0], a[0]), cmp(c[0], a[0]));
      LexFollows(a[1..], b[1..], c[1..], cmp);
    }
  }

  lemma RankOpposite(m: Number, n: Number, ab: int, ba: int)
    requires Opposite(ab, ba)
    ensures Opposite(Rank(m, n, ab), Rank(n, m, ba))
  {
  }

  lemma RankFollows(l: Number, m: Number, n: Number, ab: int, bc: int, ac: int)
    requires Follows(ab, bc, ac)
    ensures Follows(Rank(l, m, ab), Rank(m, n, bc), Rank(l, n, ac))
  {
  }

  lemma IdsOpposite(a: string, b: string)
    ensures Opposite(OrderIds(a, b), OrderIds(b, a))
  {
    assert Preorder(OrderChars);
    LexOpposite(a, b, OrderChars);
    RankOpposite(Atoi(a), Atoi(b), OrderStrings(a, b), OrderStrings(b, a));
  }

  lemma IdsFollow(a: string, b: string, c: string)
    ensures Follows(OrderIds(a, b), OrderIds(b, c), OrderIds(a, c))
  {
    assert Preorder(OrderChars);
    LexFollows(a, b, c, OrderChars);
    RankFollows(Atoi(a), Atoi(b), Atoi(c), OrderStrings(a, b), OrderStrings(b, c), OrderStrings(a, c));
  }

  /** Numbers before words, numbers by value, words by their characters. */
  lemma IdsPreorder()
    ensures Preorder(OrderIds)
  {
    forall a, b ensures Opposite(OrderIds(a, b), OrderIds(b, a)) { IdsOpposite(a, b); }
    forall a, b, c ensures Follows(OrderIds(a, b), OrderIds(b, c), OrderIds(a, c)) { IdsFollow(a, b, c); }
  }

  lemma {:induction false} PaddedOpposite(a: seq<int>, b: seq<int>)
    ensures Opposite(Padded(a, b), Padded(b, a))
    decreases |a| + |b|
  {
    if a != [] || b != [] {
      PaddedOpposite(if a == [] then [] else a[1..], if b == [] then [] else b[1..]);
    }
  }

  lemma {:induction false} PaddedFollows(a: seq<int>, b: seq<int>, c: seq<int>)
    ensures Follows(Padded(a, b), Padded(b, c), Padded(a, c))
    decreases |a| + |b| + |c|
  {
    if a != [] || b != [] || c != [] {
      PaddedFollows(if a == [] then [] else a[1..], if b == [] then [] else b[1..], if c == [] then [] else c[1..]);
    }
  }

  lemma PreOpposite(p: string, q: string)
    ensures Opposite(OrderPre(p, q), OrderPre(q, p))
  {
    IdsPreorder();
    LexOpposite(Split(p), Split(q), OrderIds);
  }

  lemma PreFollows(p: string, q: string, r: string)
    ensures Follows(OrderPre(p, q), OrderPre(q, r), OrderPre(p, r))
  {
    IdsPreorder();
    LexFollows(Split(p), Split(q), Split(r), OrderIds);
  }

  /** What OrderClean computes when the texts are equal as well. */
  lemma CleanFormula(c: string, d: string)
    requires c != [] && d != []
    ensures var base := Padded(Numbers(Before(c, '-')), Numbers(Before(d, '-')));
            OrderClean(c, d) == if base != 0 then base else OrderPre(After(c, '-'), After(d, '-'))
  {
    if c == d {
      PaddedOpposite(Numbers(Before(c, '-')), Numbers(Before(c, '-')));
      PreOpposite(After(c, '-'), After(c, '-'));
    }
  }

  /** Swapping the versions negates the answer; so any two compare, and one with itself is equal. */
  lemma OrderOpposite(v: string, w: string)
    ensures Opposite(Order(v, w), Order(w, v))
  {
    var c, d := Clean(v), Clean(w);
    if c != [] && d != [] {
      CleanFormula(c, d);
      CleanFormula(d, c);
      PaddedOpposite(Numbers(Before(c, '-')), Numbers(Before(d, '-')));
      PreOpposite(After(c, '-'), After(d, '-'));
    }
  }

  lemma OrderTransitive(u: string, v: string, w: string)
    ensures Follows(Order(u, v), Order(v, w), Order(u, w))
  {
    var b, c, d := Clean(u), Clean(v), Clean(w);
    if b != [] && c != [] && d != [] {
      CleanFormula(b, c);
      CleanFormula(c, d);
      CleanFormula(b, d);
      PaddedFollows(Numbers(Before(b, '-')), Numbers(Before(c, '-')), Numbers(Before(d, '-')));
      PreFollows(After(b, '-'), After(c, '-'), After(d, '-'));
    }
  }
}
