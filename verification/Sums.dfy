// Sums over a sequence, with the one fact every protocol proof needs: replacing
// one element changes the sum by the difference of the two weights.
module Sums {

  ghost function Sum<T>(s: seq<T>, f: T -> nat): nat {
    if s == [] then 0 else f(s[0]) + Sum(s[1..], f)
  }

  ghost function Bag<T, U>(s: seq<T>, f: T -> multiset<U>): multiset<U> {
    if s == [] then multiset{} else f(s[0]) + Bag(s[1..], f)
  }

  lemma {:induction false} SumUpdate<T>(s: seq<T>, i: nat, x: T, f: T -> nat)
    requires i < |s|
    ensures Sum(s[i := x], f) + f(s[i]) == Sum(s, f) + f(x)
  {
    if i == 0 {
      assert s[i := x][1..] == s[1..];
    } else {
      assert s[i := x][1..] == s[1..][i - 1 := x];
      SumUpdate(s[1..], i - 1, x, f);
    }
  }

  lemma {:induction false} BagUpdate<T, U>(s: seq<T>, i: nat, x: T, f: T -> multiset<U>)
    requires i < |s|
    ensures Bag(s[i := x], f) + f(s[i]) == Bag(s, f) + f(x)
  {
    if i == 0 {
      assert s[i := x][1..] == s[1..];
    } else {
      assert s[i := x][1..] == s[1..][i - 1 := x];
      BagUpdate(s[1..], i - 1, x, f);
      var rest, changed := Bag(s[1..], f), Bag(s[1..][i - 1 := x], f);
      assert (f(s[0]) + changed) + f(s[i]) == f(s[0]) + (changed + f(s[i]));
      assert f(s[0]) + (rest + f(x)) == (f(s[0]) + rest) + f(x);
    }
  }

  lemma {:induction false} SumAppend<T>(s: seq<T>, x: T, f: T -> nat)
    ensures Sum(s + [x], f) == Sum(s, f) + f(x)
  {
    if s == [] {
      assert s + [x] == [x];
    } else {
      assert (s + [x])[1..] == s[1..] + [x];
      SumAppend(s[1..], x, f);
    }
  }

  lemma {:induction false} BagAppend<T, U>(s: seq<T>, x: T, f: T -> multiset<U>)
    ensures Bag(s + [x], f) == Bag(s, f) + f(x)
  {
    if s == [] {
      assert s + [x] == [x];
    } else {
      assert (s + [x])[1..] == s[1..] + [x];
      BagAppend(s[1..], x, f);
    }
  }

  lemma {:induction false} SumAtLeast<T>(s: seq<T>, i: nat, f: T -> nat)
    requires i < |s|
    ensures f(s[i]) <= Sum(s, f)
  {
    if i > 0 {
      SumAtLeast(s[1..], i - 1, f);
    }
  }

  lemma {:induction false} BagContains<T, U>(s: seq<T>, i: nat, f: T -> multiset<U>)
    requires i < |s|
    ensures f(s[i]) <= Bag(s, f)
  {
    if i > 0 {
      BagContains(s[1..], i - 1, f);
    }
  }

  lemma {:induction false} SumPositive<T>(s: seq<T>, f: T -> nat) returns (i: nat)
    requires Sum(s, f) > 0
    ensures i < |s| && f(s[i]) > 0
  {
    if f(s[0]) > 0 {
      i := 0;
    } else {
      var j := SumPositive(s[1..], f);
      i := j + 1;
    }
  }

  lemma {:induction false} SumMonotone<T>(s: seq<T>, f: T -> nat, g: T -> nat)
    requires forall i :: 0 <= i < |s| ==> f(s[i]) <= g(s[i])
    ensures Sum(s, f) <= Sum(s, g)
  {
    if s != [] {
      forall i | 0 <= i < |s[1..]| ensures f(s[1..][i]) <= g(s[1..][i]) {
        assert s[1..][i] == s[i + 1];
      }
      SumMonotone(s[1..], f, g);
    }
  }

  lemma {:induction false} BagEmpty<T, U>(s: seq<T>, f: T -> multiset<U>)
    requires forall i :: 0 <= i < |s| ==> f(s[i]) == multiset{}
    ensures Bag(s, f) == multiset{}
  {
    if s != [] {
      forall i | 0 <= i < |s[1..]| ensures f(s[1..][i]) == multiset{} {
        assert s[1..][i] == s[i + 1];
      }
      BagEmpty(s[1..], f);
    }
  }

  lemma {:induction false} BagSize<T, U>(s: seq<T>, f: T -> multiset<U>, n: T -> nat)
    requires forall i :: 0 <= i < |s| ==> |f(s[i])| == n(s[i])
    ensures |Bag(s, f)| == Sum(s, n)
  {
    if s != [] {
      forall i | 0 <= i < |s[1..]| ensures |f(s[1..][i])| == n(s[1..][i]) {
        assert s[1..][i] == s[i + 1];
      }
      BagSize(s[1..], f, n);
    }
  }

  lemma {:induction false} SumConcat<T>(s: seq<T>, t: seq<T>, f: T -> nat)
    ensures Sum(s + t, f) == Sum(s, f) + Sum(t, f)
  {
    if s == [] {
      assert s + t == t;
    } else {
      assert (s + t)[1..] == s[1..] + t;
      SumConcat(s[1..], t, f);
    }
  }

  lemma {:induction false} SumConstant<T>(s: seq<T>, f: T -> nat, c: nat)
    requires forall i :: 0 <= i < |s| ==> f(s[i]) == c
    ensures Sum(s, f) == c * |s|
  {
    if s != [] {
      forall i | 0 <= i < |s[1..]| ensures f(s[1..][i]) == c {
        assert s[1..][i] == s[i + 1];
      }
      SumConstant(s[1..], f, c);
      assert c * |s| == c + c * |s[1..]|;
    }
  }

  /** An element that gains y makes the whole bag gain y. */
  lemma BagGain<T, U>(s: seq<T>, i: nat, x: T, f: T -> multiset<U>, y: multiset<U>)
    requires i < |s| && f(x) == f(s[i]) + y
    ensures Bag(s[i := x], f) == Bag(s, f) + y
  {
    BagUpdate(s, i, x, f);
    Cancel(Bag(s[i := x], f), Bag(s, f), f(s[i]), y);
  }

  lemma BagSame<T, U>(s: seq<T>, i: nat, x: T, f: T -> multiset<U>)
    requires i < |s| && f(x) == f(s[i])
    ensures Bag(s[i := x], f) == Bag(s, f)
  {
    BagGain(s, i, x, f, multiset{});
  }

  lemma BagLose<T, U>(s: seq<T>, i: nat, x: T, f: T -> multiset<U>, y: multiset<U>)
    requires i < |s| && f(s[i]) == f(x) + y
    ensures Bag(s, f) == Bag(s[i := x], f) + y
  {
    assert s[i := x][i := s[i]] == s;
    BagGain(s[i := x], i, s[i], f, y);
  }

  lemma Cancel<U>(after: multiset<U>, before: multiset<U>, x: multiset<U>, y: multiset<U>)
    requires after + x == before + (x + y)
    ensures after == before + y
  {
    forall d ensures after[d] == (before + y)[d] {
      assert (after + x)[d] == (before + (x + y))[d];
    }
  }

  /** Handing d from a to b leaves everything that was there. */
  lemma Handed<U>(a: multiset<U>, b: multiset<U>, a': multiset<U>, b': multiset<U>, d: multiset<U>, aside: multiset<U>)
    requires a == a' + d && b' == b + d
    ensures a' + b' == a + b
    ensures aside + a' + b' == aside + a + b
  {
    forall x ensures (a' + b')[x] == (a + b)[x] {
    }
    assert (aside + a') + b' == aside + (a' + b');
    assert (aside + a) + b == aside + (a + b);
  }

  lemma Swapped<U>(a: multiset<U>, b: multiset<U>, d: multiset<U>)
    ensures (a + b) + d == (a + d) + b
  {
  }

  lemma {:induction false} BagMonotone<T, U>(s: seq<T>, f: T -> multiset<U>, g: T -> multiset<U>)
    requires forall i :: 0 <= i < |s| ==> f(s[i]) <= g(s[i])
    ensures Bag(s, f) <= Bag(s, g)
  {
    if s != [] {
      forall i | 0 <= i < |s[1..]| ensures f(s[1..][i]) <= g(s[1..][i]) {
        assert s[1..][i] == s[i + 1];
      }
      BagMonotone(s[1..], f, g);
    }
  }

  lemma {:induction false} BagAgree<T, U>(s: seq<T>, f: T -> multiset<U>, g: T -> multiset<U>)
    requires forall i :: 0 <= i < |s| ==> f(s[i]) == g(s[i])
    ensures Bag(s, f) == Bag(s, g)
  {
    if s != [] {
      forall i | 0 <= i < |s[1..]| ensures f(s[1..][i]) == g(s[1..][i]) {
        assert s[1..][i] == s[i + 1];
      }
      BagAgree(s[1..], f, g);
    }
  }

  lemma {:induction false} BagConcat<T, U>(s: seq<T>, t: seq<T>, f: T -> multiset<U>)
    ensures Bag(s + t, f) == Bag(s, f) + Bag(t, f)
  {
    if s == [] {
      assert s + t == t;
    } else {
      assert (s + t)[1..] == s[1..] + t;
      BagConcat(s[1..], t, f);
    }
  }

  /** Taking element j out takes its weight out. */
  lemma BagRemove<T, U>(s: seq<T>, j: nat, f: T -> multiset<U>)
    requires j < |s|
    ensures Bag(s, f) == Bag(s[..j] + s[j + 1..], f) + f(s[j])
  {
    assert s == s[..j] + ([s[j]] + s[j + 1..]);
    BagConcat(s[..j], [s[j]] + s[j + 1..], f);
    BagConcat([s[j]], s[j + 1..], f);
    BagConcat(s[..j], s[j + 1..], f);
    Swapped(Bag(s[..j], f), Bag(s[j + 1..], f), f(s[j]));
    assert Bag([s[j]], f) == f(s[j]);
  }
}
