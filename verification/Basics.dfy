/** Arithmetic and sequence helpers shared by the other modules. */
module Basics {

  function Min(a: int, b: int): int { if a < b then a else b }

  function Max(a: int, b: int): int { if a < b then b else a }

  lemma Assoc<T>(a: seq<T>, b: seq<T>, c: seq<T>)
    ensures a + b + c == a + (b + c)
  {
  }

  // ---- sums over a sequence ------------------------------------------------------------------------

  function Sum<T>(s: seq<T>, w: T -> int): int {
    if s == [] then 0 else w(s[0]) + Sum(s[1..], w)
  }

  lemma {:induction false} SumConcat<T>(a: seq<T>, b: seq<T>, w: T -> int)
    ensures Sum(a + b, w) == Sum(a, w) + Sum(b, w)
  {
    if a == [] {
      assert a + b == b;
    } else {
      SumConcat(a[1..], b, w);
      assert (a + b)[1..] == a[1..] + b;
    }
  }

  lemma SumAppend<T>(s: seq<T>, x: T, w: T -> int)
    ensures Sum(s + [x], w) == Sum(s, w) + w(x)
  {
    SumConcat(s, [x], w);
    assert [x][1..] == [];
    assert Sum([x], w) == w(x);
  }

  lemma SumAt<T>(s: seq<T>, i: nat, w: T -> int)
    requires i < |s|
    ensures Sum(s, w) == Sum(s[..i], w) + w(s[i]) + Sum(s[i + 1..], w)
  {
    SumAppend(s[..i], s[i], w);
    SumConcat(s[..i] + [s[i]], s[i + 1..], w);
    assert s[..i] + [s[i]] + s[i + 1..] == s;
  }

  lemma SumUpdate<T>(s: seq<T>, i: nat, x: T, w: T -> int)
    requires i < |s|
    ensures Sum(s[i := x], w) == Sum(s, w) - w(s[i]) + w(x)
  {
    SumAt(s, i, w);
    SumAt(s[i := x], i, w);
    assert s[i := x][..i] == s[..i] && s[i := x][i + 1..] == s[i + 1..];
  }

  function Without<T>(s: seq<T>, i: nat): seq<T>
    requires i < |s|
  {
    s[..i] + s[i + 1..]
  }

  lemma SumWithout<T>(s: seq<T>, i: nat, w: T -> int)
    requires i < |s|
    ensures Sum(Without(s, i), w) == Sum(s, w) - w(s[i])
  {
    SumAt(s, i, w);
    SumConcat(s[..i], s[i + 1..], w);
  }

  lemma {:induction false} SumBound<T>(s: seq<T>, w: T -> int, v: T -> int)
    requires forall i | 0 <= i < |s| :: w(s[i]) <= v(s[i])
    ensures Sum(s, w) <= Sum(s, v)
  {
    if s == [] {
    } else {
      assert w(s[0]) <= v(s[0]);
      forall i | 0 <= i < |s[1..]|
        ensures w(s[1..][i]) <= v(s[1..][i])
      {
        assert s[1..][i] == s[i + 1];
      }
      SumBound(s[1..], w, v);
    }
  }

  lemma {:induction false} SumNonNegative<T>(s: seq<T>, w: T -> int)
    requires forall i | 0 <= i < |s| :: w(s[i]) >= 0
    ensures Sum(s, w) >= 0
  {
    if s == [] {
    } else {
      forall i | 0 <= i < |s[1..]|
        ensures w(s[1..][i]) >= 0
      {
        assert s[1..][i] == s[i + 1];
      }
      SumNonNegative(s[1..], w);
    }
  }
}
