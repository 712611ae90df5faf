/** Requests, tokens and cost are charged together; sums of them over a sequence of records. */
module Amounts {

  datatype Amount = Amount(requests: int, tokens: int, cost: real)

  const ZERO := Amount(0, 0, 0.0)

  function Plus(a: Amount, b: Amount): Amount {
    Amount(a.requests + b.requests, a.tokens + b.tokens, a.cost + b.cost)
  }

  predicate AtMost(a: Amount, b: Amount) {
    a.requests <= b.requests && a.tokens <= b.tokens && a.cost <= b.cost
  }

  function Sum<E>(s: seq<E>, f: E -> Amount): Amount {
    if |s| == 0 then ZERO else Plus(Sum(s[..|s| - 1], f), f(s[|s| - 1]))
  }

  lemma SumAppend<E>(s: seq<E>, x: E, f: E -> Amount)
    ensures Sum(s + [x], f) == Plus(Sum(s, f), f(x))
  {
    assert (s + [x])[..|s|] == s;
  }

  /** Replacing one record exchanges its contribution for the new one. */
  lemma {:induction false} SumUpdate<E>(s: seq<E>, i: nat, x: E, f: E -> Amount)
    requires i < |s|
    ensures Plus(Sum(s[i := x], f), f(s[i])) == Plus(Sum(s, f), f(x))
  {
    var n := |s| - 1;
    if i == n {
      assert s[i := x][..n] == s[..n];
    } else {
      assert s[i := x][..n] == s[..n][i := x];
      SumUpdate(s[..n], i, x, f);
    }
  }

  lemma {:induction false} SumAtMost<E>(s: seq<E>, f: E -> Amount, g: E -> Amount)
    requires forall i :: 0 <= i < |s| ==> AtMost(f(s[i]), g(s[i]))
    ensures AtMost(Sum(s, f), Sum(s, g))
  {
    if |s| != 0 {
      SumAtMost(s[..|s| - 1], f, g);
    }
  }

  lemma {:induction false} SumAtMostBoth<E>(s: seq<E>, f: E -> Amount, g: E -> Amount, h: E -> Amount)
    requires forall i :: 0 <= i < |s| ==> AtMost(f(s[i]), Plus(g(s[i]), h(s[i])))
    ensures AtMost(Sum(s, f), Plus(Sum(s, g), Sum(s, h)))
  {
    if |s| != 0 {
      SumAtMostBoth(s[..|s| - 1], f, g, h);
    }
  }

  lemma {:induction false} SumSame<E>(s: seq<E>, f: E -> Amount, g: E -> Amount)
    requires forall i :: 0 <= i < |s| ==> f(s[i]) == g(s[i])
    ensures Sum(s, f) == Sum(s, g)
  {
    if |s| != 0 {
      SumSame(s[..|s| - 1], f, g);
    }
  }

  lemma {:induction false} SumNonNegative<E>(s: seq<E>, f: E -> Amount)
    requires forall i :: 0 <= i < |s| ==> AtMost(ZERO, f(s[i]))
    ensures AtMost(ZERO, Sum(s, f))
  {
    if |s| != 0 {
      SumNonNegative(s[..|s| - 1], f);
    }
  }

  /** A single record never exceeds a sum of non-negative contributions. */
  lemma {:induction false} SumCovers<E>(s: seq<E>, i: nat, f: E -> Amount)
    requires i < |s|
    requires forall j :: 0 <= j < |s| ==> AtMost(ZERO, f(s[j]))
    ensures AtMost(f(s[i]), Sum(s, f))
  {
    var n := |s| - 1;
    SumNonNegative(s[..n], f);
    if i < n {
      SumCovers(s[..n], i, f);
    }
  }

  lemma {:induction false} SumNonPositive<E>(s: seq<E>, f: E -> Amount)
    requires forall i :: 0 <= i < |s| ==> AtMost(f(s[i]), ZERO)
    ensures AtMost(Sum(s, f), ZERO)
  {
    if |s| != 0 {
      SumNonPositive(s[..|s| - 1], f);
    }
  }

  lemma SumZero<E>(s: seq<E>, f: E -> Amount)
    requires forall i :: 0 <= i < |s| ==> f(s[i]) == ZERO
    ensures Sum(s, f) == ZERO
  {
    SumNonNegative(s, f);
    SumNonPositive(s, f);
  }
}
