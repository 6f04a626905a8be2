/** Sums of an integer weight over a sequence, and how they move when one element changes. */
module SeqSums {

  function Sum<T>(s: seq<T>, f: T -> int): int {
    if s == [] then 0 else f(s[0]) + Sum(s[1..], f)
  }

  /** Replacing one element moves the sum by the difference of the two weights. */
  lemma {:induction false} SumUpdate<T>(s: seq<T>, i: nat, v: T, f: T -> int)
    requires i < |s|
    ensures Sum(s[i := v], f) == Sum(s, f) - f(s[i]) + f(v)
  {
    if i == 0 {
      assert s[i := v][1..] == s[1..];
    } else {
      assert s[i := v][1..] == s[1..][i - 1 := v];
      SumUpdate(s[1..], i - 1, v, f);
    }
  }

  /** With non-negative weights, any two different elements weigh no more than the whole. */
  lemma {:induction false} SumAtLeast<T>(s: seq<T>, i: nat, f: T -> int)
    requires i < |s|
    requires forall k :: 0 <= k < |s| ==> f(s[k]) >= 0
    ensures f(s[i]) <= Sum(s, f)
    ensures forall j :: 0 <= j < |s| && j != i ==> f(s[i]) + f(s[j]) <= Sum(s, f)
  {
    SumNonNegative(s[1..], f);
    if i == 0 {
      forall j | 0 < j < |s| ensures f(s[0]) + f(s[j]) <= Sum(s, f) {
        SumAtLeast(s[1..], j - 1, f);
      }
    } else {
      SumAtLeast(s[1..], i - 1, f);
      forall j | 0 <= j < |s| && j != i ensures f(s[i]) + f(s[j]) <= Sum(s, f) {
        if j > 0 { assert s[j] == s[1..][j - 1]; }
      }
    }
  }

  lemma {:induction false} SumNonNegative<T>(s: seq<T>, f: T -> int)
    requires forall k :: 0 <= k < |s| ==> f(s[k]) >= 0
    ensures Sum(s, f) >= 0
  {
    if s != [] { SumNonNegative(s[1..], f); }
  }

  /** Two weights that agree on every element have the same sum. */
  lemma {:induction false} SumCong<T, U>(s: seq<T>, f: T -> int, t: seq<U>, h: U -> int)
    requires |s| == |t|
    requires forall k :: 0 <= k < |s| ==> f(s[k]) == h(t[k])
    ensures Sum(s, f) == Sum(t, h)
  {
    if s != [] { SumCong(s[1..], f, t[1..], h); }
  }

  /** Bounding every element bounds the sum. */
  lemma {:induction false} SumUpper<T>(s: seq<T>, f: T -> int, b: int)
    requires forall k :: 0 <= k < |s| ==> f(s[k]) <= b
    ensures Sum(s, f) <= b * |s|
  {
    if s != [] { SumUpper(s[1..], f, b); }
  }
}
