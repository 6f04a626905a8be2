/** 64-bit time stamps compared by the sign of their difference (kernel/sched/sched.h). */
module DlTime {

  const U64 := 0x1_0000_0000_0000_0000
  const HALF := 0x8000_0000_0000_0000

  type Stamp = x: int | 0 <= x < 0x1_0000_0000_0000_0000

  /** The stamp of a time on an unbounded clock. */
  function Wrap(x: int): Stamp { x % U64 }

  /** dl_time_before: (s64)(a - b) < 0. */
  predicate Before(a: Stamp, b: Stamp) { (a - b) % U64 >= HALF }

  /** Times less than 2^63 apart compare as their stamps do, wherever the counter wraps. */
  lemma BeforeIsLess(a: int, b: int)
    requires -HALF <= a - b < HALF
    ensures Before(Wrap(a), Wrap(b)) <==> a < b
  {
    DifferenceWraps(a, b);
  }

  lemma DifferenceWraps(a: int, b: int)
    ensures (Wrap(a) - Wrap(b)) % U64 == (a - b) % U64
  {
  }

  lemma WrapAdds(a: int, b: int)
    ensures Wrap(Wrap(a) + b) == Wrap(a + b)
  {
  }

  /** Every stamp of the collection lies less than 2^63 after w. */
  predicate Window(w: Stamp, q: seq<Stamp>) { forall i :: 0 <= i < |q| ==> (q[i] - w) % U64 < HALF }

  ghost predicate InWindow(q: seq<Stamp>) { exists w: Stamp :: Window(w, q) }

  lemma BeforeInWindow(w: Stamp, a: Stamp, b: Stamp)
    requires (a - w) % U64 < HALF && (b - w) % U64 < HALF
    ensures Before(a, b) <==> (a - w) % U64 < (b - w) % U64
    ensures a == b <==> (a - w) % U64 == (b - w) % U64
  {
  }

  /** Inside a window the comparison is a strict total order. */
  lemma Transitive(w: Stamp, a: Stamp, b: Stamp, c: Stamp)
    requires (a - w) % U64 < HALF && (b - w) % U64 < HALF && (c - w) % U64 < HALF
    ensures Before(a, b) && Before(b, c) ==> Before(a, c)
    ensures !Before(a, b) && !Before(b, c) ==> !Before(a, c)
    ensures Before(a, b) || a == b || Before(b, a)
    ensures !(Before(a, b) && Before(b, a))
  {
    BeforeInWindow(w, a, b);
    BeforeInWindow(w, b, a);
    BeforeInWindow(w, b, c);
    BeforeInWindow(w, a, c);
  }

  /** Outside any window it is not: three stamps can come round in a circle. */
  lemma CircleWithoutWindow()
    ensures exists a: Stamp, b: Stamp, c: Stamp :: Before(a, b) && Before(b, c) && Before(c, a)
  {
    var a: Stamp, b: Stamp, c: Stamp := 0, 0x6000_0000_0000_0000, 0xc000_0000_0000_0000;
    assert Before(a, b) && Before(b, c) && Before(c, a);
  }
}
