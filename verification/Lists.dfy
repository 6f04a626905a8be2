/** Operations on plain lists of numbers that several components share. */
module Lists {

  /** q with every x taken out. */
  function Without(q: seq<nat>, x: nat): seq<nat> {
    if q == [] then [] else if q[0] == x then Without(q[1..], x) else [q[0]] + Without(q[1..], x)
  }

  lemma {:induction false} WithoutMembers(q: seq<nat>, x: nat)
    ensures forall y :: y in Without(q, x) <==> y in q && y != x
  {
    if q != [] { WithoutMembers(q[1..], x); }
  }

  /** q' is q with some entries taken out, the rest in the same order. */
  predicate Sub(q': seq<nat>, q: seq<nat>)
    decreases |q|
  {
    q' == [] || (q != [] && if q[0] == q'[0] then Sub(q'[1..], q[1..]) else Sub(q', q[1..]))
  }

  lemma {:induction false} SubRefl(q: seq<nat>)
    ensures Sub(q, q)
  {
    if q != [] { SubRefl(q[1..]); }
  }

  lemma {:induction false} SubTail(q': seq<nat>, q: seq<nat>)
    requires Sub(q', q) && q' != []
    ensures Sub(q'[1..], q)
    decreases |q|, 1
  {
    if q[0] != q'[0] { SubTail(q', q[1..]); }
    SubDrop(q'[1..], q);
  }

  lemma {:induction false} SubDrop(q': seq<nat>, q: seq<nat>)
    requires q != [] && Sub(q', q[1..])
    ensures Sub(q', q)
    decreases |q|, 0
  {
    if q' != [] && q[0] == q'[0] { SubTail(q', q[1..]); }
  }

  lemma {:induction false} WithoutIsSub(q: seq<nat>, x: nat)
    ensures Sub(Without(q, x), q)
  {
    if q != [] {
      WithoutIsSub(q[1..], x);
      if q[0] == x { SubDrop(Without(q[1..], x), q); }
      else { assert ([q[0]] + Without(q[1..], x))[1..] == Without(q[1..], x); }
    }
  }

  lemma {:induction false} SubMembers(q': seq<nat>, q: seq<nat>, x: nat)
    requires Sub(q', q) && x in q'
    ensures x in q
    decreases |q|
  {
    if q[0] == q'[0] {
      if x != q[0] { SubMembers(q'[1..], q[1..], x); }
    } else {
      SubMembers(q', q[1..], x);
    }
  }
}
