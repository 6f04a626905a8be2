/**
  Sharing of real-time budget between run queues (kernel/sched/rt.c): a queue that runs out borrows
  from its neighbours, and a queue going offline takes back what it lent. Budget is never created,
  lost or left unreclaimable.
*/
module RtRuntime {
  import opened Arith
  import opened SeqSums

  /** RUNTIME_INF marks a disabled queue. */
  datatype Runtime = Inf | Ns(ns: int)
  datatype RtRq = RtRq(runtime: Runtime, time: nat, throttled: bool)

  predicate Enabled(q: RtRq) { q.runtime.Ns? }

  function Budget(q: RtRq): int { if q.runtime.Ns? then q.runtime.ns else 0 }
  function One(q: RtRq): int { if q.runtime.Ns? then 1 else 0 }

  /** What an enabled queue holds beyond the group's runtime r: negative when it has lent. */
  function Excess(r: int): RtRq -> int { (q: RtRq) => if q.runtime.Ns? then q.runtime.ns - r else 0 }

  /** The part of its spare time a lender gives: one n-th of what it has not used. */
  function Share(q: RtRq, weight: nat): int
    requires weight > 0
  {
    if q.runtime.Ns? && q.runtime.ns > q.time then (q.runtime.ns - q.time) / weight else 0
  }

  predicate Sound(q: RtRq) { q.runtime.Ns? ==> q.runtime.ns >= 0 }

  predicate AllSound(rq: seq<RtRq>) { forall j :: 0 <= j < |rq| ==> Sound(rq[j]) }

  lemma {:induction false} ExcessIsTotal(rq: seq<RtRq>, r: int)
    ensures Sum(rq, Excess(r)) == Sum(rq, Budget) - r * Sum(rq, One)
  {
    if rq != [] {
      ExcessIsTotal(rq[1..], r);
      assert r * Sum(rq, One) == r * One(rq[0]) + r * Sum(rq[1..], One);
    }
  }

  /** If every queue but i is empty-handed or disabled, their total excess is at most zero. */
  lemma {:induction false} Drained(rq: seq<RtRq>, r: int, i: nat)
    requires r >= 0 && i < |rq| && forall j :: 0 <= j < |rq| && j != i ==> Budget(rq[j]) == 0
    ensures Sum(rq, Excess(r)) <= Excess(r)(rq[i])
  {
    if i == 0 {
      SumUpper(rq[1..], Excess(r), 0);
    } else {
      Drained(rq[1..], r, i - 1);
    }
  }

  /** If nobody else is enabled, queue i's excess is all there is. */
  lemma {:induction false} Alone(rq: seq<RtRq>, r: int, i: nat)
    requires i < |rq| && forall j :: 0 <= j < |rq| && j != i ==> rq[j].runtime.Inf?
    ensures Sum(rq, Excess(r)) == Excess(r)(rq[i])
  {
    if i == 0 {
      SumUpper(rq[1..], Excess(r), 0);
      SumNonNegative(rq[1..], Excess(r));
    } else {
      assert rq[1..][i - 1] == rq[i];
      Alone(rq[1..], r, i - 1);
    }
  }

  /** Moving d from queue j to queue i. */
  function Moved(rq: seq<RtRq>, i: nat, j: nat, d: int): seq<RtRq>
    requires i < |rq| && j < |rq| && i != j && rq[i].runtime.Ns? && rq[j].runtime.Ns?
  {
    rq[j := rq[j].(runtime := Ns(rq[j].runtime.ns - d))][i := rq[i].(runtime := Ns(rq[i].runtime.ns + d))]
  }

  lemma MovedKeepsTotal(rq: seq<RtRq>, i: nat, j: nat, d: int, r: int)
    requires i < |rq| && j < |rq| && i != j && rq[i].runtime.Ns? && rq[j].runtime.Ns?
    ensures Sum(Moved(rq, i, j, d), Excess(r)) == Sum(rq, Excess(r))
  {
    var rq1 := rq[j := rq[j].(runtime := Ns(rq[j].runtime.ns - d))];
    SumUpdate(rq, j, rq1[j], Excess(r));
    SumUpdate(rq1, i, rq[i].(runtime := Ns(rq[i].runtime.ns + d)), Excess(r));
  }

  /** Every lender before k gave borrower i its share, and none gave time it had already used. */
  ghost predicate SharesTaken(was: seq<RtRq>, rq: seq<RtRq>, i: nat, k: nat)
    requires |was| == |rq| && i < |rq|
  {
    && k <= |rq| && Same(was, rq, i)
    && (forall j :: 0 <= j < k && j != i ==> Budget(was[j]) - Budget(rq[j]) == Share(was[j], |rq|))
    && (forall j :: 0 <= j < |rq| && j != i && Budget(rq[j]) < Budget(was[j]) ==> Budget(rq[j]) >= rq[j].time)
  }

  /** The state of the borrowing loop before lender k. */
  ghost predicate Borrowing(was: seq<RtRq>, rq: seq<RtRq>, i: nat, k: nat, period: int)
    requires |was| == |rq| && i < |rq|
  {
    && SharesTaken(was, rq, i, k)
    && (forall j :: k <= j < |rq| && j != i ==> rq[j] == was[j])
    && (Budget(rq[i]) <= period || Budget(rq[i]) <= Budget(was[i]))
  }

  /** Borrower i asked every lender below k for its share and stopped at k only by reaching the period. */
  ghost predicate Borrowed(was: seq<RtRq>, rq: seq<RtRq>, i: nat, k: nat, period: int)
    requires |was| == |rq| && i < |rq|
  {
    && SharesTaken(was, rq, i, k)
    && (forall j :: k < j < |rq| && j != i ==> rq[j] == was[j])
    && (k < |rq| ==> k != i && Budget(rq[i]) == period)
  }

  /** Only the amounts differ: no queue was enabled or disabled, and i's neighbours keep their times. */
  predicate Same(was: seq<RtRq>, rq: seq<RtRq>, i: nat)
    requires |was| == |rq|
  {
    forall j :: 0 <= j < |rq| ==> rq[j] == was[j].(runtime := rq[j].runtime) && Enabled(rq[j]) == Enabled(was[j])
  }

  /** One of the first k queues, other than i, has time to spare. */
  ghost predicate Lenders(rq: seq<RtRq>, i: nat, k: nat)
    requires k <= |rq|
  {
    exists j :: 0 <= j < k && j != i && HasSpare(rq[j])
  }

  predicate HasSpare(q: RtRq) { q.runtime.Ns? && q.runtime.ns > q.time }

  lemma OneMoreLender(rq: seq<RtRq>, i: nat, k: nat)
    requires k < |rq|
    ensures Lenders(rq, i, k + 1) <==> Lenders(rq, i, k) || (k != i && HasSpare(rq[k]))
  {
  }

  /** Taking d from lender j: its share, or what is missing to the period. */
  lemma LenderStep(was: seq<RtRq>, rq: seq<RtRq>, i: nat, j: nat, d: int, period: int)
    requires |was| == |rq| && i < |rq| && j < |rq| && i != j && rq[i].runtime.Ns? && rq[j].runtime.Ns?
    requires Borrowing(was, rq, i, j, period) && AllSound(rq) && period >= 0 && rq[j].runtime.ns > rq[j].time
    requires var share := Share(rq[j], |rq|);
             d == if rq[i].runtime.ns + share > period then period - rq[i].runtime.ns else share
    ensures var rq' := Moved(rq, i, j, d);
            && AllSound(rq')
            && (Budget(rq'[i]) == period ==> Borrowed(was, rq', i, j, period))
            && (Budget(rq'[i]) != period ==> Borrowing(was, rq', i, j + 1, period))
  {
    QuotientFits(rq[j].runtime.ns - rq[j].time, |rq|);
    assert Sound(rq[i]) && Sound(rq[j]) && rq[j] == was[j];
  }

  /** A queue that has nothing to lend is passed over. */
  lemma LenderSkipped(was: seq<RtRq>, rq: seq<RtRq>, i: nat, j: nat, period: int)
    requires |was| == |rq| && i < |rq| && j < |rq| && Borrowing(was, rq, i, j, period)
    requires j == i || rq[j].runtime.Inf? || rq[j].runtime.ns <= rq[j].time
    ensures Borrowing(was, rq, i, j + 1, period)
  {
  }

  lemma AllAsked(was: seq<RtRq>, rq: seq<RtRq>, i: nat, period: int)
    requires |was| == |rq| && i < |rq| && Borrowing(was, rq, i, |rq|, period)
    ensures Borrowed(was, rq, i, |rq|, period)
  {
  }

  class RtBandwidth {
    const period: int
    const runtime: int
    var rq: seq<RtRq>

    /** The enabled queues together hold the group's runtime once each, and none is in debt. */
    predicate Valid()
      reads this
    {
      0 <= runtime <= period && AllSound(rq) && Sum(rq, Excess(runtime)) == 0
    }

    constructor (cpus: nat, r: int, p: int)
      requires 0 <= r <= p
      ensures Valid() && |rq| == cpus && runtime == r && period == p
      ensures forall i :: 0 <= i < cpus ==> rq[i] == RtRq(Ns(r), 0, false)
    {
      period, runtime := p, r;
      rq := seq(cpus, _ => RtRq(Ns(r), 0, false));
      new;
      SumUpper(rq, Excess(runtime), 0);
      SumNonNegative(rq, Excess(runtime));
    }

    lemma Conservation()
      requires Valid()
      ensures Sum(rq, Budget) == runtime * Sum(rq, One)
    {
      ExcessIsTotal(rq, runtime);
    }

    /** Real-time tasks on queue i used some time. */
    method Charge(i: nat, delta: nat)
      requires Valid() && i < |rq|
      modifies this`rq
      ensures Valid() && rq == old(rq)[i := old(rq)[i].(time := old(rq)[i].time + delta)]
    {
      SumUpdate(rq, i, rq[i].(time := rq[i].time + delta), Excess(runtime));
      rq := rq[i := rq[i].(time := rq[i].time + delta)];
    }

    /** balance_runtime: borrow only when over budget. */
    method Balance(i: nat) returns (more: bool)
      requires Valid() && i < |rq|
      modifies this`rq
      ensures Valid() && |rq| == |old(rq)|
      ensures old(rq)[i].runtime.Inf? || old(rq)[i].time <= old(rq)[i].runtime.ns ==> rq == old(rq) && !more
      ensures Budget(rq[i]) <= period || Budget(rq[i]) <= Budget(old(rq)[i])
      ensures old(rq)[i].runtime.Ns? && old(rq)[i].time > old(rq)[i].runtime.ns ==>
        && (exists k :: Borrowed(old(rq), rq, i, k, period))
        && (more <==> Lenders(old(rq), i, |rq|))
    {
      more := false;
      if rq[i].runtime.Ns? && rq[i].time > rq[i].runtime.ns {
        more := DoBalance(i);
      }
    }

    /** do_balance_runtime, for an enabled queue. */
    method DoBalance(i: nat) returns (more: bool)
      requires Valid() && i < |rq| && rq[i].runtime.Ns?
      modifies this`rq
      ensures Valid() && |rq| == |old(rq)| && rq[i].runtime.Ns?
      ensures exists k :: Borrowed(old(rq), rq, i, k, period)
      ensures Budget(rq[i]) <= period || Budget(rq[i]) <= Budget(old(rq)[i])
      ensures more <==> Lenders(old(rq), i, |rq|)
      ensures !more ==> rq == old(rq)
    {
      more := false;
      var weight := |rq|;
      var j := 0;
      while j < weight
        invariant 0 <= j <= weight == |rq| == |old(rq)| && Valid() && rq[i].runtime.Ns?
        invariant Borrowing(old(rq), rq, i, j, period)
        invariant !more ==> rq == old(rq)
        invariant more <==> Lenders(old(rq), i, j)
        decreases weight - j
      {
        OneMoreLender(old(rq), i, j);
        if j == i || rq[j].runtime.Inf? {
          LenderSkipped(old(rq), rq, i, j, period);
        } else {
          var diff := rq[j].runtime.ns - rq[j].time;
          if diff <= 0 {
            LenderSkipped(old(rq), rq, i, j, period);
          } else {
            diff := diff / weight;
            assert diff == Share(rq[j], weight);
            if rq[i].runtime.ns + diff > period { diff := period - rq[i].runtime.ns; }
            MovedKeepsTotal(rq, i, j, diff, runtime);
            LenderStep(old(rq), rq, i, j, diff, period);
            rq := Moved(rq, i, j, diff);
            more := true;
            if rq[i].runtime.ns == period { return; }
          }
        }
        j := j + 1;
      }
      AllAsked(old(rq), rq, i, period);
    }

    /**
      __disable_runtime: a queue that is not level with the group's runtime first reclaims what it lent
      (or hands back what it borrowed). `bug` is BUG_ON(want): it is never hit.
    */
    method Disable(i: nat) returns (bug: bool)
      requires Valid() && i < |rq|
      modifies this`rq
      ensures !bug && Valid() && |rq| == |old(rq)|
      ensures rq[i] == old(rq)[i].(runtime := Inf, throttled := false)
      ensures forall j :: 0 <= j < |rq| && j != i ==>
        rq[j] == old(rq)[j].(runtime := rq[j].runtime) && Enabled(rq[j]) == Enabled(old(rq)[j])
    {
      bug := false;
      if rq[i].runtime.Ns? && rq[i].runtime.ns != runtime {
        var want := runtime - rq[i].runtime.ns;
        want := Reclaim(i, want);
        bug := want != 0;
      }
      SumUpdate(rq, i, rq[i].(runtime := Inf, throttled := false), Excess(runtime));
      rq := rq[i := rq[i].(runtime := Inf, throttled := false)];
    }

    /**
      The greedy reclaim. Lenders are emptied in order until the wanted amount is found; a surplus goes to
      the first enabled neighbour. The neighbours end with exactly their own entitlements in total.
    */
    method Reclaim(i: nat, short: int) returns (want: int)
      requires Valid() && i < |rq| && rq[i].runtime.Ns? && short == runtime - rq[i].runtime.ns && short != 0
      modifies this`rq
      ensures want == 0 && AllSound(rq) && |rq| == |old(rq)| && rq[i] == old(rq)[i] && Same(old(rq), rq, i)
      ensures Sum(rq, Excess(runtime)) == -short
      ensures short > 0 ==> forall j :: 0 <= j < |rq| ==> Budget(rq[j]) <= Budget(old(rq)[j])
    {
      want := short;
      var j := 0;
      while j < |rq|
        invariant 0 <= j <= |rq| == |old(rq)| && AllSound(rq) && rq[i] == old(rq)[i] && Same(old(rq), rq, i)
        invariant Sum(rq, Excess(runtime)) == want - short && want != 0
        invariant (short > 0 ==> 0 < want) && (short < 0 ==> want == short)
        invariant want > 0 ==> forall m :: 0 <= m < j && m != i ==> Budget(rq[m]) == 0
        invariant want < 0 ==> forall m :: 0 <= m < j && m != i ==> rq[m].runtime.Inf?
        invariant short > 0 ==> forall m :: 0 <= m < |rq| ==> Budget(rq[m]) <= Budget(old(rq)[m])
        decreases |rq| - j
      {
        if j != i && rq[j].runtime.Ns? {
          assert Sound(rq[j]);
          var diff := if want > 0 && rq[j].runtime.ns < want then rq[j].runtime.ns else want;
          SumUpdate(rq, j, rq[j].(runtime := Ns(rq[j].runtime.ns - diff)), Excess(runtime));
          rq := rq[j := rq[j].(runtime := Ns(rq[j].runtime.ns - diff))];
          want := want - diff;
          if want == 0 { return; }
        }
        j := j + 1;
      }
      if want > 0 { Drained(rq, runtime, i); } else { Alone(rq, runtime, i); }
    }

    /** __enable_runtime, for a queue that was disabled. */
    method Enable(i: nat)
      requires Valid() && i < |rq| && rq[i].runtime.Inf?
      modifies this`rq
      ensures Valid() && rq == old(rq)[i := RtRq(Ns(runtime), 0, false)]
    {
      SumUpdate(rq, i, RtRq(Ns(runtime), 0, false), Excess(runtime));
      rq := rq[i := RtRq(Ns(runtime), 0, false)];
    }
  }

  /** Enabling keeps the budget balanced exactly for a queue that is disabled or level with the group. */
  lemma EnableConserves(rq: seq<RtRq>, i: nat, r: int)
    requires i < |rq| && Sum(rq, Excess(r)) == 0
    ensures Sum(rq[i := RtRq(Ns(r), 0, false)], Excess(r)) == 0 <==> rq[i].runtime == Inf || rq[i].runtime == Ns(r)
  {
    SumUpdate(rq, i, RtRq(Ns(r), 0, false), Excess(r));
  }
}
