/**
  The constant bandwidth server of a deadline task (kernel/sched/deadline.c): execution is charged
  to a budget, and every replenishment of the budget postpones the deadline in proportion.
*/
module DlBudget {
  import opened Arith
  import opened DlTime

  const DL_SCALE := 1024

  /** The declared parameters of an entity: dl_runtime, dl_deadline and dl_period. */
  datatype Params = Params(runtime: int, deadline: int, period: int)

  predicate Declared(p: Params) { 0 < p.runtime < HALF && 0 < p.deadline < U64 && 0 < p.period < U64 }

  /**
    A point of the budget line: an entity that started with budget r0 and deadline d0 and was charged
    `charged` since has postponed its deadline by one period for each full budget it was granted.
  */
  predicate OnLine(p: Params, d0: int, r0: int, deadline: int, runtime: int, charged: int) {
    (deadline - d0) * p.runtime == (runtime + charged - r0) * p.period
  }

  /** Granting k budgets moves along the line. */
  lemma GrantStaysOnLine(p: Params, d0: int, r0: int, d: int, r: int, charged: int, k: int)
    requires OnLine(p, d0, r0, d, r, charged)
    ensures OnLine(p, d0, r0, d + k * p.period, r + k * p.runtime, charged)
  {
    assert (d + k * p.period - d0) * p.runtime == (d - d0) * p.runtime + (k * p.period) * p.runtime;
    assert (r + k * p.runtime + charged - r0) * p.period == (r + charged - r0) * p.period + (k * p.runtime) * p.period;
    assert (k * p.period) * p.runtime == (k * p.runtime) * p.period;
  }

  /** Isolation: what an entity not in debt has consumed never exceeds its bandwidth up to its deadline. */
  lemma ConsumptionIsBounded(p: Params, d0: int, r0: int, deadline: int, runtime: int, charged: int)
    requires Declared(p) && OnLine(p, d0, r0, deadline, runtime, charged) && runtime >= 0
    ensures charged * p.period <= (deadline - d0) * p.runtime + r0 * p.period
  {
    assert (runtime + charged - r0) * p.period == runtime * p.period + charged * p.period - r0 * p.period;
    assert runtime * p.period >= 0;
  }

  /** k is the least number of full budgets that ends a debt. */
  predicate LeastGrant(runtime: int, budget: int, k: nat) {
    runtime + k * budget > 0 && (k > 0 ==> runtime + (k - 1) * budget <= 0)
  }

  /** Fewer never do, so the number is unique. */
  lemma LeastGrantIsLeast(runtime: int, budget: int, k: nat, m: nat)
    requires budget > 0 && LeastGrant(runtime, budget, k) && runtime + m * budget > 0
    ensures k <= m
  {
    if m < k { Grows(m, k - 1, budget); }
  }

  // ---- the test made when a task wakes up --------------------------------------------------

  /** The two sides of the comparison, in the code's scaled units: budget left times period, time left times budget. */
  function Wanted(runtime: int, p: Params): int { (p.period / DL_SCALE) * (runtime / DL_SCALE) }

  function Allowed(deadline: Stamp, p: Params, t: Stamp): int {
    (Wrap(deadline - t) / DL_SCALE) * (p.runtime / DL_SCALE)
  }

  /** The budget left, spent until the deadline, stays within the bandwidth. */
  predicate WithinBandwidth(runtime: int, deadline: Stamp, p: Params, t: Stamp) {
    Wanted(runtime, p) <= Allowed(deadline, p, t)
  }

  /** dl_entity_overflow: the products are 64-bit words compared by the sign of their difference. */
  predicate Overflow(runtime: int, deadline: Stamp, p: Params, t: Stamp) {
    Before(Wrap(Allowed(deadline, p, t)), Wrap(Wanted(runtime, p)))
  }

  /** The products are less than 2^63 apart. */
  predicate Comparable(runtime: int, deadline: Stamp, p: Params, t: Stamp) {
    -HALF <= Allowed(deadline, p, t) - Wanted(runtime, p) < HALF
  }

  /** While the products stay apart by less than 2^63, that is the comparison of bandwidths it stands for. */
  lemma OverflowMeans(runtime: int, deadline: Stamp, p: Params, t: Stamp)
    requires Comparable(runtime, deadline, p, t)
    ensures Overflow(runtime, deadline, p, t) <==> !WithinBandwidth(runtime, deadline, p, t)
  {
    BeforeIsLess(Allowed(deadline, p, t), Wanted(runtime, p));
  }

  /** A fresh budget is not late, and fits its bandwidth exactly if the deadline is no shorter than the period. */
  lemma FreshBudget(p: Params, clock: Stamp)
    requires Declared(p)
    ensures p.deadline < HALF ==> !Before(Wrap(clock + p.deadline), clock)
    ensures WithinBandwidth(p.runtime, Wrap(clock + p.deadline), p, clock) <==>
            p.period / 1024 <= p.deadline / 1024 || p.runtime < 1024
  {
    if p.deadline < HALF { BeforeIsLess(clock + p.deadline, clock); }
    TimeLeft(p.deadline, clock);
    var a, b, k := p.period / DL_SCALE, p.deadline / DL_SCALE, p.runtime / DL_SCALE;
    assert Wanted(p.runtime, p) == a * k && Allowed(Wrap(clock + p.deadline), p, clock) == b * k;
    Compare(a, b, k);
  }

  lemma TimeLeft(d: int, clock: Stamp)
    requires 0 <= d < U64
    ensures Wrap(Wrap(clock + d) - clock) == d
  {
  }

  lemma Compare(a: int, b: int, k: int)
    requires k >= 0
    ensures a * k <= b * k <==> a <= b || k == 0
  {
    if a <= b { Grows(a, b, k); } else { Grows(b + 1, a, k); }
  }

  // ---- the entity ---------------------------------------------------------------------------

  /**
    A deadline entity that is not boosted. `due` is its deadline on an unbounded clock; start and base are the
    deadline and budget at the last reset and `charged` is everything taken from the budget since.
  */
  class DlEntity {
    const dl: Params
    var deadline: Stamp
    var runtime: int
    ghost var due: int
    ghost var start: int
    ghost var base: int
    ghost var charged: int

    ghost predicate Valid()
      reads this
    {
      Declared(dl) && deadline == Wrap(due) && OnLine(dl, start, base, due, runtime, charged)
    }

    /** setup_new_dl_entity: a new instance gets a full budget and a deadline from now. */
    constructor (p: Params, clock: Stamp)
      requires Declared(p)
      ensures Valid() && dl == p && runtime == p.runtime && deadline == Wrap(clock + p.deadline)
      ensures start == due && base == runtime && charged == 0
    {
      dl := p;
      deadline := Wrap(clock + p.deadline);
      runtime := p.runtime;
      due, start := clock + p.deadline, clock + p.deadline;
      base, charged := p.runtime, 0;
    }

    method Reset(clock: Stamp)
      requires Valid()
      modifies this
      ensures Valid() && runtime == dl.runtime && deadline == Wrap(clock + dl.deadline)
      ensures start == due && base == runtime && charged == 0
    {
      deadline := Wrap(clock + dl.deadline);
      runtime := dl.runtime;
      due, start := clock + dl.deadline, clock + dl.deadline;
      base, charged := dl.runtime, 0;
    }

    /**
      The budget step of update_curr_dl with dl_runtime_exceeded: charge the time executed, and on a missed
      deadline forfeit what is left and charge the lateness too.
    */
    method UpdateCurr(delta: nat, clock: Stamp) returns (exceeded: bool)
      requires Valid()
      modifies this`runtime, this`charged
      ensures Valid()
      ensures exceeded <==> old(runtime) - delta <= 0 || Before(deadline, clock)
      ensures exceeded ==> runtime <= 0
      ensures !exceeded ==> runtime == old(runtime) - delta > 0
      ensures charged - old(charged) == old(runtime) - runtime >= delta
      ensures !Before(deadline, clock) ==> runtime == old(runtime) - delta
      ensures Before(deadline, clock) ==>
        runtime == (if old(runtime) - delta <= 0 then old(runtime) - delta else 0) - Wrap(clock - deadline)
    {
      runtime := runtime - delta;
      charged := charged + delta;
      var dmiss := Before(deadline, clock);
      var rorun := runtime <= 0;
      if !rorun && !dmiss { return false; }
      if dmiss {
        var late := Wrap(clock - deadline);
        charged := charged + (if rorun then 0 else runtime) + late;
        runtime := if rorun then runtime else 0;
        runtime := runtime - late;
      }
      return true;
    }

    /**
      replenish_dl_entity: grant whole budgets, one period each, until the budget is positive; the least
      number does it. Only if the deadline is then still in the past is the entity reset.
    */
    method Replenish(clock: Stamp) returns (reset: bool, ghost k: nat)
      requires Valid()
      modifies this
      ensures Valid() && LeastGrant(old(runtime), dl.runtime, k)
      ensures reset <==> Before(Wrap(old(due) + k * dl.period), clock)
      ensures !reset ==>
        && due == old(due) + k * dl.period && runtime == old(runtime) + k * dl.runtime
        && start == old(start) && base == old(base) && charged == old(charged)
      ensures reset ==> runtime == dl.runtime && deadline == Wrap(clock + dl.deadline) && charged == 0
      ensures old(runtime) <= 0 || reset ==> 0 < runtime <= dl.runtime
    {
      k := 0;
      while runtime <= 0
        invariant 0 <= k && Declared(dl) && deadline == Wrap(due)
        invariant start == old(start) && base == old(base) && charged == old(charged)
        invariant due == old(due) + k * dl.period && runtime == old(runtime) + k * dl.runtime
        invariant k > 0 ==> old(runtime) + (k - 1) * dl.runtime <= 0
        invariant OnLine(dl, start, base, due, runtime, charged)
        decreases if runtime <= 0 then 1 - runtime else 0
      {
        GrantStaysOnLine(dl, start, base, due, runtime, charged, 1);
        WrapAdds(due, dl.period);
        assert (k + 1) * dl.period == k * dl.period + dl.period && (k + 1) * dl.runtime == k * dl.runtime + dl.runtime;
        deadline := Wrap(deadline + dl.period);
        runtime := runtime + dl.runtime;
        due := due + dl.period;
        k := k + 1;
      }
      assert k > 0 ==> (k - 1) * dl.runtime == k * dl.runtime - dl.runtime;
      reset := Before(deadline, clock);
      if reset { Reset(clock); }
    }

    /**
      update_dl_entity for a task that wakes up. Afterwards it is not late, and an entity that kept its
      deadline and budget is within its bandwidth; one that was reset is so exactly if its relative deadline
      is no shorter than its period.
    */
    method Update(clock: Stamp) returns (reset: bool)
      requires Valid()
      modifies this
      ensures Valid()
      ensures dl.deadline < HALF ==> !Before(deadline, clock)
      ensures Comparable(old(runtime), old(deadline), dl, clock) ==>
        (!reset <==> !Before(old(deadline), clock) && WithinBandwidth(old(runtime), old(deadline), dl, clock))
      ensures !reset ==> deadline == old(deadline) && runtime == old(runtime) && charged == old(charged)
      ensures !reset && Comparable(runtime, deadline, dl, clock) ==> WithinBandwidth(runtime, deadline, dl, clock)
      ensures reset ==> runtime == dl.runtime && charged == 0
      ensures reset ==>
        (WithinBandwidth(runtime, deadline, dl, clock) <==>
          dl.period / 1024 <= dl.deadline / 1024 || dl.runtime < 1024)
    {
      if Comparable(runtime, deadline, dl, clock) { OverflowMeans(runtime, deadline, dl, clock); }
      FreshBudget(dl, clock);
      reset := Before(deadline, clock) || Overflow(runtime, deadline, dl, clock);
      if reset { Reset(clock); }
    }
  }

  /** A task with a deadline shorter than its period: even its fresh budget is over the bandwidth the test allows. */
  lemma ConstrainedDeadline(clock: Stamp)
    ensures var p := Params(4096, 10240, 20480);
            Declared(p) && !WithinBandwidth(p.runtime, Wrap(clock + p.deadline), p, clock)
  {
    FreshBudget(Params(4096, 10240, 20480), clock);
  }
}
