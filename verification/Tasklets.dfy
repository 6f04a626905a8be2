/**
  Delivery of normal-priority tasklets (kernel/softirq.c, include/linux/interrupt.h) on any number of
  CPUs, as a machine of atomic steps over the per-CPU lists, the pending bit and the SCHED and RUN bits.
*/
module Tasklets {
  import opened SeqSums

  /**
    count is the disable count, of which `synced` disables have also seen RUN clear (tasklet_disable has
    returned). sets and runs count the settings of SCHED and the calls of the function.
  */
  datatype Tasklet = Tasklet(sched: bool, run: bool, count: nat, synced: nat, sets: nat, runs: nat)

  /**
    Softirq processing on one CPU: no tasklet work; pending bits taken and cleared but tasklet_action not yet
    called; then, with the stolen list `rest`, between tasklets or at one of the steps for tasklet t.
  */
  datatype Pc =
    | Out
    | Snapped
    | Draining(rest: seq<nat>)
    | Trying(t: nat, rest: seq<nat>)
    | Locked(t: nat, rest: seq<nat>)
    | Clearing(t: nat, rest: seq<nat>)
    | Running(t: nat, rest: seq<nat>)
    | Unlocking(t: nat, rest: seq<nat>)
    | Requeueing(t: nat, rest: seq<nat>)

  datatype Cpu = Cpu(list: seq<nat>, pending: bool, pc: Pc)

  /** `appending` holds the tasklets whose bit was just set by a caller that has not linked them yet. */
  datatype State = State(cpu: seq<Cpu>, tl: seq<Tasklet>, appending: multiset<nat>, bug: bool)

  datatype Move =
    | Schedule(t: nat) | Append(t: nat, c: nat)
    | Softirq(c: nat) | Advance(c: nat)
    | Disable(t: nat) | SeeIdle(t: nat) | Enable(t: nat) | EnableSynced(t: nat)

  function Init(cpus: nat, counts: seq<nat>): State {
    State(seq(cpus, _ => Cpu([], false, Out)),
          seq(|counts|, i requires 0 <= i < |counts| => Tasklet(false, false, counts[i], 0, 0, 0)),
          multiset{}, false)
  }

  function SetPc(s: State, c: nat, pc: Pc): State
    requires c < |s.cpu|
  {
    s.(cpu := s.cpu[c := s.cpu[c].(pc := pc)])
  }

  function SetTl(s: State, t: nat, v: Tasklet): State {
    if t < |s.tl| then s.(tl := s.tl[t := v]) else s
  }

  /** Link t at the tail of a CPU's list and raise its softirq, with interrupts off. */
  function Link(k: Cpu, t: nat): Cpu { k.(list := k.list + [t], pending := true) }

  /** One step of tasklet_action on CPU c. */
  function Act(s: State, c: nat): (s': State)
    requires c < |s.cpu|
    ensures |s'.cpu| == |s.cpu| && |s'.tl| == |s.tl|
  {
    var k := s.cpu[c];
    match k.pc
    case Out => s
    case Snapped => s.(cpu := s.cpu[c := k.(list := [], pc := Draining(k.list))])
    case Draining(rest) => if rest == [] then SetPc(s, c, Out) else SetPc(s, c, Trying(rest[0], rest[1..]))
    case Trying(t, rest) =>
      if t >= |s.tl| then s
      else if s.tl[t].run then SetPc(s, c, Requeueing(t, rest))
      else SetTl(SetPc(s, c, Locked(t, rest)), t, s.tl[t].(run := true))
    case Locked(t, rest) =>
      if t >= |s.tl| then s
      else SetPc(s, c, if s.tl[t].count == 0 then Clearing(t, rest) else Unlocking(t, rest))
    case Clearing(t, rest) =>
      if t >= |s.tl| then s
      else if !s.tl[t].sched then s.(bug := true)
      else SetTl(SetPc(s, c, Running(t, rest)), t, s.tl[t].(sched := false, runs := s.tl[t].runs + 1))
    case Running(t, rest) =>
      if t >= |s.tl| then s else SetTl(SetPc(s, c, Draining(rest)), t, s.tl[t].(run := false))
    case Unlocking(t, rest) =>
      if t >= |s.tl| then s else SetTl(SetPc(s, c, Requeueing(t, rest)), t, s.tl[t].(run := false))
    case Requeueing(t, rest) => s.(cpu := s.cpu[c := Link(k, t).(pc := Draining(rest))])
  }

  function Step(s: State, m: Move): State {
    match m
    case Schedule(t) =>
      if t < |s.tl| && !s.tl[t].sched then
        SetTl(s, t, s.tl[t].(sched := true, sets := s.tl[t].sets + 1)).(appending := s.appending + multiset{t})
      else s
    case Append(t, c) =>
      if c < |s.cpu| && t in s.appending then
        s.(cpu := s.cpu[c := Link(s.cpu[c], t)], appending := s.appending - multiset{t})
      else s
    case Softirq(c) =>
      if c < |s.cpu| && s.cpu[c].pc.Out? && s.cpu[c].pending then
        s.(cpu := s.cpu[c := s.cpu[c].(pending := false, pc := Snapped)])
      else s
    case Advance(c) => if c < |s.cpu| then Act(s, c) else s
    case Disable(t) => if t < |s.tl| then SetTl(s, t, s.tl[t].(count := s.tl[t].count + 1)) else s
    case SeeIdle(t) =>
      if t < |s.tl| && !s.tl[t].run && s.tl[t].synced < s.tl[t].count then
        SetTl(s, t, s.tl[t].(synced := s.tl[t].synced + 1))
      else s
    case Enable(t) =>
      if t < |s.tl| && s.tl[t].synced < s.tl[t].count then SetTl(s, t, s.tl[t].(count := s.tl[t].count - 1)) else s
    case EnableSynced(t) =>
      if t < |s.tl| && 0 < s.tl[t].synced && 0 < s.tl[t].count then
        SetTl(s, t, s.tl[t].(count := s.tl[t].count - 1, synced := s.tl[t].synced - 1))
      else s
  }

  function Run(s: State, ms: seq<Move>): State
    decreases |ms|
  {
    if ms == [] then s else Run(Step(s, ms[0]), ms[1..])
  }

  // ---- the invariant ------------------------------------------------------------------------

  function Rest(pc: Pc): seq<nat> { if pc.Out? || pc.Snapped? then [] else pc.rest }

  /** The tasklet a CPU has in hand and has not yet started. */
  predicate InHand(pc: Pc, t: nat) {
    (pc.Trying? || pc.Locked? || pc.Clearing? || pc.Unlocking? || pc.Requeueing?) && pc.t == t
  }

  /** The CPU holds t's RUN bit. */
  predicate Holds(pc: Pc, t: nat) { (pc.Locked? || pc.Clearing? || pc.Running? || pc.Unlocking?) && pc.t == t }

  function Count(q: seq<nat>, t: nat): nat { if q == [] then 0 else Bit(q[0] == t) + Count(q[1..], t) }

  /** How many times t is on this CPU's list, on the list it drains, or in its hand. */
  function On(k: Cpu, t: nat): int {
    Count(k.list, t) + Count(Rest(k.pc), t) + if InHand(k.pc, t) then 1 else 0
  }

  function OnBy(t: nat): Cpu -> int { (k: Cpu) => On(k, t) }

  function HoldsBy(t: nat): Cpu -> int { (k: Cpu) => if Holds(k.pc, t) then 1 else 0 }

  function Bit(b: bool): nat { if b then 1 else 0 }

  predicate PlacedOnce(s: State) {
    forall t :: 0 <= t < |s.tl| ==> Sum(s.cpu, OnBy(t)) + s.appending[t] == Bit(s.tl[t].sched)
  }

  predicate RunOnce(s: State) { forall t :: 0 <= t < |s.tl| ==> Sum(s.cpu, HoldsBy(t)) == Bit(s.tl[t].run) }

  predicate TlOk(v: Tasklet) { v.sets == v.runs + Bit(v.sched) && v.synced <= v.count }

  predicate Counted(s: State) { forall t :: 0 <= t < |s.tl| ==> TlOk(s.tl[t]) }

  /** A CPU past its count check works on a tasklet nobody has synchronously disabled; what it lists is being served. */
  predicate CpuOk(k: Cpu, tl: seq<Tasklet>) {
    && (k.list != [] ==> k.pending || k.pc.Snapped?)
    && (k.pc.Clearing? || k.pc.Running? ==> k.pc.t < |tl| ==> tl[k.pc.t].synced == 0)
  }

  predicate Served(s: State) { forall c :: 0 <= c < |s.cpu| ==> CpuOk(s.cpu[c], s.tl) }

  predicate Inv(s: State) { PlacedOnce(s) && RunOnce(s) && Counted(s) && Served(s) && !s.bug }

  ghost predicate Reachable(s: State) { exists cpus: nat, counts: seq<nat>, ms :: s == Run(Init(cpus, counts), ms) }

  // ---- preservation -------------------------------------------------------------------------

  predicate SamePlaces(s: State, s': State, c: nat)
    requires c < |s.cpu| && |s'.tl| == |s.tl| && |s'.cpu| == |s.cpu|
  {
    forall t :: 0 <= t < |s.tl| ==>
      On(s'.cpu[c], t) + s'.appending[t] - Bit(s'.tl[t].sched) == On(s.cpu[c], t) + s.appending[t] - Bit(s.tl[t].sched)
  }

  predicate SameHolds(s: State, s': State, c: nat)
    requires c < |s.cpu| && |s'.tl| == |s.tl| && |s'.cpu| == |s.cpu|
  {
    forall t :: 0 <= t < |s.tl| ==>
      Bit(Holds(s'.cpu[c].pc, t)) - Bit(s'.tl[t].run) == Bit(Holds(s.cpu[c].pc, t)) - Bit(s.tl[t].run)
  }

  predicate SameSynced(s: State, s': State)
    requires |s'.tl| == |s.tl|
  {
    forall t :: 0 <= t < |s.tl| ==> s'.tl[t].synced == s.tl[t].synced
  }

  /** A step of CPU c whose effect on every tasklet's places and RUN bit balances. */
  predicate Balanced(s: State, s': State, c: nat) {
    && c < |s.cpu| && |s'.tl| == |s.tl| && |s'.cpu| == |s.cpu| && s'.cpu == s.cpu[c := s'.cpu[c]]
    && Counted(s') && SamePlaces(s, s', c) && SameHolds(s, s', c) && SameSynced(s, s') && CpuOk(s'.cpu[c], s'.tl)
  }

  lemma CpuKeeps(s: State, s': State, c: nat)
    requires Inv(s) && Balanced(s, s', c) && !s'.bug
    ensures Inv(s')
  {
    forall t | 0 <= t < |s.tl|
      ensures Sum(s'.cpu, OnBy(t)) + s'.appending[t] == Bit(s'.tl[t].sched)
      ensures Sum(s'.cpu, HoldsBy(t)) == Bit(s'.tl[t].run)
    {
      SumUpdate(s.cpu, c, s'.cpu[c], OnBy(t));
      SumUpdate(s.cpu, c, s'.cpu[c], HoldsBy(t));
    }
    forall d | 0 <= d < |s.cpu| ensures CpuOk(s'.cpu[d], s'.tl) {
      if d != c { assert CpuOk(s.cpu[d], s.tl); }
    }
  }

  lemma {:induction false} CountPush(q: seq<nat>, u: nat, t: nat)
    ensures Count(q + [u], t) == Count(q, t) + Bit(u == t)
  {
    if q != [] {
      assert (q + [u])[1..] == q[1..] + [u];
      CountPush(q[1..], u, t);
    }
  }

  lemma {:induction false} CountIn(q: seq<nat>, t: nat)
    ensures Count(q, t) > 0 <==> t in q
  {
    if q != [] { CountIn(q[1..], t); }
  }

  lemma LinkCounts(k: Cpu, u: nat)
    ensures forall t {:trigger Count(Link(k, u).list, t)} :: Count(Link(k, u).list, t) == Count(k.list, t) + Bit(u == t)
  {
    forall t: nat ensures Count(Link(k, u).list, t) == Count(k.list, t) + Bit(u == t) { CountPush(k.list, u, t); }
  }

  lemma AppendKeeps(s: State, t: nat, c: nat)
    requires Inv(s)
    ensures Inv(Step(s, Append(t, c)))
  {
    if c < |s.cpu| && t in s.appending {
      assert CpuOk(s.cpu[c], s.tl);
      LinkCounts(s.cpu[c], t);
      CpuKeeps(s, Step(s, Append(t, c)), c);
    }
  }

  /** Whoever holds the RUN bit is alone, and a tasklet in hand has its SCHED bit set. */
  lemma HandFacts(s: State, c: nat, t: nat)
    requires Inv(s) && c < |s.cpu| && t < |s.tl|
    ensures InHand(s.cpu[c].pc, t) ==> s.tl[t].sched
    ensures Holds(s.cpu[c].pc, t) ==> s.tl[t].run && forall d :: 0 <= d < |s.cpu| && Holds(s.cpu[d].pc, t) ==> d == c
  {
    SumAtLeast(s.cpu, c, OnBy(t));
    SumAtLeast(s.cpu, c, HoldsBy(t));
    if Holds(s.cpu[c].pc, t) {
      forall d | 0 <= d < |s.cpu| && Holds(s.cpu[d].pc, t) ensures d == c {
        assert HoldsBy(t)(s.cpu[d]) == 1;
      }
    }
  }

  /** Steps that move tasklets between lists. */
  lemma ListStep(s: State, c: nat)
    requires c < |s.cpu| && Counted(s) && CpuOk(s.cpu[c], s.tl)
    requires var pc := s.cpu[c].pc; pc.Snapped? || pc.Requeueing?
    ensures Balanced(s, Act(s, c), c) && Act(s, c).bug == s.bug
  {
    var k := s.cpu[c];
    if k.pc.Requeueing? { LinkCounts(k, k.pc.t); }
  }

  lemma DrainStep(s: State, c: nat)
    requires c < |s.cpu| && Counted(s) && CpuOk(s.cpu[c], s.tl) && s.cpu[c].pc.Draining?
    ensures Balanced(s, Act(s, c), c) && Act(s, c).bug == s.bug
  {
  }

  lemma TryStep(s: State, c: nat)
    requires c < |s.cpu| && Counted(s) && CpuOk(s.cpu[c], s.tl) && s.cpu[c].pc.Trying? && s.cpu[c].pc.t < |s.tl|
    ensures Balanced(s, Act(s, c), c) && Act(s, c).bug == s.bug
  {
    assert TlOk(s.tl[s.cpu[c].pc.t]);
  }

  /** Giving the RUN bit back. */
  lemma UnlockStep(s: State, c: nat)
    requires c < |s.cpu| && Counted(s) && CpuOk(s.cpu[c], s.tl)
    requires var pc := s.cpu[c].pc; (pc.Running? || pc.Unlocking?) && pc.t < |s.tl|
    requires Holds(s.cpu[c].pc, s.cpu[c].pc.t) ==> s.tl[s.cpu[c].pc.t].run
    ensures Balanced(s, Act(s, c), c) && Act(s, c).bug == s.bug
  {
    assert TlOk(s.tl[s.cpu[c].pc.t]);
  }

  /** The count check and the start of a run. */
  lemma StartStep(s: State, c: nat)
    requires c < |s.cpu| && Counted(s) && CpuOk(s.cpu[c], s.tl)
    requires var pc := s.cpu[c].pc; (pc.Locked? || pc.Clearing?) && pc.t < |s.tl| && s.tl[pc.t].sched && s.tl[pc.t].run
    ensures Balanced(s, Act(s, c), c) && Act(s, c).bug == s.bug
  {
    assert TlOk(s.tl[s.cpu[c].pc.t]);
  }

  lemma ActKeeps(s: State, c: nat)
    requires Inv(s) && c < |s.cpu|
    ensures Inv(Act(s, c))
  {
    var pc := s.cpu[c].pc;
    assert CpuOk(s.cpu[c], s.tl);
    if pc.Snapped? || pc.Draining? || pc.Requeueing? {
      if pc.Draining? { DrainStep(s, c); } else { ListStep(s, c); }
      CpuKeeps(s, Act(s, c), c);
    } else if !pc.Out? && pc.t < |s.tl| {
      HandFacts(s, c, pc.t);
      if pc.Locked? || pc.Clearing? { StartStep(s, c); }
      else if pc.Trying? { TryStep(s, c); }
      else { UnlockStep(s, c); }
      CpuKeeps(s, Act(s, c), c);
    }
  }

  /** A change of one tasklet's counts alone. */
  lemma TlKeeps(s: State, t: nat, v: Tasklet)
    requires Inv(s) && t < |s.tl| && TlOk(v) && v.run == s.tl[t].run && v.sched == s.tl[t].sched
    requires v.synced <= s.tl[t].synced || !v.run
    ensures Inv(s.(tl := s.tl[t := v]))
  {
    forall c | 0 <= c < |s.cpu| ensures CpuOk(s.cpu[c], s.tl[t := v]) {
      assert CpuOk(s.cpu[c], s.tl);
      HandFacts(s, c, t);
    }
  }

  lemma ScheduleKeeps(s: State, t: nat)
    requires Inv(s)
    ensures Inv(Step(s, Schedule(t)))
  {
    var s' := Step(s, Schedule(t));
    if t < |s.tl| && !s.tl[t].sched {
      assert TlOk(s.tl[t]);
      forall c | 0 <= c < |s.cpu| ensures CpuOk(s'.cpu[c], s'.tl) { assert CpuOk(s.cpu[c], s.tl); }
    }
  }

  lemma StepKeeps(s: State, m: Move)
    requires Inv(s)
    ensures Inv(Step(s, m))
  {
    match m {
      case Schedule(t) => ScheduleKeeps(s, t);
      case Append(t, c) => AppendKeeps(s, t, c);
      case Softirq(c) => if Step(s, m) != s { assert CpuOk(s.cpu[c], s.tl); CpuKeeps(s, Step(s, m), c); }
      case Advance(c) => if c < |s.cpu| { ActKeeps(s, c); }
      case Disable(t) => CountKeeps(s, m);
      case SeeIdle(t) => CountKeeps(s, m);
      case Enable(t) => CountKeeps(s, m);
      case EnableSynced(t) => CountKeeps(s, m);
    }
  }

  lemma CountKeeps(s: State, m: Move)
    requires Inv(s) && (m.Disable? || m.SeeIdle? || m.Enable? || m.EnableSynced?)
    ensures Inv(Step(s, m))
  {
    if Step(s, m) != s {
      assert TlOk(s.tl[m.t]);
      TlKeeps(s, m.t, Step(s, m).tl[m.t]);
    }
  }

  lemma {:induction false} RunKeeps(s: State, ms: seq<Move>)
    requires Inv(s)
    ensures Inv(Run(s, ms))
    decreases |ms|
  {
    if ms != [] {
      StepKeeps(s, ms[0]);
      RunKeeps(Step(s, ms[0]), ms[1..]);
    }
  }

  lemma InitInv(cpus: nat, counts: seq<nat>)
    ensures Inv(Init(cpus, counts))
  {
    var s := Init(cpus, counts);
    forall t | 0 <= t < |s.tl| ensures Sum(s.cpu, OnBy(t)) == 0 && Sum(s.cpu, HoldsBy(t)) == 0 {
      SumUpper(s.cpu, OnBy(t), 0);
      SumNonNegative(s.cpu, OnBy(t));
      SumUpper(s.cpu, HoldsBy(t), 0);
      SumNonNegative(s.cpu, HoldsBy(t));
    }
  }

  lemma ReachableInv(s: State)
    requires Reachable(s)
    ensures Inv(s)
  {
    var cpus: nat, counts: seq<nat>, ms :| s == Run(Init(cpus, counts), ms);
    InitInv(cpus, counts);
    RunKeeps(Init(cpus, counts), ms);
  }

  // ---- what is promised ---------------------------------------------------------------------

  /** A set SCHED bit means exactly one place on the lists, in a hand, or about to be linked; a clear one, none. */
  lemma OnExactlyOneList(s: State, t: nat)
    requires Reachable(s) && t < |s.tl|
    ensures Sum(s.cpu, OnBy(t)) + s.appending[t] == if s.tl[t].sched then 1 else 0
  {
    ReachableInv(s);
  }

  lemma NeverBug(s: State)
    requires Reachable(s)
    ensures !s.bug
    ensures forall c :: 0 <= c < |s.cpu| && s.cpu[c].pc.Clearing? && s.cpu[c].pc.t < |s.tl| ==>
      s.tl[s.cpu[c].pc.t].sched
  {
    ReachableInv(s);
    forall c | 0 <= c < |s.cpu| && s.cpu[c].pc.Clearing? && s.cpu[c].pc.t < |s.tl| ensures s.tl[s.cpu[c].pc.t].sched {
      HandFacts(s, c, s.cpu[c].pc.t);
    }
  }

  /** A tasklet is strictly serialised with respect to itself. */
  lemma NeverRunsTwice(s: State, c: nat, d: nat, t: nat)
    requires Reachable(s) && t < |s.tl| && c < |s.cpu| && d < |s.cpu|
    requires s.cpu[c].pc.Running? && s.cpu[c].pc.t == t && s.cpu[d].pc.Running? && s.cpu[d].pc.t == t
    ensures c == d && s.tl[t].run
  {
    ReachableInv(s);
    HandFacts(s, c, t);
  }

  /** Each setting of the bit is answered by one run; only the latest can be outstanding. */
  lemma OneRunPerSetting(s: State, t: nat)
    requires Reachable(s) && t < |s.tl|
    ensures s.tl[t].sets == s.tl[t].runs + if s.tl[t].sched then 1 else 0
  {
    ReachableInv(s);
    assert TlOk(s.tl[t]);
  }

  /** A list with tasklets on it is never forgotten: its softirq is pending or about to be handled. */
  lemma ListsAreServed(s: State, c: nat)
    requires Reachable(s) && c < |s.cpu| && s.cpu[c].list != []
    ensures s.cpu[c].pending || s.cpu[c].pc.Snapped?
  {
    ReachableInv(s);
    assert CpuOk(s.cpu[c], s.tl);
  }

  /** Once tasklet_disable has returned and until the matching enable, the function is not running anywhere. */
  lemma DisabledMeansIdle(s: State, c: nat, t: nat)
    requires Reachable(s) && c < |s.cpu| && t < |s.tl| && s.tl[t].synced > 0
    ensures !(s.cpu[c].pc.Running? && s.cpu[c].pc.t == t)
  {
    ReachableInv(s);
    assert CpuOk(s.cpu[c], s.tl);
  }

  /** A scheduled tasklet is waiting to be linked, or on some CPU that will still get to it. */
  lemma ScheduledWillBeSeen(s: State, t: nat)
    requires Reachable(s) && t < |s.tl| && s.tl[t].sched
    ensures t in s.appending || exists c :: 0 <= c < |s.cpu| && Awaits(s.cpu[c], t)
  {
    ReachableInv(s);
    if t !in s.appending {
      SomeCpu(s.cpu, t);
      var c :| 0 <= c < |s.cpu| && On(s.cpu[c], t) > 0;
      assert CpuOk(s.cpu[c], s.tl);
      CountIn(s.cpu[c].list, t);
      CountIn(Rest(s.cpu[c].pc), t);
      assert Awaits(s.cpu[c], t);
    }
  }

  predicate Awaits(k: Cpu, t: nat) {
    (t in k.list && (k.pending || k.pc.Snapped?)) || t in Rest(k.pc) || InHand(k.pc, t)
  }

  lemma {:induction false} SomeCpu(cpu: seq<Cpu>, t: nat)
    requires Sum(cpu, OnBy(t)) > 0
    ensures exists c :: 0 <= c < |cpu| && On(cpu[c], t) > 0
  {
    if On(cpu[0], t) <= 0 {
      SomeCpu(cpu[1..], t);
      var c :| 0 <= c < |cpu[1..]| && On(cpu[1..][c], t) > 0;
      assert cpu[c + 1] == cpu[1..][c];
    }
  }

  // ---- delivery ---------------------------------------------------------------------------------

  /** Everything on a list or in a hand is a tasklet. */
  predicate KnownCpu(k: Cpu, n: nat) {
    && (forall i :: 0 <= i < |k.list| ==> k.list[i] < n) && (forall i :: 0 <= i < |Rest(k.pc)| ==> Rest(k.pc)[i] < n)
    && (!k.pc.Out? && !k.pc.Snapped? && !k.pc.Draining? ==> k.pc.t < n)
  }

  predicate Known(s: State) {
    && (forall c :: 0 <= c < |s.cpu| ==> KnownCpu(s.cpu[c], |s.tl|)) && (forall t :: t in s.appending ==> t < |s.tl|)
  }

  lemma KnownStep(s: State, m: Move)
    requires Known(s)
    ensures Known(Step(s, m))
  {
    if m.Append? && m.c < |s.cpu| { assert KnownCpu(s.cpu[m.c], |s.tl|); }
    if (m.Softirq? || m.Advance?) && m.c < |s.cpu| {
      assert KnownCpu(s.cpu[m.c], |s.tl|);
      if m.Advance? { KnownAct(s, m.c); }
    }
  }

  lemma KnownAct(s: State, c: nat)
    requires Known(s) && c < |s.cpu|
    ensures Known(Act(s, c))
  {
    var k := s.cpu[c];
    assert KnownCpu(k, |s.tl|);
    var k' := Act(s, c).cpu[c];
    assert Act(s, c).cpu == s.cpu[c := k'] && Act(s, c).appending == s.appending;
    if k.pc.Draining? && k.pc.rest != [] {
      assert Rest(k.pc)[0] < |s.tl| && Rest(k'.pc) == Rest(k.pc)[1..];
      assert forall i :: 0 <= i < |Rest(k'.pc)| ==> Rest(k'.pc)[i] == Rest(k.pc)[i + 1];
    } else if k.pc.Snapped? {
      assert Rest(k'.pc) == k.list;
    } else {
      assert Rest(k'.pc) == Rest(k.pc);
    }
  }

  lemma {:induction false} KnownRun(s: State, ms: seq<Move>)
    requires Known(s)
    ensures Known(Run(s, ms))
    decreases |ms|
  {
    if ms != [] {
      KnownStep(s, ms[0]);
      KnownRun(Step(s, ms[0]), ms[1..]);
    }
  }

  lemma ReachableKnown(s: State)
    requires Reachable(s)
    ensures Inv(s) && Known(s)
  {
    ReachableInv(s);
    var cpus: nat, counts: seq<nat>, ms :| s == Run(Init(cpus, counts), ms);
    KnownRun(Init(cpus, counts), ms);
  }

  function Iterate(f: State -> State, s: State, n: nat): State
    decreases n
  {
    if n == 0 then s else Iterate(f, f(s), n - 1)
  }

  lemma {:induction false} IterateAdd(f: State -> State, s: State, a: nat, b: nat)
    ensures Iterate(f, Iterate(f, s, a), b) == Iterate(f, s, a + b)
    decreases a
  {
    if a > 0 { IterateAdd(f, f(s), a - 1, b); }
  }

  function Advancer(c: nat): State -> State { (s: State) => Step(s, Advance(c)) }

  /** n steps of tasklet_action on CPU c alone. */
  function Acts(s: State, c: nat, n: nat): State { Iterate(Advancer(c), s, n) }

  /** What becomes of the tasklet at the head of the drained list: exactly one of these two. */
  predicate RanOnce(v: Tasklet, v': Tasklet, k: Cpu, k': Cpu) {
    v' == v.(sched := false, runs := v.runs + 1) && k'.list == k.list && k'.pending == k.pending
  }

  predicate PutBack(u: nat, v: Tasklet, v': Tasklet, k: Cpu, k': Cpu) {
    v' == v && k'.list == k.list + [u] && k'.pending
  }

  /** s' is s after CPU c has dealt with the head u of its list, and with nothing else. */
  ghost predicate Passed(s: State, s': State, c: nat, u: nat) {
    && c < |s.cpu| == |s'.cpu| && u < |s.tl| == |s'.tl|
    && s'.appending == s.appending && !s'.bug
    && (forall v :: 0 <= v < |s.tl| && v != u ==> s'.tl[v] == s.tl[v])
    && (forall d :: 0 <= d < |s.cpu| && d != c ==> s'.cpu[d] == s.cpu[d])
    && s.cpu[c].pc.Draining? && s.cpu[c].pc.rest != [] && s.cpu[c].pc.rest[0] == u
    && s'.cpu[c].pc == Draining(s.cpu[c].pc.rest[1..])
    && (if s.tl[u].count == 0 && !s.tl[u].run then RanOnce(s.tl[u], s'.tl[u], s.cpu[c], s'.cpu[c])
        else PutBack(u, s.tl[u], s'.tl[u], s.cpu[c], s'.cpu[c]))
  }

  /** A tasklet running elsewhere is put back in three steps. */
  lemma PassBusy(s: State, c: nat)
    requires c < |s.cpu| && s.cpu[c].pc.Draining? && s.cpu[c].pc.rest != [] && !s.bug
    requires var u := s.cpu[c].pc.rest[0]; u < |s.tl| && s.tl[u].run
    ensures Passed(s, Acts(s, c, 3), c, s.cpu[c].pc.rest[0])
  {
    var s1 := Act(s, c);
    var s2 := Act(s1, c);
    var s3 := Act(s2, c);
    assert Acts(s, c, 3) == Acts(s1, c, 2) == Acts(s2, c, 1) == Acts(s3, c, 0);
  }

  /** A disabled one in five, without a run. */
  lemma PassDisabled(s: State, c: nat)
    requires c < |s.cpu| && s.cpu[c].pc.Draining? && s.cpu[c].pc.rest != [] && !s.bug
    requires var u := s.cpu[c].pc.rest[0]; u < |s.tl| && !s.tl[u].run && s.tl[u].count > 0
    ensures Passed(s, Acts(s, c, 5), c, s.cpu[c].pc.rest[0])
  {
    var s1 := Act(s, c);
    var s2 := Act(s1, c);
    var s3 := Act(s2, c);
    var s4 := Act(s3, c);
    var s5 := Act(s4, c);
    assert Acts(s, c, 5) == Acts(s1, c, 4) == Acts(s2, c, 3) == Acts(s3, c, 2) == Acts(s4, c, 1) == Acts(s5, c, 0);
  }

  /** An enabled one runs, and five steps later the CPU is done with it. */
  lemma PassEnabled(s: State, c: nat)
    requires c < |s.cpu| && s.cpu[c].pc.Draining? && s.cpu[c].pc.rest != [] && !s.bug
    requires var u := s.cpu[c].pc.rest[0]; u < |s.tl| && !s.tl[u].run && s.tl[u].count == 0 && s.tl[u].sched
    ensures Passed(s, Acts(s, c, 5), c, s.cpu[c].pc.rest[0])
  {
    var s1 := Act(s, c);
    var s2 := Act(s1, c);
    var s3 := Act(s2, c);
    var s4 := Act(s3, c);
    var s5 := Act(s4, c);
    assert Acts(s, c, 5) == Acts(s1, c, 4) == Acts(s2, c, 3) == Acts(s3, c, 2) == Acts(s4, c, 1) == Acts(s5, c, 0);
  }

  /** Something drained has its SCHED bit set. */
  lemma DrainedIsScheduled(s: State, c: nat)
    requires Inv(s) && c < |s.cpu| && s.cpu[c].pc.Draining? && s.cpu[c].pc.rest != [] && s.cpu[c].pc.rest[0] < |s.tl|
    ensures s.tl[s.cpu[c].pc.rest[0]].sched && Count(s.cpu[c].pc.rest, s.cpu[c].pc.rest[0]) == 1
  {
    var u := s.cpu[c].pc.rest[0];
    SumAtLeast(s.cpu, c, OnBy(u));
    assert On(s.cpu[c], u) >= Count(s.cpu[c].pc.rest, u) >= 1;
  }

  /**
    The head of the drained list runs exactly once if it is enabled and not running elsewhere; otherwise it is
    put back, with the softirq raised, and not run.
  */
  lemma PassOne(s: State, c: nat) returns (n: nat, s': State)
    requires Inv(s) && Known(s) && c < |s.cpu| && s.cpu[c].pc.Draining? && s.cpu[c].pc.rest != []
    ensures n <= 5 && s' == Acts(s, c, n) && Passed(s, s', c, s.cpu[c].pc.rest[0]) && Inv(s') && Known(s')
  {
    var u := s.cpu[c].pc.rest[0];
    assert KnownCpu(s.cpu[c], |s.tl|) && Rest(s.cpu[c].pc)[0] == u;
    DrainedIsScheduled(s, c);
    if s.tl[u].run {
      n := 3;
      PassBusy(s, c);
    } else if s.tl[u].count > 0 {
      n := 5;
      PassDisabled(s, c);
    } else {
      n := 5;
      PassEnabled(s, c);
    }
    s' := Acts(s, c, n);
    ActsKeep(s, c, n);
  }

  lemma {:induction false} IterateKeeps(f: State -> State, good: State -> bool, s: State, n: nat)
    requires good(s) && forall x :: good(x) ==> good(f(x))
    ensures good(Iterate(f, s, n))
    decreases n
  {
    if n > 0 { IterateKeeps(f, good, f(s), n - 1); }
  }

  lemma ActsKeep(s: State, c: nat, n: nat)
    requires Inv(s) && Known(s) && c < |s.cpu|
    ensures Inv(Acts(s, c, n)) && Known(Acts(s, c, n))
  {
    var good := (x: State) => Inv(x) && Known(x);
    forall x | good(x) ensures good(Advancer(c)(x)) {
      StepKeeps(x, Advance(c));
      KnownStep(x, Advance(c));
    }
    IterateKeeps(Advancer(c), good, s, n);
  }

  /** t has run once between s and s'. */
  predicate RanIn(s: State, s': State, t: nat) {
    t < |s.tl| == |s'.tl| && s'.tl[t] == s.tl[t].(sched := false, runs := s.tl[t].runs + 1)
  }

  /** CPU c drains its list and has something left on it. */
  predicate AtHead(s: State, c: nat) { c < |s.cpu| && s.cpu[c].pc.Draining? && s.cpu[c].pc.rest != [] }

  /** n steps f of CPU c deal with the head of its list. */
  ghost predicate DealtWith(f: State -> State, s: State, c: nat, n: nat)
    requires AtHead(s, c)
  {
    var s' := Iterate(f, s, n);
    n <= 5 && Passed(s, s', c, s.cpu[c].pc.rest[0]) && Inv(s') && Known(s')
  }

  /** All that the draining of a whole list needs to know of the steps f of CPU c. */
  ghost predicate Deals(f: State -> State, c: nat) {
    forall s {:trigger AtHead(s, c)} :: AtHead(s, c) && Inv(s) && Known(s) ==> exists n: nat :: DealtWith(f, s, c, n)
  }

  lemma AdvancingDeals(c: nat)
    ensures Deals(Advancer(c), c)
  {
    forall s | AtHead(s, c) && Inv(s) && Known(s) ensures exists n: nat :: DealtWith(Advancer(c), s, c, n) {
      var n, s' := PassOne(s, c);
      assert DealtWith(Advancer(c), s, c, n);
    }
  }

  lemma DealOne(f: State -> State, s: State, c: nat) returns (n: nat, s': State)
    requires Deals(f, c) && Inv(s) && Known(s) && AtHead(s, c)
    ensures n <= 5 && s' == Iterate(f, s, n) && Passed(s, s', c, s.cpu[c].pc.rest[0]) && Inv(s') && Known(s')
  {
    n :| DealtWith(f, s, c, n);
    s' := Iterate(f, s, n);
  }

  /** CPU c drains its list and will come to the enabled tasklet t, which is at place p. */
  predicate Awaited(s: State, c: nat, p: nat, t: nat) {
    && c < |s.cpu| && s.cpu[c].pc.Draining? && p < |s.cpu[c].pc.rest| && s.cpu[c].pc.rest[p] == t
    && t < |s.tl| && s.tl[t].count == 0 && !s.tl[t].run
  }

  /** An enabled tasklet at place p of the drained list has run after at most 5 (p + 1) steps of that CPU. */
  lemma {:induction false} DrainReaches(f: State -> State, s: State, c: nat, p: nat, t: nat)
    returns (n: nat, s': State)
    requires Deals(f, c) && Inv(s) && Known(s) && Awaited(s, c, p, t)
    ensures n <= 5 * (p + 1) && s' == Iterate(f, s, n) && RanIn(s, s', t)
    decreases p
  {
    if p == 0 {
      n, s' := DealOne(f, s, c);
      HeadRan(s, s', c, t);
    } else {
      var a, s1 := PassBefore(f, s, c, p, t);
      var b, s2 := DrainReaches(f, s1, c, p - 1, t);
      IterateAdd(f, s, a, b);
      n, s' := a + b, s2;
    }
  }

  lemma HeadRan(s: State, s': State, c: nat, t: nat)
    requires Awaited(s, c, 0, t) && Passed(s, s', c, t)
    ensures RanIn(s, s', t)
  {
  }

  lemma PassBefore(f: State -> State, s: State, c: nat, p: nat, t: nat) returns (n: nat, s': State)
    requires Deals(f, c) && Inv(s) && Known(s) && Awaited(s, c, p, t) && p > 0
    ensures n <= 5 && s' == Iterate(f, s, n) && Inv(s') && Known(s') && Awaited(s', c, p - 1, t)
    ensures |s'.tl| == |s.tl| && s'.tl[t] == s.tl[t]
  {
    n, s' := DealOne(f, s, c);
    StillToCome(s, s', c, p, t);
  }

  /** Dealing with the head leaves a later tasklet as it is, one place further on. */
  lemma StillToCome(s: State, s': State, c: nat, p: nat, t: nat)
    requires Inv(s) && Known(s) && Awaited(s, c, p, t) && p > 0 && Passed(s, s', c, s.cpu[c].pc.rest[0])
    ensures Awaited(s', c, p - 1, t) && |s'.tl| == |s.tl| && s'.tl[t] == s.tl[t]
  {
    DrainedIsScheduled(s, c);
    OnlyOnce(s.cpu[c].pc.rest, p);
  }

  lemma OnlyOnce(q: seq<nat>, p: nat)
    requires 0 < p < |q| && Count(q, q[0]) == 1
    ensures q[p] != q[0]
  {
    CountIn(q[1..], q[0]);
    assert q[p] == q[1..][p - 1];
  }

  function Repeat(c: nat, n: nat): seq<Move> { seq(n, _ => Advance(c)) }

  lemma {:induction false} ActsIsRun(s: State, c: nat, n: nat)
    requires c < |s.cpu|
    ensures Run(s, Repeat(c, n)) == Acts(s, c, n)
    decreases n
  {
    if n > 0 {
      assert Repeat(c, n)[1..] == Repeat(c, n - 1);
      ActsIsRun(Step(s, Advance(c)), c, n - 1);
    }
  }

  /**
    Delivery: from every reachable state, an enabled tasklet on the list of a CPU with its softirq pending, and not
    running elsewhere, is run once when that CPU handles the softirq, within a number of steps given by the list.
  */
  lemma Delivered(s: State, c: nat, t: nat) returns (n: nat)
    requires Reachable(s) && c < |s.cpu| && s.cpu[c].pc.Out? && s.cpu[c].pending
    requires t in s.cpu[c].list && t < |s.tl| && s.tl[t].count == 0 && !s.tl[t].run
    ensures n <= 5 * |s.cpu[c].list| + 1 && RanIn(s, Run(Step(s, Softirq(c)), Repeat(c, n)), t)
  {
    ReachableKnown(s);
    var p :| 0 <= p < |s.cpu[c].list| && s.cpu[c].list[p] == t;
    var s1, s3;
    n, s1, s3 := SoftirqReaches(s, c, p, t);
    ActsIsRun(s1, c, n);
  }

  lemma SoftirqReaches(s: State, c: nat, p: nat, t: nat) returns (n: nat, s1: State, s3: State)
    requires Inv(s) && Known(s) && c < |s.cpu| && s.cpu[c].pc.Out? && s.cpu[c].pending
    requires p < |s.cpu[c].list| && s.cpu[c].list[p] == t && t < |s.tl| && s.tl[t].count == 0 && !s.tl[t].run
    ensures n <= 5 * |s.cpu[c].list| + 1 && s1 == Step(s, Softirq(c)) && s3 == Acts(s1, c, n) && RanIn(s, s3, t)
    ensures c < |s1.cpu|
  {
    AdvancingDeals(c);
    var s2;
    s1, s2 := StartsDraining(s, c);
    n, s3 := ThenReaches(Advancer(c), s, s1, s2, c, p, t);
  }

  lemma ThenReaches(f: State -> State, s: State, s1: State, s2: State, c: nat, p: nat, t: nat)
    returns (n: nat, s3: State)
    requires Deals(f, c) && Inv(s2) && Known(s2) && Awaited(s2, c, p, t) && s2 == Iterate(f, s1, 1) && s2.tl == s.tl
    ensures n <= 5 * (p + 1) + 1 && s3 == Iterate(f, s1, n) && RanIn(s, s3, t)
  {
    var k;
    k, s3 := DrainReaches(f, s2, c, p, t);
    IterateAdd(f, s1, 1, k);
    n := 1 + k;
  }

  lemma StartsDraining(s: State, c: nat) returns (s1: State, s2: State)
    requires Inv(s) && Known(s) && c < |s.cpu| && s.cpu[c].pc.Out? && s.cpu[c].pending
    ensures s1 == Step(s, Softirq(c)) && s2 == Acts(s1, c, 1) && Inv(s2) && Known(s2)
    ensures |s1.cpu| == |s2.cpu| == |s.cpu| && s2.tl == s.tl && s2.cpu[c] == Cpu([], false, Draining(s.cpu[c].list))
  {
    s1 := Step(s, Softirq(c));
    StepKeeps(s, Softirq(c));
    KnownStep(s, Softirq(c));
    s2 := Step(s1, Advance(c));
    StepKeeps(s1, Advance(c));
    KnownStep(s1, Advance(c));
    assert Acts(s1, c, 1) == Iterate(Advancer(c), s2, 0);
  }

  // ---- a whole softirq ------------------------------------------------------------------------------

  /** Every tasklet still to be drained by CPU c is enabled and not running. */
  predicate AllEnabled(s: State, c: nat) {
    && c < |s.cpu| && s.cpu[c].pc.Draining?
    && forall i :: 0 <= i < |s.cpu[c].pc.rest| ==>
         s.cpu[c].pc.rest[i] < |s.tl| && s.tl[s.cpu[c].pc.rest[i]].count == 0 && !s.tl[s.cpu[c].pc.rest[i]].run
  }

  /** From s to s' CPU c ran each of the tasklets in `done` once and changed nothing else of its own. */
  predicate RanAll(s: State, s': State, c: nat, done: seq<nat>) {
    && c < |s.cpu| == |s'.cpu| && |s'.tl| == |s.tl|
    && s'.cpu[c].list == s.cpu[c].list && s'.cpu[c].pending == s.cpu[c].pending
    && (forall i :: 0 <= i < |done| ==> RanIn(s, s', done[i]))
    && (forall t :: 0 <= t < |s.tl| && t !in done ==> s'.tl[t] == s.tl[t])
  }

  /** Dealing with an enabled head keeps the rest enabled. */
  lemma EnabledHead(s: State, s': State, c: nat)
    requires Inv(s) && Known(s) && AllEnabled(s, c) && s.cpu[c].pc.rest != [] && Passed(s, s', c, s.cpu[c].pc.rest[0])
    ensures AllEnabled(s', c) && RanAll(s, s', c, [s.cpu[c].pc.rest[0]]) && s.cpu[c].pc.rest[0] !in s'.cpu[c].pc.rest
  {
    var rest := s.cpu[c].pc.rest;
    DrainedIsScheduled(s, c);
    forall p | 0 < p < |rest| ensures rest[p] != rest[0] { OnlyOnce(rest, p); }
    assert forall i :: 0 <= i < |rest[1..]| ==> rest[1..][i] == rest[i + 1];
  }

  lemma RanAllJoin(s: State, s1: State, s2: State, c: nat, u: nat, rest: seq<nat>)
    requires RanAll(s, s1, c, [u]) && RanAll(s1, s2, c, rest) && u !in rest && u < |s.tl|
    requires forall i :: 0 <= i < |rest| ==> rest[i] < |s.tl|
    ensures RanAll(s, s2, c, [u] + rest)
  {
    forall i | 0 <= i < |[u] + rest| ensures RanIn(s, s2, ([u] + rest)[i]) {
      if i == 0 {
        assert [u][0] == u;
        assert s2.tl[u] == s1.tl[u];
      } else {
        assert rest[i - 1] in rest && rest[i - 1] !in [u];
      }
    }
  }

  lemma {:induction false} DrainAll(f: State -> State, s: State, c: nat) returns (n: nat, s': State)
    requires Deals(f, c) && Inv(s) && Known(s) && AllEnabled(s, c)
    ensures n <= 5 * |s.cpu[c].pc.rest| && s' == Iterate(f, s, n) && RanAll(s, s', c, s.cpu[c].pc.rest)
    ensures s'.cpu[c].pc == Draining([])
    decreases |s.cpu[c].pc.rest|
  {
    if s.cpu[c].pc.rest == [] {
      n, s' := 0, s;
    } else {
      var a, s1 := PassHead(f, s, c);
      var b, s2 := DrainAll(f, s1, c);
      IterateAdd(f, s, a, b);
      JoinRest(s, s1, s2, c);
      n, s' := a + b, s2;
    }
  }

  lemma PassHead(f: State -> State, s: State, c: nat) returns (n: nat, s': State)
    requires Deals(f, c) && Inv(s) && Known(s) && AllEnabled(s, c) && s.cpu[c].pc.rest != []
    ensures n <= 5 && s' == Iterate(f, s, n) && Inv(s') && Known(s') && AllEnabled(s', c)
    ensures RanAll(s, s', c, [s.cpu[c].pc.rest[0]]) && s'.cpu[c].pc == Draining(s.cpu[c].pc.rest[1..])
    ensures s.cpu[c].pc.rest[0] !in s.cpu[c].pc.rest[1..]
  {
    n, s' := DealOne(f, s, c);
    EnabledHead(s, s', c);
  }

  lemma JoinRest(s: State, s1: State, s2: State, c: nat)
    requires AllEnabled(s, c) && s.cpu[c].pc.rest != [] && RanAll(s, s1, c, [s.cpu[c].pc.rest[0]])
    requires s1.cpu[c].pc == Draining(s.cpu[c].pc.rest[1..]) && RanAll(s1, s2, c, s.cpu[c].pc.rest[1..])
    requires s.cpu[c].pc.rest[0] !in s.cpu[c].pc.rest[1..]
    ensures RanAll(s, s2, c, s.cpu[c].pc.rest)
  {
    var rest := s.cpu[c].pc.rest;
    assert rest == [rest[0]] + rest[1..];
    RanAllJoin(s, s1, s2, c, rest[0], rest[1..]);
  }

  /**
    A softirq that finds only enabled tasklets runs each of them once and leaves its CPU with nothing listed and
    nothing pending.
  */
  lemma SoftirqServesAll(s: State, c: nat) returns (n: nat)
    requires Reachable(s) && c < |s.cpu| && s.cpu[c].pc.Out? && s.cpu[c].pending
    requires forall i :: 0 <= i < |s.cpu[c].list| ==>
      s.cpu[c].list[i] < |s.tl| && s.tl[s.cpu[c].list[i]].count == 0 && !s.tl[s.cpu[c].list[i]].run
    ensures n <= 5 * |s.cpu[c].list| + 1
    ensures var s' := Run(Step(s, Softirq(c)), Repeat(c, n));
            && c < |s'.cpu| && s'.cpu[c] == Cpu([], false, Draining([])) && |s'.tl| == |s.tl|
            && (forall i :: 0 <= i < |s.cpu[c].list| ==> RanIn(s, s', s.cpu[c].list[i]))
  {
    ReachableKnown(s);
    AdvancingDeals(c);
    var s1, s2 := StartsDraining(s, c);
    var s3;
    n, s3 := ThenServesAll(Advancer(c), s, s1, s2, c);
    ActsIsRun(s1, c, n);
  }

  lemma ThenServesAll(f: State -> State, s: State, s1: State, s2: State, c: nat) returns (n: nat, s3: State)
    requires Deals(f, c) && Inv(s2) && Known(s2) && AllEnabled(s2, c) && s2 == Iterate(f, s1, 1) && s2.tl == s.tl
    requires s2.cpu[c].list == [] && !s2.cpu[c].pending
    ensures var list := s2.cpu[c].pc.rest;
            && n <= 5 * |list| + 1 && s3 == Iterate(f, s1, n) && |s3.tl| == |s.tl|
            && c < |s3.cpu| && s3.cpu[c] == Cpu([], false, Draining([]))
            && (forall i :: 0 <= i < |list| ==> RanIn(s, s3, list[i]))
  {
    var k;
    k, s3 := DrainAll(f, s2, c);
    IterateAdd(f, s1, 1, k);
    n := 1 + k;
    forall i | 0 <= i < |s2.cpu[c].pc.rest| ensures RanIn(s, s3, s2.cpu[c].pc.rest[i]) {
      assert RanIn(s2, s3, s2.cpu[c].pc.rest[i]);
    }
  }

  /** tasklet_disable and its tasklet_enable undo each other, and disabling an idle tasklet takes hold at once. */
  lemma DisableThenEnable(s: State, t: nat)
    requires Reachable(s) && t < |s.tl|
    ensures Step(Step(s, Disable(t)), Enable(t)) == s
    ensures !s.tl[t].run ==> Step(Step(s, Disable(t)), SeeIdle(t)).tl[t].synced == s.tl[t].synced + 1
    ensures !s.tl[t].run ==> Step(Step(Step(s, Disable(t)), SeeIdle(t)), EnableSynced(t)) == s
  {
    ReachableInv(s);
    assert TlOk(s.tl[t]);
    var v := s.tl[t];
    assert Step(s, Disable(t)) == s.(tl := s.tl[t := v.(count := v.count + 1)]);
  }
}
