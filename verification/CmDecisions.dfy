/**
  What the group functions decide, and what they then do (fs/cmgroup.c, fs/eventpoll.c): a waiter with room goes on,
  one without blocks and gives its place back, wakeups reach a sleeper, and counters stay in their ranges.
*/
module CmDecisions {
  import opened Lists
  import opened CmModel
  import opened CmInv
  import opened CmTheorems
  import opened CmProgress
  import opened CmWaits

  // ---- with room a task goes on -------------------------------------------------------------------------

  /** Task i takes one step of its call, with no signal and no timeout. */
  function Own(s: State, i: nat): State { Step(s, Go(i, false)) }

  /** The fast check of cmgroup_wait decides alone. */
  lemma FastCheck(s: State, i: nat)
    requires i < |s.thr| && Exec(s.thr[i]) && s.thr[i].pc.WTop?
    ensures Own(s, i).thr[i].pc == if s.g.available >= 0 then Idle else WLock
  {
  }

  /** The check under the lock: with room the lock is dropped and the wait is over, two steps later. */
  lemma LockedCheck(s: State, i: nat)
    requires Reachable(s) && i < |s.thr| && Exec(s.thr[i]) && s.thr[i].pc.WCheck? && s.g.available >= 0
    ensures Own(Own(s, i), i).thr == s.thr[i := s.thr[i].(pc := Idle)] && Lk(Own(Own(s, i), i), 0).Nobody?
    ensures Own(Own(s, i), i).queues == s.queues && Own(Own(s, i), i).g == s.g
  {
    ReachableInv(s);
    assert ThreadOk(s, i);
    QueuedInWait(s, i, s.thr[i]);
    OwnIsWait(s, i);
    DropSteps(s, i);
    OwnIsWait(GoWait(s, i, false), i);
  }

  lemma DropSteps(s: State, i: nat)
    requires i < |s.thr| && s.thr[i].pc == WCheck(0) && s.g.lockp == 0 && |s.locks| >= 1 && s.g.available >= 0
    ensures var s1 := GoWait(s, i, false);
            && i < |s1.thr| && s1.thr[i] == s.thr[i].(pc := WDrop(0))
            && GoWait(s1, i, false).thr == s.thr[i := s.thr[i].(pc := Idle)]
            && GoWait(s1, i, false).g == s.g && GoWait(s1, i, false).queues == s.queues
            && Lk(GoWait(s1, i, false), 0).Nobody?
  {
    var s1 := GoWait(s, i, false);
    assert s1 == SetPc(s, i, WDrop(0));
    assert GoWait(s1, i, false) == SetLk(SetPc(s1, i, Idle), 0, Nobody);
  }

  lemma OwnIsWait(s: State, i: nat)
    requires i < |s.thr| && Exec(s.thr[i])
    requires var pc := s.thr[i].pc; pc.WCheck? || pc.WDrop? || pc.WAdd? || pc.WUnlock?
    ensures Own(s, i) == GoWait(s, i, false)
  {
  }

  lemma QueuedInWait(s: State, i: nat, t: Thread)
    requires Shape(s) && PcOk(s, i, t) && (t.pc.WCheck? || t.pc.WAdd?)
    ensures s.g.lockp == 0 && s.g.wqp == 0 && t.pc.l == 0
  {
    assert MarkOf(s, t.use).Bound?;
  }

  /** The check of ep_cmgroup_wait_available: with room the waiter leaves, without it asks for an opening. */
  lemma EpollCheck(s: State, i: nat)
    requires i < |s.thr| && Exec(s.thr[i]) && s.thr[i].pc.EcCheck?
    ensures Own(s, i).thr[i].pc == if s.g.available >= 0 then EcOut(s.thr[i].pc.e) else EcReq(s.thr[i].pc.e)
  {
  }

  // ---- without room it blocks, and gives its place back ----------------------------------------------------

  /** s' is s with task i off its run queue, uncharged and asleep at pc. */
  predicate OffTheQueue(s: State, s': State, i: nat, pc: Pc) {
    && i < |s.thr| == |s'.thr| && s'.thr[i].pc == pc && s'.thr[i].st.Sleeping? && s'.thr[i].rq.OffRq?
    && !s'.thr[i].charged && s'.g.available == s.g.available + 1
  }

  /** A member that has decided to wait is queued last, releases the lock and sleeps; there is one opening more. */
  lemma WaiterBlocks(s: State, i: nat)
    requires Reachable(s) && i < |s.thr| && Exec(s.thr[i]) && s.thr[i].pc.WAdd?
    requires s.thr[i].rq.OnRq? && s.thr[i].assoc.This?
    ensures var s' := Step(Own(Own(s, i), i), Sleep(i));
            OffTheQueue(s, s', i, WSleep) && Lk(s', 0).Nobody? && Q(s', 0) == Q(s, 0) + [i]
  {
    ReachableInv(s);
    assert ThreadOk(s, i);
    QueuedInWait(s, i, s.thr[i]);
    OwnIsWait(s, i);
    QueueSteps(s, i);
    OwnIsWait(GoWait(s, i, false), i);
    SleepBlocks(GoWait(GoWait(s, i, false), i, false), i);
  }

  lemma QueueSteps(s: State, i: nat)
    requires i < |s.thr| && s.thr[i].pc == WAdd(0) && s.g.lockp == 0 && s.g.wqp == 0
    requires |s.locks| >= 1 && |s.queues| >= 1
    ensures var s1 := GoWait(s, i, false);
            && i < |s1.thr| && s1.thr[i] == s.thr[i].(pc := WUnlock(0), st := Sleeping)
            && GoWait(s1, i, false).thr == s.thr[i := s.thr[i].(pc := WSleep, st := Sleeping)]
            && GoWait(s1, i, false).g == s.g && Lk(GoWait(s1, i, false), 0).Nobody?
            && Q(GoWait(s1, i, false), 0) == Q(s, 0) + [i]
  {
    var s1 := GoWait(s, i, false);
    assert s1 == SetQ(s.(thr := s.thr[i := s.thr[i].(pc := WUnlock(0), st := Sleeping)]), 0, Q(s, 0) + [i]);
    assert GoWait(s1, i, false) == SetLk(SetPc(s1, i, WSleep), 0, Nobody);
  }

  lemma SleepBlocks(s: State, i: nat)
    requires i < |s.thr| && s.thr[i].st.Sleeping? && s.thr[i].rq.OnRq? && s.thr[i].fire.NoFire? && s.thr[i].charged
    requires s.thr[i].assoc.This? && (s.thr[i].pc.WSleep? || s.thr[i].pc.EcSleep?)
    ensures OffTheQueue(s, Step(s, Sleep(i)), i, s.thr[i].pc)
    ensures Step(s, Sleep(i)).queues == s.queues && Step(s, Sleep(i)).locks == s.locks
  {
  }

  lemma OwnIsEpoll(s: State, i: nat)
    requires i < |s.thr| && Exec(s.thr[i]) && (s.thr[i].pc.EcReq? || s.thr[i].pc.EcUnlock?)
    ensures Own(s, i) == GoEpWait(s, i, false)
  {
  }

  /** The same in ep_cmgroup_wait_available, with the request left for the tasklet. */
  lemma RequesterBlocks(s: State, i: nat)
    requires Reachable(s) && i < |s.thr| && Exec(s.thr[i]) && s.thr[i].pc.EcReq?
    requires s.thr[i].rq.OnRq? && s.thr[i].assoc.This?
    ensures var e := s.thr[i].pc.e;
            var s' := Step(Own(Own(s, i), i), Sleep(i));
            OffTheQueue(s, s', i, EcSleep(e, true)) && s'.g.action.ResetWakeOne? && Lk(s', e).Nobody?
  {
    ReachableInv(s);
    assert ThreadOk(s, i);
    var e := s.thr[i].pc.e;
    assert e < |s.locks| by { EpollLockExists(s, i, s.thr[i]); }
    OwnIsEpoll(s, i);
    RequestSteps(s, i);
    OwnIsEpoll(GoEpWait(s, i, false), i);
    SleepBlocks(GoEpWait(GoEpWait(s, i, false), i, false), i);
  }

  lemma RequestSteps(s: State, i: nat)
    requires i < |s.thr| && s.thr[i].pc.EcReq? && s.thr[i].pc.e < |s.locks|
    ensures var e := s.thr[i].pc.e;
            var s1 := GoEpWait(s, i, false);
            && i < |s1.thr| && s1.thr[i] == s.thr[i].(pc := EcUnlock(e, true), st := Sleeping)
            && GoEpWait(s1, i, false).thr == s.thr[i := s.thr[i].(pc := EcSleep(e, true), st := Sleeping)]
            && GoEpWait(s1, i, false).g == s.g.(action := ResetWakeOne) && Lk(GoEpWait(s1, i, false), e).Nobody?
  {
    var e := s.thr[i].pc.e;
    var s1 := GoEpWait(s, i, false);
    var t1 := s.thr[i].(pc := EcUnlock(e, true), st := Sleeping);
    assert s1 == s.(thr := s.thr[i := t1], g := s.g.(action := ResetWakeOne));
    assert GoEpWait(s1, i, false) == SetLk(SetPc(s1, i, EcSleep(e, true)), e, Nobody);
  }

  lemma EpollLockExists(s: State, i: nat, t: Thread)
    requires Shape(s) && PcOk(s, i, t) && t.pc.EcReq?
    ensures t.pc.e < |s.locks|
  {
  }

  // ---- wakeups reach a sleeper ------------------------------------------------------------------------------

  /** An epoll callback that wakes wakes the waiter that came last among those asleep. */
  lemma CallbackWakes(s: State, i: nat)
    requires i < |s.thr| && Exec(s.thr[i]) && s.thr[i].pc.EkWake? && s.thr[i].pc.e > 0
    requires FirstAsleep(s.thr, Q(s, s.thr[i].pc.e)) < |s.thr|
    ensures Own(s, i).thr[FirstAsleep(s.thr, Q(s, s.thr[i].pc.e))].st.Running?
  {
  }

  /** Attaching an epoll set wakes everybody waiting on it, so that each notices the group. */
  lemma AttachWakesWaiters(s: State, i: nat, j: nat)
    requires i < |s.thr| && Exec(s.thr[i]) && s.thr[i].pc.AtSet? && s.thr[i].pc.o.Ep?
    requires MarkOf(s, s.thr[i].pc.o).Unbound? && j in Q(s, s.thr[i].pc.o.e) && j < |s.thr|
    ensures Own(s, i).g.attached == s.thr[i].pc.o && j < |Own(s, i).thr| && Own(s, i).thr[j].st.Running?
  {
    assert Own(s, i) == GoAttach(s, i);
    AttachWakes(s, i, j);
  }

  lemma AttachWakes(s: State, i: nat, j: nat)
    requires i < |s.thr| && s.thr[i].pc.AtSet? && s.thr[i].pc.o.Ep?
    requires MarkOf(s, s.thr[i].pc.o).Unbound? && j in Q(s, s.thr[i].pc.o.e) && j < |s.thr|
    ensures var s' := GoAttach(s, i); s'.g.attached == s.thr[i].pc.o && j < |s'.thr| && s'.thr[j].st.Running?
  {
    var o := s.thr[i].pc.o;
    var s1 := SetMark(SetPc(s, i, AtObjUnlock(o, true)), o, Bound);
    assert Q(s1, o.e) == Q(s, o.e) && s1.thr == SetPc(s, i, AtObjUnlock(o, true)).thr;
  }

  // ---- ranges --------------------------------------------------------------------------------------------------

  /** The pass counter of a running tasklet: five wakeups at most, then a fresh instance takes over. */
  predicate PassOk(tl: TlPc) {
    && (tl.TlLock? || tl.TlAct? || tl.TlOne? || tl.TlQueue? || tl.TlClearRe? || tl.TlUnlockRe? || tl.TlRecheck?
        || tl.TlReCas?
        ==> tl.pass <= 5)
    && (tl.TlAvail? || tl.TlWake? ==> 1 <= tl.pass <= 5)
  }

  lemma PassStep(s: State)
    requires PassOk(s.g.tl)
    ensures PassOk(DoTasklet(s).g.tl)
    ensures DoTasklet(s).g.tl.TlResched? && !s.g.tl.TlResched? ==> s.g.tl.TlQueue? && s.g.tl.pass == 5
    ensures DoTasklet(s).g.tl.TlAvail? && !s.g.tl.TlAvail? ==>
      s.g.tl.TlQueue? && DoTasklet(s).g.tl.pass == s.g.tl.pass + 1
  {
    if Waking(s.g.tl) { PassWake(s); }
    else if s.g.tl.TlLock? || s.g.tl.TlUnlock? || s.g.tl.TlUnlockRe? { PassLock(s); }
    else { PassWalk(s); }
  }

  /** What PassStep says of one tasklet step. */
  predicate PassKept(tl: TlPc, tl': TlPc) {
    && PassOk(tl') && (tl'.TlResched? && !tl.TlResched? ==> tl.TlQueue? && tl.pass == 5)
    && (tl'.TlAvail? && !tl.TlAvail? ==> tl.TlQueue? && tl'.pass == tl.pass + 1)
  }

  lemma PassWake(s: State)
    requires PassOk(s.g.tl) && Waking(s.g.tl)
    ensures PassKept(s.g.tl, DoTasklet(s).g.tl)
  {
  }

  lemma PassLock(s: State)
    requires PassOk(s.g.tl) && (s.g.tl.TlLock? || s.g.tl.TlUnlock? || s.g.tl.TlUnlockRe?)
    ensures PassKept(s.g.tl, DoTasklet(s).g.tl)
  {
    assert forall k: nat, o :: SetLk(s, k, o).g == s.g;
  }

  lemma PassWalk(s: State)
    requires PassOk(s.g.tl) && !Waking(s.g.tl) && !s.g.tl.TlLock? && !s.g.tl.TlUnlock? && !s.g.tl.TlUnlockRe?
    ensures PassKept(s.g.tl, DoTasklet(s).g.tl)
  {
  }

  lemma {:induction false} PassAlong(s: State, ms: seq<Move>)
    requires Inv(s) && PassOk(s.g.tl)
    ensures PassOk(Run(s, ms).g.tl)
    decreases |ms|
  {
    if ms != [] {
      if ms[0].TaskletStep? { PassStep(s); } else { OnlyTaskletRuns(s, ms[0]); }
      StepKeeps(s, ms[0]);
      PassAlong(Step(s, ms[0]), ms[1..]);
    }
  }

  /** In every reachable state the running tasklet has made at most five passes. */
  lemma FivePasses(s: State)
    requires Reachable(s)
    ensures PassOk(s.g.tl)
  {
    var n: nat, e: nat, a: nat, limit: nat, ms: seq<Move> :| s == Run(Init(n, e, a, limit), ms);
    InitInv(n, e, a, limit);
    PassAlong(Init(n, e, a, limit), ms);
  }

  /** A limit that cmgroup_set_concurrency_value lets through. */
  predicate LimitOk(n: int) { 1 <= n <= 1048576 }

  predicate PcLimitOk(pc: Pc) { pc.CvMtx? || pc.CvLock? || pc.CvWrite? ==> LimitOk(pc.n) }

  predicate LimitsOk(s: State) { LimitOk(s.g.cv) && forall i :: 0 <= i < |s.thr| ==> PcLimitOk(s.thr[i].pc) }

  lemma SetCvLimits(s: State, i: nat)
    requires i < |s.thr| && LimitsOk(s)
    ensures LimitOk(GoSetCv(s, i).g.cv) && PcLimitOk(GoSetCv(s, i).thr[i].pc)
  {
    assert PcLimitOk(s.thr[i].pc);
    assert forall k: nat, o, s1 :: SetLk(s1, k, o).g == s1.g && SetLk(s1, k, o).thr == s1.thr;
  }

  lemma PlainLimits(s: State, i: nat)
    requires i < |s.thr| && LimitOk(s.g.cv) && PcLimitOk(s.thr[i].pc)
    ensures LimitOk(GoAssoc(s, i).g.cv) && PcLimitOk(GoAssoc(s, i).thr[i].pc)
    ensures LimitOk(GoLockout(s, i).g.cv) && PcLimitOk(GoLockout(s, i).thr[i].pc)
  {
    assert forall k: nat, o, s1 :: SetLk(s1, k, o).g == s1.g && SetLk(s1, k, o).thr == s1.thr;
  }

  lemma ObjectLimits(s: State, i: nat)
    requires i < |s.thr| && LimitOk(s.g.cv) && PcLimitOk(s.thr[i].pc)
    ensures i < |GoAttach(s, i).thr| && LimitOk(GoAttach(s, i).g.cv) && PcLimitOk(GoAttach(s, i).thr[i].pc)
    ensures i < |GoDetach(s, i).thr| && LimitOk(GoDetach(s, i).g.cv) && PcLimitOk(GoDetach(s, i).thr[i].pc)
  {
    AttachLimits(s, i);
    DetachLimits(s, i);
  }

  lemma AttachLimits(s: State, i: nat)
    requires i < |s.thr| && LimitOk(s.g.cv) && PcLimitOk(s.thr[i].pc)
    ensures i < |GoAttach(s, i).thr| && LimitOk(GoAttach(s, i).g.cv) && PcLimitOk(GoAttach(s, i).thr[i].pc)
  {
    assert forall k: nat, o, s1 :: SetLk(s1, k, o).g == s1.g && SetLk(s1, k, o).thr == s1.thr;
    assert forall o, k, s1 :: SetMark(s1, o, k).g == s1.g && SetMark(s1, o, k).thr == s1.thr;
  }

  lemma DetachLimits(s: State, i: nat)
    requires i < |s.thr| && LimitOk(s.g.cv) && PcLimitOk(s.thr[i].pc)
    ensures i < |GoDetach(s, i).thr| && LimitOk(GoDetach(s, i).g.cv) && PcLimitOk(GoDetach(s, i).thr[i].pc)
  {
    assert forall k: nat, o, s1 :: SetLk(s1, k, o).g == s1.g && SetLk(s1, k, o).thr == s1.thr;
    assert forall o, k, s1 :: SetMark(s1, o, k).g == s1.g && SetMark(s1, o, k).thr == s1.thr;
  }

  lemma WaitLimits(s: State, i: nat, choice: bool)
    requires i < |s.thr| && LimitOk(s.g.cv) && PcLimitOk(s.thr[i].pc)
    ensures var s' := GoWait(s, i, choice); i < |s'.thr| && LimitOk(s'.g.cv) && PcLimitOk(s'.thr[i].pc)
  {
    assert forall k: nat, o, s1 :: SetLk(s1, k, o).g == s1.g && SetLk(s1, k, o).thr == s1.thr;
  }

  lemma EpollLimits(s: State, i: nat, choice: bool)
    requires i < |s.thr| && LimitOk(s.g.cv) && PcLimitOk(s.thr[i].pc)
    ensures i < |GoEpWake(s, i).thr| && LimitOk(GoEpWake(s, i).g.cv) && PcLimitOk(GoEpWake(s, i).thr[i].pc)
    ensures var s' := GoEpWait(s, i, choice); i < |s'.thr| && LimitOk(s'.g.cv) && PcLimitOk(s'.thr[i].pc)
  {
    if s.thr[i].pc.EkWake? { WakeMovesNobody(s, s.thr[i].pc.e); }
    assert forall k: nat, o, s1 :: SetLk(s1, k, o).g == s1.g && SetLk(s1, k, o).thr == s1.thr;
  }

  lemma GoLimits(s: State, i: nat, choice: bool)
    requires i < |s.thr| && LimitsOk(s)
    ensures var s' := DoGo(s, i, choice); i < |s'.thr| && LimitOk(s'.g.cv) && PcLimitOk(s'.thr[i].pc)
  {
    assert PcLimitOk(s.thr[i].pc);
    SetCvLimits(s, i); PlainLimits(s, i); ObjectLimits(s, i); WaitLimits(s, i, choice); EpollLimits(s, i, choice);
  }

  lemma EventLimits(s: State, m: Move)
    requires !m.Go? && !m.TaskletStep? && !m.OtherAttach? && !m.OtherFree? && m.i < |s.thr| && LimitsOk(s)
    ensures var s' := Step(s, m); m.i < |s'.thr| && LimitOk(s'.g.cv) && PcLimitOk(s'.thr[m.i].pc)
  {
    assert PcLimitOk(s.thr[m.i].pc);
  }

  lemma LimitsStep(s: State, m: Move)
    requires Inv(s) && LimitsOk(s)
    ensures LimitsOk(Step(s, m))
  {
    if m.TaskletStep? { TaskletMovesNobody(s); TaskletKeepsLimit(s); }
    else if m.OtherAttach? || m.OtherFree? { }
    else if m.i >= |s.thr| { NoSuchTask(s, m); }
    else {
      if m.Go? { GoLimits(s, m.i, m.choice); } else { EventLimits(s, m); }
      OthersKeepLimits(s, m);
    }
  }

  lemma TaskletKeepsLimit(s: State)
    ensures DoTasklet(s).g.cv == s.g.cv
  {
    if Waking(s.g.tl) { WakeMovesNobody(s, s.g.wqp); }
    else if s.g.tl.TlLock? || s.g.tl.TlUnlock? || s.g.tl.TlUnlockRe? {
      assert forall k: nat, o :: SetLk(s, k, o).g == s.g;
    }
  }

  lemma OthersKeepLimits(s: State, m: Move)
    requires Inv(s) && LimitsOk(s) && !m.TaskletStep? && !m.OtherAttach? && !m.OtherFree? && m.i < |s.thr|
    ensures |Step(s, m).thr| == |s.thr| && forall j :: 0 <= j < |s.thr| && j != m.i ==> PcLimitOk(Step(s, m).thr[j].pc)
  {
    InvHolds(s, m.i);
    if m.Go? { GoTidy(s, m.i, m.choice); } else { EventTidy(s, m); }
    forall j | 0 <= j < |s.thr| && j != m.i ensures PcLimitOk(Step(s, m).thr[j].pc) {
      assert PcLimitOk(s.thr[j].pc) && Step(s, m).thr[j].pc == s.thr[j].pc;
    }
  }

  /** A group created with a legal limit has a legal limit in every state of every run. */
  lemma {:induction false} LimitsAlong(s: State, ms: seq<Move>)
    requires Inv(s) && LimitsOk(s)
    ensures LimitsOk(Run(s, ms))
    decreases |ms|
  {
    if ms != [] {
      LimitsStep(s, ms[0]);
      StepKeeps(s, ms[0]);
      LimitsAlong(Step(s, ms[0]), ms[1..]);
    }
  }

  /** So is every reachable one of a group that cmgroup_newgroup created. */
  lemma LegalLimits(nThreads: nat, nEps: nat, nAios: nat, limit: nat, ms: seq<Move>)
    requires LimitOk(limit)
    ensures LimitOk(Run(Init(nThreads, nEps, nAios, limit), ms).g.cv)
  {
    InitInv(nThreads, nEps, nAios, limit);
    LimitsAlong(Init(nThreads, nEps, nAios, limit), ms);
  }
}
