/**
  When the group holds a task back and when it lets one go (cmgroup_wait and cmgroup_tasklet in fs/cmgroup.c,
  ep_cmgroup_wait_available and ep_wake_wq in fs/eventpoll.c), over whole runs.
*/
module CmWaits {
  import opened Lists
  import opened CmModel
  import opened CmInv
  import opened CmTheorems
  import opened CmProgress
  import CmRequests

  // ---- only its own steps move a task ---------------------------------------------------------------

  lemma SchedulingStays(s: State, m: Move)
    requires m.FireStep? || m.SetState? || m.Sleep? || m.Wake? || m.Enqueue? || m.Migrate?
    requires m.i < |s.thr|
    ensures |Step(s, m).thr| == |s.thr| && Step(s, m).thr[m.i].pc == s.thr[m.i].pc
  {
  }

  lemma BusyTaskStays(s: State, m: Move)
    requires m.CallClose? || m.EnterObj? || m.LeaveObj? || m.OtherGroup? || m.CallAssoc? || m.CallAssocObj?
          || m.CallDissoc? || m.CallSetCv? || m.CallAttach? || m.CallDetach? || m.CallWait? || m.CallEpWait?
          || m.CallEpWake?
    requires m.i < |s.thr| && !s.thr[m.i].pc.Idle?
    ensures Step(s, m) == s
  {
  }

  lemma TaskletMovesNobody(s: State)
    ensures |DoTasklet(s).thr| == |s.thr| && forall j :: 0 <= j < |s.thr| ==> DoTasklet(s).thr[j].pc == s.thr[j].pc
  {
    if s.g.tl.TlWake? || s.g.tl.TlOneWake? { WakeMovesNobody(s, s.g.wqp); }
    else if s.g.tl.TlLock? || s.g.tl.TlUnlock? || s.g.tl.TlUnlockRe? { TaskletLocksOnly(s); }
  }

  lemma TaskletLocksOnly(s: State)
    requires s.g.tl.TlLock? || s.g.tl.TlUnlock? || s.g.tl.TlUnlockRe?
    ensures DoTasklet(s).thr == s.thr && DoTasklet(s).queues == s.queues
  {
    assert forall l: nat, o :: SetLk(s, l, o).thr == s.thr && SetLk(s, l, o).queues == s.queues;
  }

  /** A task inside a call stays where it is unless it takes a step itself. */
  lemma OthersStay(s: State, m: Move, i: nat)
    requires Inv(s) && i < |s.thr| && !s.thr[i].pc.Idle? && !(m.Go? && m.i == i)
    ensures |Step(s, m).thr| == |s.thr| && Step(s, m).thr[i].pc == s.thr[i].pc
  {
    if m.TaskletStep? { TaskletMovesNobody(s); }
    else if m.OtherAttach? || m.OtherFree? { }
    else if m.i >= |s.thr| { NoSuchTask(s, m); }
    else {
      InvHolds(s, m.i);
      if m.Go? { GoTidy(s, m.i, m.choice); }
      else if m.i == i { OwnEvent(s, m); }
      else { EventTidy(s, m); }
    }
  }

  lemma OwnEvent(s: State, m: Move)
    requires !m.Go? && !m.TaskletStep? && !m.OtherAttach? && !m.OtherFree? && m.i < |s.thr| && !s.thr[m.i].pc.Idle?
    ensures |Step(s, m).thr| == |s.thr| && Step(s, m).thr[m.i].pc == s.thr[m.i].pc
  {
    if m.FireStep? || m.SetState? || m.Sleep? || m.Wake? || m.Enqueue? || m.Migrate? { SchedulingStays(s, m); }
    else { BusyTaskStays(s, m); }
  }

  lemma EventTidy(s: State, m: Move)
    requires !m.Go? && !m.TaskletStep? && !m.OtherAttach? && !m.OtherFree? && HoldsOk(s, m.i)
    ensures Tidy(s, Step(s, m), m.i)
  {
    if m.FireStep? || m.SetState? || m.Sleep? || m.Wake? || m.Enqueue? || m.Migrate? { SchedulingTidy(s, m); }
    else if m.CallDissoc? || m.CallSetCv? || m.CallAttach? || m.CallDetach? { CallTidy(s, m); }
    else if m.CallWait? || m.CallEpWait? || m.CallEpWake? { CallWaitTidy(s, m); }
    else { EntryTidy(s, m); }
  }

  // ---- a waiter leaves only with room, a signal or a timeout -------------------------------------------

  /** Inside cmgroup_wait and not on the way out. */
  predicate InWait(pc: Pc) {
    || pc.WTop? || pc.WLock? || pc.WCheck? || pc.WAdd? || pc.WUnlock? || pc.WSleep? || pc.WFinish?
    || pc.WRmLock? || pc.WRm?
  }

  /** Inside ep_cmgroup_wait_available and not on the way out. */
  predicate InEpollWait(pc: Pc) {
    || pc.EcCheck? || pc.EcReq? || pc.EcNeutral?
    || ((pc.EcLock? || pc.EcAdd? || pc.EcUnlock? || pc.EcSleep? || pc.EcRelock?) && pc.cm)
  }

  predicate Held(pc: Pc, epoll: bool) { if epoll then InEpollWait(pc) else InWait(pc) }

  /** Task i is about to look at `available`, in that kind of wait, and will find that it need not wait. */
  predicate SeesRoom(s: State, i: nat, epoll: bool) {
    && i < |s.thr| && s.g.available >= 0
    && if epoll then s.thr[i].pc.EcCheck? else s.thr[i].pc.WTop? || s.thr[i].pc.WCheck?
  }

  ghost predicate SawRoom(s: State, ms: seq<Move>, i: nat, epoll: bool)
    decreases |ms|
  {
    SeesRoom(s, i, epoll) || (ms != [] && SawRoom(Step(s, ms[0]), ms[1..], i, epoll))
  }

  lemma HeldGoes(s: State, i: nat, epoll: bool)
    requires i < |s.thr| && Held(s.thr[i].pc, epoll) && !SeesRoom(s, i, epoll)
    ensures |DoGo(s, i, false).thr| == |s.thr| && Held(DoGo(s, i, false).thr[i].pc, epoll)
  {
    WaitsGo(s, i);
    if epoll { HeldInEpoll(s, i); } else { HeldInWait(s, i); }
  }

  lemma WaitsGo(s: State, i: nat)
    requires i < |s.thr|
    ensures InWait(s.thr[i].pc) ==> DoGo(s, i, false) == s || DoGo(s, i, false) == GoWait(s, i, false)
    ensures InEpollWait(s.thr[i].pc) ==> DoGo(s, i, false) == s || DoGo(s, i, false) == GoEpWait(s, i, false)
  {
  }

  lemma HeldInWait(s: State, i: nat)
    requires i < |s.thr| && InWait(s.thr[i].pc) && !SeesRoom(s, i, false)
    ensures |GoWait(s, i, false).thr| == |s.thr| && InWait(GoWait(s, i, false).thr[i].pc)
  {
  }

  lemma HeldInEpoll(s: State, i: nat)
    requires i < |s.thr| && InEpollWait(s.thr[i].pc) && !SeesRoom(s, i, true)
    ensures |GoEpWait(s, i, false).thr| == |s.thr| && InEpollWait(GoEpWait(s, i, false).thr[i].pc)
  {
  }

  lemma HeldStep(s: State, m: Move, i: nat, epoll: bool)
    requires Inv(s) && i < |s.thr| && Held(s.thr[i].pc, epoll) && !SeesRoom(s, i, epoll) && m != Go(i, true)
    ensures |Step(s, m).thr| == |s.thr| && Held(Step(s, m).thr[i].pc, epoll)
  {
    if m.Go? && m.i == i { HeldGoes(s, i, epoll); } else { OthersStay(s, m, i); }
  }

  lemma {:induction false} HeldAlong(s: State, ms: seq<Move>, i: nat, epoll: bool)
    requires Inv(s) && i < |s.thr| && Held(s.thr[i].pc, epoll) && !SawRoom(s, ms, i, epoll) && Go(i, true) !in ms
    ensures |Run(s, ms).thr| == |s.thr| && Held(Run(s, ms).thr[i].pc, epoll)
    decreases |ms|
  {
    if ms != [] {
      HeldStep(s, ms[0], i, epoll);
      StepKeeps(s, ms[0]);
      HeldAlong(Step(s, ms[0]), ms[1..], i, epoll);
    }
  }

  /**
    A task that waits for an opening, and is neither signalled nor timed out, stays in the wait until it has itself
    looked at `available` there (at WTop or WCheck; on a bound set at EcCheck) and found it not negative.
  */
  lemma LeavesOnlyWithRoom(s: State, ms: seq<Move>, i: nat, epoll: bool)
    requires Reachable(s) && i < |s.thr| && Held(s.thr[i].pc, epoll) && Go(i, true) !in ms
    requires i < |Run(s, ms).thr| && !Held(Run(s, ms).thr[i].pc, epoll)
    ensures SawRoom(s, ms, i, epoll)
  {
    ReachableInv(s);
    if !SawRoom(s, ms, i, epoll) { HeldAlong(s, ms, i, epoll); }
  }

  // ---- how the wait queues change --------------------------------------------------------------------

  lemma {:induction false} AwakeIsSub(thr: seq<Thread>, q: seq<nat>)
    ensures Sub(AwakeOf(thr, q), q)
  {
    if q != [] {
      AwakeIsSub(thr, q[1..]);
      if q[0] < |thr| && thr[q[0]].st.Sleeping? { SubDrop(AwakeOf(thr, q[1..]), q); }
      else { assert ([q[0]] + AwakeOf(thr, q[1..]))[1..] == AwakeOf(thr, q[1..]); }
    }
  }

  /**
    A step of task i leaves a queue in order, possibly without some entries, or adds i: at the tail of the
    group's own queue, coming from the check under the lock, or at the head of an epoll set's.
  */
  ghost predicate QueueStep(s: State, s': State, i: nat, l: nat) {
    || Sub(Q(s', l), Q(s, l))
    || (l == s.g.wqp && i < |s.thr| && s.thr[i].pc.WAdd? && Q(s', l) == Q(s, l) + [i])
    || (i < |s.thr| && s.thr[i].pc.EcAdd? && s.thr[i].pc.e == l && Q(s', l) == [i] + Q(s, l))
  }

  lemma WakeOneQueues(s: State, q: nat, l: nat)
    ensures Sub(Q(WakeOne(s, q), l), Q(s, l))
  {
    SubRefl(Q(s, l));
    if l == 0 { WithoutIsSub(Q(s, 0), FirstAsleep(s.thr, Q(s, q))); }
  }

  lemma WakeEveryQueues(s: State, q: nat, l: nat)
    ensures Sub(Q(WakeEvery(s, q), l), Q(s, l))
  {
    SubRefl(Q(s, l));
    AwakeIsSub(s.thr, Q(s, 0));
  }

  lemma WaitQueues(s: State, i: nat, choice: bool, l: nat)
    requires i < |s.thr|
    ensures QueueStep(s, GoWait(s, i, choice), i, l)
  {
    SubRefl(Q(s, l));
    WithoutIsSub(Q(s, 0), i);
    assert forall k: nat, o, s1 :: SetLk(s1, k, o).queues == s1.queues;
  }

  lemma EpWaitQueues(s: State, i: nat, choice: bool, l: nat)
    requires i < |s.thr|
    ensures QueueStep(s, GoEpWait(s, i, choice), i, l)
  {
    SubRefl(Q(s, l));
    if s.thr[i].pc.EcOut? { WithoutIsSub(Q(s, s.thr[i].pc.e), i); }
    assert forall k: nat, o, s1 :: SetLk(s1, k, o).queues == s1.queues;
  }

  lemma EpWakeQueues(s: State, i: nat, l: nat)
    requires i < |s.thr|
    ensures QueueStep(s, GoEpWake(s, i), i, l)
  {
    SubRefl(Q(s, l));
    if s.thr[i].pc.EkWake? { WakeOneQueues(s, s.thr[i].pc.e, l); }
    assert forall k: nat, o, s1 :: SetLk(s1, k, o).queues == s1.queues;
  }

  lemma PlainQueues(s: State, i: nat)
    requires i < |s.thr|
    ensures GoAssoc(s, i).queues == s.queues && GoSetCv(s, i).queues == s.queues && GoLockout(s, i).queues == s.queues
  {
    assert forall k: nat, o, s1 :: SetLk(s1, k, o).queues == s1.queues;
  }

  lemma AttachQueues(s: State, i: nat, l: nat)
    requires i < |s.thr|
    ensures QueueStep(s, GoAttach(s, i), i, l)
  {
    SubRefl(Q(s, l));
    AwakeIsSub(s.thr, Q(s, 0));
    assert forall k: nat, o, s1 :: SetLk(s1, k, o).queues == s1.queues;
    assert forall o, k, s1 :: SetMark(s1, o, k).queues == s1.queues && SetMark(s1, o, k).thr == s1.thr;
    if s.thr[i].pc.AtSet? && s.thr[i].pc.o.Ep? {
      var o := s.thr[i].pc.o;
      var s1 := SetMark(SetPc(s, i, AtObjUnlock(o, true)), o, Bound);
      var s2 := s1.(g := s1.g.(attached := o, lockp := RemoteOf(o), wqp := RemoteOf(o)));
      WakeEveryQueues(s2, o.e, l);
    }
  }

  lemma DetachQueues(s: State, i: nat, l: nat)
    requires i < |s.thr|
    ensures QueueStep(s, GoDetach(s, i), i, l)
  {
    SubRefl(Q(s, l));
    if s.thr[i].pc.DtQueue? { WakeEveryQueues(s, 0, l); }
    assert forall k: nat, o, s1 :: SetLk(s1, k, o).queues == s1.queues;
    assert forall o, k, s1 :: SetMark(s1, o, k).queues == s1.queues;
  }

  lemma GoQueues(s: State, i: nat, choice: bool, l: nat)
    requires i < |s.thr|
    ensures QueueStep(s, DoGo(s, i, choice), i, l)
  {
    SubRefl(Q(s, l));
    PlainQueues(s, i);
    AttachQueues(s, i, l);
    DetachQueues(s, i, l);
    WaitQueues(s, i, choice, l);
    EpWakeQueues(s, i, l);
    EpWaitQueues(s, i, choice, l);
  }

  lemma TaskletQueues(s: State, l: nat)
    ensures Sub(Q(DoTasklet(s), l), Q(s, l))
  {
    SubRefl(Q(s, l));
    if s.g.tl.TlWake? || s.g.tl.TlOneWake? { WakeOneQueues(s, s.g.wqp, l); }
    else if s.g.tl.TlLock? || s.g.tl.TlUnlock? || s.g.tl.TlUnlockRe? { TaskletLocksOnly(s); }
  }

  lemma EventQueues(s: State, m: Move)
    requires !m.Go? && !m.TaskletStep?
    ensures Step(s, m).queues == s.queues
  {
    assert forall o, k :: SetMark(s, o, k).queues == s.queues;
  }

  /**
    Waiters on the group's own queue are served in order of arrival and those of an epoll set in reverse order:
    every step keeps the order of a queue, and a newcomer goes to its tail or its head.
  */
  lemma QueueOrder(s: State, m: Move, l: nat)
    requires Reachable(s)
    ensures var s' := Step(s, m);
            || Sub(Q(s', l), Q(s, l))
            || (m.Go? && l == 0 && m.i < |s.thr| && s.thr[m.i].pc.WAdd? && Q(s', l) == Q(s, l) + [m.i])
            || (m.Go? && l > 0 && m.i < |s.thr| && s.thr[m.i].pc.EcAdd? && Q(s', l) == [m.i] + Q(s, l))
  {
    ReachableInv(s);
    SubRefl(Q(s, l));
    if m.TaskletStep? { TaskletQueues(s, l); }
    else if !m.Go? { EventQueues(s, m); }
    else if m.i < |s.thr| {
      GoQueues(s, m.i, m.choice, l);
      assert ThreadOk(s, m.i);
      QueuedPlace(s, m.i, s.thr[m.i]);
    }
  }

  lemma QueuedPlace(s: State, i: nat, t: Thread)
    requires Shape(s) && PcOk(s, i, t) && (!t.use.NoObj? ==> Alive(MarkOf(s, t.use)))
    ensures t.pc.WAdd? ==> s.g.wqp == 0
    ensures t.pc.EcAdd? ==> t.pc.e > 0
  {
  }

  // ---- a task is held back only when the group is full --------------------------------------------------

  /** Task i looks at `available` under the lock and will find that it must wait. */
  predicate SeesFull(s: State, i: nat) {
    i < |s.thr| && s.thr[i].pc.WCheck? && s.g.available < 0
  }

  ghost predicate SawFull(s: State, ms: seq<Move>, i: nat)
    decreases |ms|
  {
    SeesFull(s, i) || (ms != [] && SawFull(Step(s, ms[0]), ms[1..], i))
  }

  /** Task i is neither queued on the group's own queue nor about to be. */
  predicate NotQueued(s: State, i: nat) { i < |s.thr| && !s.thr[i].pc.WAdd? && i !in Q(s, 0) }

  lemma PlainEnters(s: State, i: nat)
    requires i < |s.thr| && !s.thr[i].pc.WAdd?
    ensures !GoAssoc(s, i).thr[i].pc.WAdd? && !GoSetCv(s, i).thr[i].pc.WAdd? && !GoLockout(s, i).thr[i].pc.WAdd?
  {
    assert forall k: nat, o, s1 :: SetLk(s1, k, o).thr == s1.thr;
  }

  lemma ObjectEnters(s: State, i: nat)
    requires i < |s.thr| && !s.thr[i].pc.WAdd?
    ensures |GoAttach(s, i).thr| == |s.thr| && !GoAttach(s, i).thr[i].pc.WAdd?
    ensures |GoDetach(s, i).thr| == |s.thr| && !GoDetach(s, i).thr[i].pc.WAdd?
  {
    assert forall k: nat, o, s1 :: SetLk(s1, k, o).thr == s1.thr;
    assert forall o, k, s1 :: SetMark(s1, o, k).thr == s1.thr;
  }

  lemma EpollEnters(s: State, i: nat, choice: bool)
    requires i < |s.thr| && !s.thr[i].pc.WAdd?
    ensures |GoEpWake(s, i).thr| == |s.thr| && !GoEpWake(s, i).thr[i].pc.WAdd?
    ensures |GoEpWait(s, i, choice).thr| == |s.thr| && !GoEpWait(s, i, choice).thr[i].pc.WAdd?
  {
    assert forall k: nat, o, s1 :: SetLk(s1, k, o).thr == s1.thr;
    if s.thr[i].pc.EkWake? { WakeMovesNobody(s, s.thr[i].pc.e); }
  }

  lemma WaitEnters(s: State, i: nat, choice: bool)
    requires i < |s.thr| && !s.thr[i].pc.WAdd? && !SeesFull(s, i)
    ensures |GoWait(s, i, choice).thr| == |s.thr| && !GoWait(s, i, choice).thr[i].pc.WAdd?
  {
  }

  /** The decision to queue is made only under the lock, with `available` negative. */
  lemma WAddEntered(s: State, i: nat, choice: bool)
    requires i < |s.thr| && !s.thr[i].pc.WAdd? && !SeesFull(s, i)
    ensures |DoGo(s, i, choice).thr| == |s.thr| && !DoGo(s, i, choice).thr[i].pc.WAdd?
  {
    PlainEnters(s, i);
    ObjectEnters(s, i);
    EpollEnters(s, i, choice);
    WaitEnters(s, i, choice);
  }

  lemma EventEnters(s: State, m: Move)
    requires !m.Go? && !m.TaskletStep? && !m.OtherAttach? && !m.OtherFree? && m.i < |s.thr| && !s.thr[m.i].pc.WAdd?
    ensures |Step(s, m).thr| == |s.thr| && !Step(s, m).thr[m.i].pc.WAdd?
  {
  }

  lemma NotQueuedStep(s: State, m: Move, i: nat)
    requires Reachable(s) && NotQueued(s, i) && !SeesFull(s, i)
    ensures NotQueued(Step(s, m), i)
  {
    ReachableInv(s);
    if m.Go? && m.i == i { WAddEntered(s, i, m.choice); }
    else if !m.TaskletStep? && !m.OtherAttach? && !m.OtherFree? && m.i == i { if !m.Go? { EventEnters(s, m); } }
    else { OtherTaskStays(s, m, i); }
    QueueOrder(s, m, 0);
    if Sub(Q(Step(s, m), 0), Q(s, 0)) && i in Q(Step(s, m), 0) { SubMembers(Q(Step(s, m), 0), Q(s, 0), i); }
  }

  lemma OtherTaskStays(s: State, m: Move, i: nat)
    requires Inv(s) && i < |s.thr| && (m.TaskletStep? || m.OtherAttach? || m.OtherFree? || m.i != i)
    ensures |Step(s, m).thr| == |s.thr| && Step(s, m).thr[i].pc == s.thr[i].pc
  {
    if m.TaskletStep? { TaskletMovesNobody(s); }
    else if m.OtherAttach? || m.OtherFree? { }
    else if m.i >= |s.thr| { NoSuchTask(s, m); }
    else {
      InvHolds(s, m.i);
      if m.Go? { GoTidy(s, m.i, m.choice); } else { EventTidy(s, m); }
    }
  }

  /**
    A task comes onto the group's own queue only after it has itself found `available` negative under the lock.
    (It may have risen since: it is counted without the lock, and then the tasklet is owed.)
  */
  lemma {:induction false} QueuedOnlyWhenFull(s: State, ms: seq<Move>, i: nat)
    requires Reachable(s) && NotQueued(s, i) && i in Q(Run(s, ms), 0)
    ensures SawFull(s, ms, i)
    decreases |ms|
  {
    if ms != [] && !SeesFull(s, i) {
      NotQueuedStep(s, ms[0], i);
      CmRequests.ReachableStep(s, ms[0]);
      QueuedOnlyWhenFull(Step(s, ms[0]), ms[1..], i);
    }
  }

  // ---- wakeups are made only into an opening -------------------------------------------------------------

  /** The tasklet decides to wake a waiter only with an opening in sight, and is the only one to do so by itself. */
  lemma TaskletNeedsRoom(s: State)
    ensures var tl := DoTasklet(s).g.tl; (tl.TlWake? || tl.TlOneWake?) && tl != s.g.tl ==> s.g.available > 0
    ensures forall j :: 0 <= j < |s.thr| && j < |DoTasklet(s).thr| && DoTasklet(s).thr[j] != s.thr[j] ==>
      s.g.tl.TlWake? || s.g.tl.TlOneWake?
  {
    if s.g.tl.TlWake? || s.g.tl.TlOneWake? { WakeMovesNobody(s, s.g.wqp); }
    else if s.g.tl.TlLock? || s.g.tl.TlUnlock? || s.g.tl.TlUnlockRe? { TaskletLocksOnly(s); }
  }

  /** The tasklet sees an opening at one of its two checks. */
  predicate TaskletSeesRoom(s: State) { (s.g.tl.TlAvail? || s.g.tl.TlOne?) && s.g.available > 0 }

  ghost predicate TaskletSawRoom(s: State, ms: seq<Move>)
    decreases |ms|
  {
    TaskletSeesRoom(s) || (ms != [] && TaskletSawRoom(Step(s, ms[0]), ms[1..]))
  }

  predicate Waking(tl: TlPc) { tl.TlWake? || tl.TlOneWake? }

  lemma OnlyTaskletRuns(s: State, m: Move)
    requires Inv(s) && !m.TaskletStep?
    ensures Step(s, m).g.tl == s.g.tl
  {
    if m.OtherAttach? || m.OtherFree? { }
    else if m.i >= |s.thr| { NoSuchTask(s, m); }
    else {
      InvHolds(s, m.i);
      if m.Go? { GoTidy(s, m.i, m.choice); } else { EventTidy(s, m); }
    }
  }

  /** From outside a wakeup, the tasklet gets to one only by way of a check that saw an opening. */
  lemma {:induction false} WakesOnlyIntoRoom(s: State, ms: seq<Move>)
    requires Inv(s) && !Waking(s.g.tl) && Waking(Run(s, ms).g.tl)
    ensures TaskletSawRoom(s, ms)
    decreases |ms|
  {
    if ms != [] && !TaskletSeesRoom(s) {
      StepKeeps(s, ms[0]);
      if ms[0].TaskletStep? { TaskletStaysOut(s); } else { OnlyTaskletRuns(s, ms[0]); }
      WakesOnlyIntoRoom(Step(s, ms[0]), ms[1..]);
    }
  }

  lemma TaskletStaysOut(s: State)
    requires !Waking(s.g.tl) && !TaskletSeesRoom(s)
    ensures !Waking(DoTasklet(s).g.tl)
  {
    assert forall k: nat, o :: SetLk(s, k, o).g == s.g;
  }

  /**
    An epoll callback wakes a waiter of a bound set itself only with an opening, and otherwise leaves a request for the
    tasklet; of a set that is not bound it always wakes one.
  */
  lemma CallbackNeedsRoom(s: State, i: nat, choice: bool)
    requires i < |s.thr| && Exec(s.thr[i]) && s.thr[i].pc.EkCheck? && Q(s, s.thr[i].pc.e) != []
    ensures var e := s.thr[i].pc.e;
            var pc := Step(s, Go(i, choice)).thr[i].pc;
            && (pc == EkWake(e) <==> !MarkOf(s, Ep(e)).Bound? || s.g.available >= 1)
            && (pc == EkReq(e) <==> MarkOf(s, Ep(e)).Bound? && s.g.available <= 0)
  {
  }
}
