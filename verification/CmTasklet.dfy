/** Every step of cmgroup_tasklet keeps the invariant. */
module CmTasklet {
  import opened CmModel
  import opened CmInv
  import opened CmProof
  import opened CmSpecial

  /** Only the tasklet, its counters and the lock it takes or drops changed. */
  ghost predicate OnlyTasklet(s: State, s': State) {
    && s'.thr == s.thr && s'.queues == s.queues && SamePointers(s, s') && |s'.locks| == |s.locks|
    && (forall l :: 0 <= l < |s.locks| ==> s'.locks[l] == s.locks[l] || s.locks[l].Softirq? || s.locks[l].Nobody?)
    && s'.g.mtx == s.g.mtx
    && B(s'.g.active) - B(s.g.active) == TlTok(s') - TlTok(s)
    && s'.g.kref - s.g.kref == B(s'.g.sched) - B(s.g.sched) + TlRef(s'.g.tl) - TlRef(s.g.tl)
    && s'.g.file == s.g.file && s'.g.available == s.g.available && s'.g.cv == s.g.cv
    && (s'.g.action == s.g.action || (s.g.lockp != 0 && s'.g.action.Neutral?))
  }

  lemma TaskletStep(s: State, s': State)
    requires Inv(s) && OnlyTasklet(s, s') && TaskletOk(s')
    requires (Quiet(s.g.tl) ==> Quiet(s'.g.tl)) || !s.g.active || s.g.sched
    requires s'.g.available >= 1 && Needed(s') ==> Owed(s')
    ensures Inv(s')
  {
    SameShape(s, s');
    forall j | 0 <= j < |s.thr| ensures ThreadOk(s', j) {
      assert ThreadOk(s, j);
      SameMark(s, s', s.thr[j].use);
      if Quiet(s.g.tl) && !Quiet(s'.g.tl) { NoLockout(s, j); }
      TaskletPc(s, s', j, s.thr[j]);
    }
  }

  /** While the flag is clear, or the tasklet is scheduled, no task has it locked out. */
  lemma NoLockout(s: State, j: nat)
    requires TokenOk(s) && j < |s.thr| && (!s.g.active || s.g.sched)
    ensures !LockedOut(s.thr[j].pc)
  {
    TokBounds(s);
  }

  lemma TaskletPc(s: State, s': State, j: nat, t: Thread)
    requires SamePointers(s, s') && PcOk(s, j, t)
    requires (Quiet(s.g.tl) ==> Quiet(s'.g.tl)) || !LockedOut(t.pc)
    ensures PcOk(s', j, t)
  {
    assert forall o :: MarkOf(s', o) == MarkOf(s, o);
  }

  lemma DecidesUnderLock(s: State, k: nat, t: Thread)
    requires Shape(s) && Decides(t.pc) && PcOk(s, k, t)
    ensures LockOf(t.pc) == s.g.lockp
  {
    match t.pc
    case WAdd(l) => assert MarkOf(s, t.use).Bound?;
    case EkReq(e) => assert MarkOf(s, t.use).Bound?;
    case EcReq(e) => assert MarkOf(s, t.use).Bound?;
  }

  /** Under the group's lock held by the tasklet, no task is about to queue itself or request. */
  lemma NobodyDecides(s: State)
    requires Shape(s) && ThreadsOk(s) && TaskletOk(s) && TlLockOf(s.g.tl) >= 0
    ensures !Deciding(s.thr)
  {
    if Deciding(s.thr) {
      var k :| 0 <= k < |s.thr| && Decides(s.thr[k].pc);
      assert ThreadOk(s, k);
      DecidesUnderLock(s, k, s.thr[k]);
    }
  }

  /** The same wakeups are owed when only the tasklet's position changed. */
  lemma StillOwed(s: State, s': State)
    requires WakeupOk(s) && s'.thr == s.thr && s'.queues == s.queues
    requires s'.g.available == s.g.available && s'.g.lockp == s.g.lockp
    requires s'.g.action.ResetWakeOne? ==> s.g.action.ResetWakeOne?
    requires s.g.active ==> s'.g.active
    requires s.g.tl.TlUnlockRe? || s.g.tl.TlRecheck? || s.g.tl.TlReCas? ==> Owed(s') || s.g.available <= 0
    ensures s'.g.available >= 1 && Needed(s') ==> Owed(s')
  {
    assert LocalSleeper(s') <==> LocalSleeper(s);
  }

  /** Steps that leave tasklet_active alone and wake nobody. */
  predicate Walking(tl: TlPc) {
    tl.TlNone? || tl.TlLock? || tl.TlAct? || tl.TlOne? || tl.TlQueue? || tl.TlResched? || tl.TlAvail?
  }

  lemma WalkOnly(s: State)
    requires Shape(s) && TaskletOk(s) && Walking(s.g.tl) && !s.g.tl.TlNone? && !s.g.tl.TlLock?
    requires s.g.tl.TlResched? ==> !s.g.sched
    ensures OnlyTasklet(s, DoTasklet(s))
  {
    if s.g.tl.TlAct? || s.g.tl.TlOne? { ActOnly(s); }
    else if s.g.tl.TlQueue? { QueueOnly(s); }
    else if s.g.tl.TlResched? { ReschedOnly(s); }
    else { AvailOnly(s); }
  }

  lemma ActOnly(s: State)
    requires Shape(s) && TaskletOk(s) && (s.g.tl.TlAct? || s.g.tl.TlOne?)
    ensures OnlyTasklet(s, DoTasklet(s))
  {
  }

  lemma QueueOnly(s: State)
    requires Shape(s) && TaskletOk(s) && s.g.tl.TlQueue?
    ensures OnlyTasklet(s, DoTasklet(s))
  {
  }

  lemma ReschedOnly(s: State)
    requires Shape(s) && TaskletOk(s) && s.g.tl.TlResched? && !s.g.sched
    ensures OnlyTasklet(s, DoTasklet(s))
  {
  }

  lemma AvailOnly(s: State)
    requires Shape(s) && TaskletOk(s) && s.g.tl.TlAvail?
    ensures OnlyTasklet(s, DoTasklet(s))
  {
  }

  lemma LockOnly(s: State)
    requires Shape(s) && TaskletOk(s) && (s.g.tl.TlNone? || s.g.tl.TlLock? || s.g.tl.TlUnlock? || s.g.tl.TlUnlockRe?)
    ensures OnlyTasklet(s, DoTasklet(s))
  {
  }

  lemma WalkTasklet(s: State)
    requires Shape(s) && TaskletOk(s) && Walking(s.g.tl)
    ensures TaskletOk(DoTasklet(s))
  {
    if s.g.tl.TlNone? || s.g.tl.TlLock? { StartTasklet(s); }
    else if s.g.tl.TlAct? || s.g.tl.TlOne? { ActTasklet(s); }
    else { QueueTasklet(s); }
  }

  lemma StartTasklet(s: State)
    requires Shape(s) && TaskletOk(s) && (s.g.tl.TlNone? || s.g.tl.TlLock?)
    ensures TaskletOk(DoTasklet(s))
  {
  }

  lemma ActTasklet(s: State)
    requires Shape(s) && TaskletOk(s) && (s.g.tl.TlAct? || s.g.tl.TlOne?)
    ensures TaskletOk(DoTasklet(s))
  {
  }

  lemma QueueTasklet(s: State)
    requires Shape(s) && TaskletOk(s) && (s.g.tl.TlQueue? || s.g.tl.TlResched? || s.g.tl.TlAvail?)
    ensures TaskletOk(DoTasklet(s))
  {
    var s' := DoTasklet(s);
    if s'.g.tl.TlClear? && s.g.lockp == 0 { assert Q(s', 0) == []; }
  }

  lemma WalkKeeps(s: State)
    requires Inv(s) && Walking(s.g.tl)
    ensures Inv(DoTasklet(s))
  {
    var s' := DoTasklet(s);
    TokBounds(s);
    if s.g.tl.TlNone? || s.g.tl.TlLock? { LockOnly(s); } else { WalkOnly(s); }
    WalkTasklet(s);
    StillOwed(s, s');
    if s' != s { TaskletStep(s, s'); }
  }

  lemma UnlockKeeps(s: State)
    requires Inv(s) && (s.g.tl.TlUnlock? || s.g.tl.TlUnlockRe? || s.g.tl.TlUnref?)
    ensures Inv(DoTasklet(s))
  {
    var s' := DoTasklet(s);
    if !s.g.tl.TlUnref? { LockOnly(s); }
    StillOwed(s, s');
    TaskletStep(s, s');
  }

  /** Clearing the flag on the way out drops nothing, because nobody needs the tasklet. */
  lemma ClearKeeps(s: State)
    requires Inv(s) && s.g.tl.TlClear?
    ensures Inv(DoTasklet(s))
  {
    var s' := DoTasklet(s);
    TokBounds(s);
    NobodyDecides(s);
    assert LocalSleeper(s') ==> LocalSleeper(s);
    TaskletStep(s, s');
  }

  /** Clearing the flag before the recheck leaves the recheck owing the wakeup. */
  lemma RecheckKeeps(s: State)
    requires Inv(s) && (s.g.tl.TlClearRe? || s.g.tl.TlRecheck? || s.g.tl.TlReCas?)
    ensures Inv(DoTasklet(s))
  {
    if s.g.tl.TlClearRe? { ClearReKeeps(s); } else { ReCheckCasKeeps(s); }
  }

  lemma ClearReKeeps(s: State)
    requires Inv(s) && s.g.tl.TlClearRe?
    ensures Inv(DoTasklet(s))
  {
    TokBounds(s);
    TaskletStep(s, DoTasklet(s));
  }

  lemma ReCheckCasKeeps(s: State)
    requires Inv(s) && (s.g.tl.TlRecheck? || s.g.tl.TlReCas?)
    ensures Inv(DoTasklet(s))
  {
    TokBounds(s);
    StillOwed(s, DoTasklet(s));
    TaskletStep(s, DoTasklet(s));
  }

  /** The wake passes: either somebody was woken and the loop goes on, or nobody was asleep. */
  lemma WakeKeeps(s: State)
    requires Inv(s) && (s.g.tl.TlWake? || s.g.tl.TlOneWake?)
    ensures Inv(DoTasklet(s))
  {
    var s1 := WakeOne(s, s.g.wqp);
    WakeOneOnly(s, s.g.wqp);
    WakesKeep(s, s1);
    var s' := DoTasklet(s);
    if FirstAsleep(s.thr, Q(s, s.g.wqp)) >= |s.thr| { NobodyAsleep(s.thr, Q(s, s.g.wqp)); }
    WakeTail(s1, s');
  }

  lemma WakeTail(s: State, s': State)
    requires Inv(s) && (s.g.tl.TlWake? || s.g.tl.TlOneWake?)
    requires s' == SetTl(s, s'.g.tl)
    requires s'.g.tl == TlClear(TlLockOf(s.g.tl)) || (s.g.tl.TlWake? && s'.g.tl == TlQueue(s.g.tl.pass, s.g.tl.l))
    requires s'.g.tl.TlClear? && s.g.lockp == 0 ==> !LocalSleeper(s)
    ensures Inv(s')
  {
    assert LocalSleeper(s') <==> LocalSleeper(s);
    StillOwed(s, s');
    TaskletStep(s, s');
  }

  lemma TaskletKeeps(s: State)
    requires Inv(s)
    ensures Inv(DoTasklet(s))
  {
    match s.g.tl {
      case TlNone | TlLock(_) | TlAct(_, _) | TlOne(_, _) | TlQueue(_, _) | TlResched(_) | TlAvail(_, _) =>
        WalkKeeps(s);
      case TlUnlock(_, _) | TlUnlockRe(_, _) | TlUnref => UnlockKeeps(s);
      case TlClear(_) => ClearKeeps(s);
      case TlClearRe(_, _) | TlRecheck(_) | TlReCas(_) => RecheckKeeps(s);
      case TlWake(_, _) | TlOneWake(_) => WakeKeeps(s);
    }
  }
}
