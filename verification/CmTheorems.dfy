/** The invariant holds in every reachable state, and what that means for the group. */
module CmTheorems {
  import opened Lists
  import opened CmModel
  import opened CmInv
  import opened CmProof
  import opened CmLocal
  import opened CmSpecial
  import opened CmObjects
  import opened CmTasklet
  import opened SeqSums

  // ---- every step keeps the invariant -------------------------------------------------------

  lemma Close(s: State, s': State, i: nat)
    requires Inv(s) && (s' == s || Local(s, s', i))
    ensures Inv(s')
  {
    if s' != s { LocalStep(s, s', i); }
  }

  lemma GoAssocKeeps(s: State, i: nat)
    requires Inv(s) && Pre(s, i) && Exec(s.thr[i])
    ensures Inv(GoAssoc(s, i))
  {
    match s.thr[i].pc {
      case PutCall => PutCallLocal(s, i);
      case AsEnter => AsEnterLocal(s, i);
      case AsSet => AsSetLocal(s, i);
      case AsCharge => AsChargeLocal(s, i);
      case DsClear => DsClearLocal(s, i);
      case _ =>
    }
    Close(s, GoAssoc(s, i), i);
  }

  lemma GoSetCvKeeps(s: State, i: nat)
    requires Inv(s) && Pre(s, i) && Exec(s.thr[i])
    ensures Inv(GoSetCv(s, i))
  {
    match s.thr[i].pc {
      case CvMtx(_) => CvMtxLocal(s, i);
      case CvLock(_) => CvLockLocal(s, i);
      case CvWrite(_, _) => CvWriteLocal(s, i);
      case CvAdd(_, _) => CvAddLocal(s, i);
      case CvUnlock(_) => CvUnlockLocal(s, i);
      case CvMtxPut => CvMtxPutLocal(s, i);
      case _ =>
    }
    Close(s, GoSetCv(s, i), i);
  }

  lemma GoAttachKeeps(s: State, i: nat)
    requires Inv(s) && Pre(s, i) && Exec(s.thr[i])
    ensures Inv(GoAttach(s, i))
  {
    match s.thr[i].pc {
      case AtMtx(_) => AtMtxLocal(s, i); Close(s, GoAttach(s, i), i);
      case AtCheck(_) => AtCheckLocal(s, i); Close(s, GoAttach(s, i), i);
      case AtMtxPut => AtMtxPutLocal(s, i); Close(s, GoAttach(s, i), i);
      case AtObjLock(_) => AtObjLockLocal(s, i); Close(s, GoAttach(s, i), i);
      case AtSet(o) =>
        if MarkOf(s, o).Unbound? { AttachKeeps(s, i); } else { AtSetRefusedLocal(s, i); Close(s, GoAttach(s, i), i); }
      case AtObjUnlock(_, _) => AtObjUnlockLocal(s, i); Close(s, GoAttach(s, i), i);
      case _ =>
    }
  }

  /** A lockout that has been through the lock finds the tasklet out of the way. */
  lemma LockoutQuiet(s: State, i: nat)
    requires Inv(s) && Pre(s, i) && s.thr[i].pc.LoUnlock?
    ensures Quiet(s.g.tl)
  {
    Claimed(s, i);
  }

  lemma GoLockoutKeeps(s: State, i: nat)
    requires Inv(s) && Pre(s, i) && Exec(s.thr[i])
    ensures Inv(GoLockout(s, i))
  {
    match s.thr[i].pc {
      case LoCas(_) => LoCasLocal(s, i);
      case LoLock(_) => LoLockLocal(s, i);
      case LoUnlock(_, _) => LockoutQuiet(s, i); LoUnlockLocal(s, i);
      case UnloClear(_) => Claimed(s, i); UnloClearLocal(s, i);
      case LoMtxPut(_) => LoMtxPutLocal(s, i);
      case _ =>
    }
    Close(s, GoLockout(s, i), i);
  }

  lemma GoDetachKeeps(s: State, i: nat)
    requires Inv(s) && Pre(s, i) && Exec(s.thr[i])
    ensures Inv(GoDetach(s, i))
  {
    match s.thr[i].pc {
      case DtMtx(_) => DtMtxLocal(s, i); Close(s, GoDetach(s, i), i);
      case DtLock(_) => DtLockLocal(s, i); Close(s, GoDetach(s, i), i);
      case DtQueue(_, _) => DetachQueueEmpty(s, i); DtQueueLocal(s, i); Close(s, GoDetach(s, i), i);
      case DtUnlock(_, _, _) => DtUnlockLocal(s, i); Close(s, GoDetach(s, i), i);
      case DtSet(_) => DtSetKeeps(s, i);
      case DtPut(_) => DtPutKeeps(s, i);
      case _ =>
    }
  }

  lemma GoWaitKeeps(s: State, i: nat, choice: bool)
    requires Inv(s) && Pre(s, i) && Exec(s.thr[i])
    ensures Inv(GoWait(s, i, choice))
  {
    match s.thr[i].pc {
      case WTop => WTopLocal(s, i, choice); Close(s, GoWait(s, i, choice), i);
      case WLock => WLockLocal(s, i, choice); Close(s, GoWait(s, i, choice), i);
      case WCheck(_) => WCheckLocal(s, i, choice); Close(s, GoWait(s, i, choice), i);
      case WDrop(_) => WDropLocal(s, i, choice); Close(s, GoWait(s, i, choice), i);
      case WAdd(_) => WAddKeeps(s, i, choice);
      case WUnlock(_) => WUnlockLocal(s, i, choice); Close(s, GoWait(s, i, choice), i);
      case WSleep => WSleepLocal(s, i, choice); Close(s, GoWait(s, i, choice), i);
      case WFinish => WFinishLocal(s, i, choice); Close(s, GoWait(s, i, choice), i);
      case WRmLock => WRmLockLocal(s, i, choice); Close(s, GoWait(s, i, choice), i);
      case WRm => WRmKeeps(s, i, choice);
      case _ =>
    }
  }

  lemma GoEpWakeKeeps(s: State, i: nat)
    requires Inv(s) && Pre(s, i) && Exec(s.thr[i])
    ensures Inv(GoEpWake(s, i))
  {
    match s.thr[i].pc {
      case EkLock(_) => EkLockLocal(s, i); Close(s, GoEpWake(s, i), i);
      case EkCheck(e) =>
        if GoEpWake(s, i) == SetPc(s, i, EkReq(e)) {
          EkCheckRequestLocal(s, i);
        } else {
          EkCheckEmptyLocal(s, i);
          EkCheckWakeLocal(s, i);
        }
        Close(s, GoEpWake(s, i), i);
      case EkReq(_) => EkReqKeeps(s, i);
      case EkWake(_) => EkWakeKeeps(s, i);
      case EkUnlock(_) => EkUnlockLocal(s, i); Close(s, GoEpWake(s, i), i);
      case _ =>
    }
  }

  lemma EkWakeTail(s: State, i: nat)
    requires Pre(s, i) && Exec(s.thr[i]) && s.thr[i].pc.EkWake?
    ensures Local(s, SetPc(s, i, EkUnlock(s.thr[i].pc.e)), i)
  {
  }

  lemma EkWakeKeeps(s: State, i: nat)
    requires Inv(s) && i < |s.thr| && Exec(s.thr[i]) && s.thr[i].pc.EkWake?
    ensures Inv(GoEpWake(s, i))
  {
    var s1 := if s.thr[i].pc.e == 0 then s else WakeOne(s, s.thr[i].pc.e);
    WakeOneOnly(s, s.thr[i].pc.e);
    if s1 != s { WakesKeep(s, s1); }
    EkWakeRest(s1, i);
    assert s1.thr[i].pc == s.thr[i].pc;
  }

  lemma EkWakeRest(s: State, i: nat)
    requires Inv(s) && i < |s.thr| && Exec(s.thr[i]) && s.thr[i].pc.EkWake?
    ensures Inv(SetPc(s, i, EkUnlock(s.thr[i].pc.e)))
  {
    InvPre(s, i);
    EkWakeTail(s, i);
    LocalStep(s, SetPc(s, i, EkUnlock(s.thr[i].pc.e)), i);
  }

  lemma GoEpWaitKeeps(s: State, i: nat, choice: bool)
    requires Inv(s) && Pre(s, i) && Exec(s.thr[i])
    ensures Inv(GoEpWait(s, i, choice))
  {
    match s.thr[i].pc {
      case EcAdd(_, _) => EcAddKeeps(s, i, choice);
      case EcOut(_) => EcOutKeeps(s, i, choice);
      case EcReq(_) => if choice { EpWaitPlain(s, i, choice); } else { EcReqKeeps(s, i); }
      case EcNeutral(_) => EcNeutralKeeps(s, i, choice);
      case _ => EpWaitPlain(s, i, choice);
    }
  }

  lemma EcReqKeeps(s: State, i: nat)
    requires Inv(s) && Pre(s, i) && Exec(s.thr[i]) && s.thr[i].pc.EcReq?
    ensures Inv(GoEpWait(s, i, false))
  {
    EcReqSpecial(s, i);
    ActionKeeps(s, GoEpWait(s, i, false), i);
  }

  lemma EcNeutralKeeps(s: State, i: nat, choice: bool)
    requires Inv(s) && Pre(s, i) && Exec(s.thr[i]) && s.thr[i].pc.EcNeutral?
    ensures Inv(GoEpWait(s, i, choice))
  {
    if choice { EcNeutralOutSpecial(s, i); } else { EcNeutralSpecial(s, i); }
    ActionKeeps(s, GoEpWait(s, i, choice), i);
  }

  lemma EkReqKeeps(s: State, i: nat)
    requires Inv(s) && Pre(s, i) && Exec(s.thr[i]) && s.thr[i].pc.EkReq?
    ensures Inv(GoEpWake(s, i))
  {
    EkReqSpecial(s, i);
    ActionKeeps(s, GoEpWake(s, i), i);
  }

  lemma EpWaitPlain(s: State, i: nat, choice: bool)
    requires Inv(s) && Pre(s, i) && Exec(s.thr[i])
    requires !s.thr[i].pc.EcAdd? && !s.thr[i].pc.EcOut? && !s.thr[i].pc.EcNeutral?
    requires s.thr[i].pc.EcReq? ==> choice
    ensures Inv(GoEpWait(s, i, choice))
  {
    match s.thr[i].pc {
      case EcLock(_, _) => EcLockLocal(s, i, choice);
      case EcCheck(_) => EcCheckLocal(s, i, choice);
      case EcReq(_) => EcReqSignalLocal(s, i);
      case EcUnlock(_, _) => EcUnlockLocal(s, i, choice);
      case EcSleep(_, _) => EcSleepLocal(s, i, choice);
      case EcRelock(_, _) => EcRelockLocal(s, i, choice);
      case _ =>
    }
    Close(s, GoEpWait(s, i, choice), i);
  }

  lemma GoKeeps(s: State, i: nat, choice: bool)
    requires Inv(s) && i < |s.thr|
    ensures Inv(DoGo(s, i, choice))
  {
    InvPre(s, i);
    if Exec(s.thr[i]) {
      GoAssocKeeps(s, i); GoSetCvKeeps(s, i); GoAttachKeeps(s, i); GoLockoutKeeps(s, i);
      GoDetachKeeps(s, i); GoWaitKeeps(s, i, choice); GoEpWakeKeeps(s, i); GoEpWaitKeeps(s, i, choice);
    }
  }

  lemma FireKeeps(s: State, i: nat)
    requires Inv(s) && i < |s.thr|
    ensures Inv(DoFire(s, i))
  {
    InvPre(s, i);
    match s.thr[i].fire {
      case NoFire =>
      case WantCas => FireCasLocal(s, i); LocalStep(s, DoFire(s, i), i);
      case GotCas => FireRefLocal(s, i); LocalStep(s, DoFire(s, i), i);
      case GotRef => Claimed(s, i); FireScheduleLocal(s, i); LocalStep(s, DoFire(s, i), i);
    }
  }

  /** Every interleaved step of every task, the tasklet and the environment keeps the invariant. */
  lemma StepKeeps(s: State, m: Move)
    requires Inv(s)
    ensures Inv(Step(s, m))
  {
    if m.TaskletStep? { TaskletKeeps(s); }
    else if m.OtherAttach? || m.OtherFree? { EnvironmentKeeps(s, m); }
    else if m.i < |s.thr| { TaskStepKeeps(s, m); }
  }

  lemma EnvironmentKeeps(s: State, m: Move)
    requires Inv(s) && (m.OtherAttach? || m.OtherFree?)
    ensures Inv(Step(s, m))
  {
    var o := m.o;
    if m.OtherAttach? {
      if MarkOf(s, o).Unbound? { ForeignKeeps(s, o, Foreign); }
    } else if (MarkOf(s, o).Unbound? || MarkOf(s, o).Foreign?) && Unused(s, o) {
      ForeignKeeps(s, o, Freed);
    }
  }

  lemma TaskStepKeeps(s: State, m: Move)
    requires Inv(s) && !m.TaskletStep? && !m.OtherAttach? && !m.OtherFree? && m.i < |s.thr|
    ensures Inv(Step(s, m))
  {
    InvPre(s, m.i);
    match m {
      case FireStep(i) => FireKeeps(s, i);
      case SetState(i) =>
        if Exec(s.thr[i]) && Blockable(s.thr[i].pc) { SetStateLocal(s, i); Close(s, DoSetState(s, i), i); }
      case Sleep(i) => SleepLocal(s, i); Close(s, DoSleep(s, i), i);
      case Wake(i) => WakeLocal(s, i); Close(s, DoWake(s, i), i);
      case Enqueue(i) => EnqueueLocal(s, i); Close(s, DoEnqueue(s, i), i);
      case Migrate(i) => MigrateLocal(s, i); Close(s, DoMigrate(s, i), i);
      case CallClose(i) => CallCloseLocal(s, i); Close(s, DoCallClose(s, i), i);
      case EnterObj(i, o) => EnterObjLocal(s, i, o); Close(s, DoEnterObj(s, i, o), i);
      case LeaveObj(i) => LeaveObjLocal(s, i); Close(s, DoLeaveObj(s, i), i);
      case OtherGroup(i) => OtherGroupLocal(s, i); Close(s, DoOtherGroup(s, i), i);
      case CallAssoc(i) => CallAssocLocal(s, i); Close(s, DoCallAssoc(s, i), i);
      case CallAssocObj(i) => CallAssocObjLocal(s, i); Close(s, DoCallAssocObj(s, i), i);
      case CallDissoc(i) => CallDissocLocal(s, i); Close(s, DoCallDissoc(s, i), i);
      case CallSetCv(i, n) => CallSetCvLocal(s, i, n); Close(s, DoCallSetCv(s, i, n), i);
      case CallAttach(i, o) => CallAttachLocal(s, i, o); Close(s, DoCallAttach(s, i, o), i);
      case CallDetach(i) => CallDetachKeeps(s, i);
      case CallWait(i) => CallWaitLocal(s, i); Close(s, DoCallWait(s, i), i);
      case CallEpWait(i, cm) => CallEpWaitLocal(s, i, cm); Close(s, DoCallEpWait(s, i, cm), i);
      case CallEpWake(i) => CallEpWakeLocal(s, i); Close(s, DoCallEpWake(s, i), i);
      case Go(i, choice) => GoKeeps(s, i, choice);
    }
  }

  lemma {:induction false} RunKeeps(s: State, ms: seq<Move>)
    requires Inv(s)
    ensures Inv(Run(s, ms))
    decreases |ms|
  {
    if ms != [] {
      StepKeeps(s, ms[0]);
      RunKeeps(Step(s, ms[0]), ms[1..]);
    }
  }

  /** The states a group can reach from cmgroup_newgroup with any tasks, objects and moves. */
  ghost predicate Reachable(s: State) {
    exists n: nat, e: nat, a: nat, limit: nat, ms: seq<Move> :: s == Run(Init(n, e, a, limit), ms)
  }

  lemma ReachableInv(s: State)
    requires Reachable(s)
    ensures Inv(s)
  {
    var n: nat, e: nat, a: nat, limit: nat, ms: seq<Move> :| s == Run(Init(n, e, a, limit), ms);
    InitInv(n, e, a, limit);
    RunKeeps(Init(n, e, a, limit), ms);
  }

  // ---- no lost wakeup -----------------------------------------------------------------------

  /**
    While the group uses its own queue, an opening and a sleeping waiter never coexist unless a
    tasklet run is in flight, a task is between its crossing and its CAS, or the tasklet is
    between clearing its flag and its recheck.
  */
  lemma NoLostWakeup(s: State)
    requires Reachable(s) && !s.g.attached.Ep? && s.g.available >= 1 && LocalSleeper(s)
    ensures Owed(s) && s.g.action.WakeAll?
  {
    ReachableInv(s);
  }

  /** A pending epoll request and an opening never coexist unless a tasklet run is owed in the same sense. */
  lemma NoLostRequest(s: State)
    requires Reachable(s) && s.g.action.ResetWakeOne? && s.g.available >= 1
    ensures Owed(s) && s.g.attached.Ep?
  {
    ReachableInv(s);
  }

  /** `tasklet_active` always has exactly one claimant: fire_tasklet, a scheduled or running tasklet, or a lockout. */
  lemma ActiveHasOneClaimant(s: State)
    requires Reachable(s)
    ensures s.g.active <==> s.g.sched || TlOwns(s.g.tl) || exists i :: 0 <= i < |s.thr| && Tok(s.thr[i]) == 1
    ensures !(s.g.sched && TlOwns(s.g.tl))
    ensures forall i :: 0 <= i < |s.thr| && Tok(s.thr[i]) >= 1 ==> !s.g.sched && !TlOwns(s.g.tl) && Tok(s.thr[i]) == 1
    ensures forall i, j :: 0 <= i < |s.thr| && 0 <= j < |s.thr| && Tok(s.thr[i]) >= 1 && Tok(s.thr[j]) >= 1 ==> i == j
  {
    ReachableInv(s);
    TokBounds(s);
    if s.g.active && !s.g.sched && !TlOwns(s.g.tl) { SomeTok(s.thr); }
    forall i, j | 0 <= i < |s.thr| && 0 <= j < |s.thr| && Tok(s.thr[i]) >= 1 && Tok(s.thr[j]) >= 1 ensures i == j {
      if i != j { SumAtLeast(s.thr, i, Tok); }
    }
  }

  lemma {:induction false} SomeTok(thr: seq<Thread>)
    requires Sum(thr, Tok) >= 1
    ensures exists i :: 0 <= i < |thr| && Tok(thr[i]) >= 1
  {
    if Tok(thr[0]) < 1 {
      SomeTok(thr[1..]);
      var i :| 0 <= i < |thr[1..]| && Tok(thr[1..][i]) >= 1;
      assert thr[i + 1] == thr[1..][i];
    }
  }

  /** When no group code is in flight, an opening means that nobody waits for it. */
  lemma QuietMeansServed(s: State)
    requires Reachable(s) && s.g.tl.TlNone? && !s.g.sched && s.g.available >= 1
    requires forall i :: 0 <= i < |s.thr| ==> s.thr[i].fire.NoFire? && !LockedOut(s.thr[i].pc)
    ensures !s.g.action.ResetWakeOne?
    ensures forall j :: j in Q(s, 0) && j < |s.thr| ==> s.thr[j].st.Running?
  {
    ReachableInv(s);
    ActiveHasOneClaimant(s);
    forall j | j in Q(s, 0) && j < |s.thr| ensures s.thr[j].st.Running? {
      if s.thr[j].st.Sleeping? {
        assert LocalSleeper(s);
        WaiterIsLocal(s, j);
      }
    }
  }

  lemma WaiterIsLocal(s: State, j: nat)
    requires Inv(s) && j in Q(s, 0)
    ensures s.g.lockp == 0 && s.g.attached.Aio?
  {
    assert QueueOk(s.thr, s.queues[0], 0);
    assert ThreadOk(s, j);
    WaitBound(s, j, s.thr[j]);
  }

  lemma WaitBound(s: State, j: nat, t: Thread)
    requires Shape(s) && PcOk(s, j, t) && QueuedAt(t.pc, 0)
    ensures s.g.lockp == 0 && s.g.attached.Aio?
  {
    assert InWait(s, t);
    assert MarkOf(s, t.use).Bound?;
  }

  /** A scheduled tasklet with the lock free and an opening wakes the longest-waiting sleeper within six steps. */
  lemma TaskletWakesFirst(s: State)
    requires Reachable(s) && s.g.sched && s.g.tl.TlNone? && s.g.lockp == 0 && Lk(s, 0).Nobody?
    requires s.g.available >= 1 && LocalSleeper(s)
    ensures var j := FirstAsleep(s.thr, Q(s, 0));
            var s' := Run(s, [TaskletStep, TaskletStep, TaskletStep, TaskletStep, TaskletStep, TaskletStep]);
            && j < |s.thr| && j in Q(s, 0)
            && s'.thr == s.thr[j := s.thr[j].(st := Running)] && Q(s', 0) == Without(Q(s, 0), j)
            && s'.g.active && s'.g.available == s.g.available && s'.g.nWaked == s.g.nWaked + 1
  {
    ReachableInv(s);
    Claimant(s);
    FirstIsAsleep(s.thr, Q(s, 0));
    Run6(s);
    WalksToWake(s);
    WakesOne(DoTasklet(DoTasklet(DoTasklet(DoTasklet(DoTasklet(s))))));
  }

  /** Five steps take a scheduled tasklet to the wakeup, with nothing else changed. */
  lemma WalksToWake(s: State)
    requires Shape(s) && s.g.sched && s.g.tl.TlNone? && s.g.lockp == 0 && Lk(s, 0).Nobody?
    requires s.g.available >= 1 && Q(s, 0) != []
    ensures var s5 := DoTasklet(DoTasklet(DoTasklet(DoTasklet(DoTasklet(s)))));
            && s5.thr == s.thr && s5.queues == s.queues && s5.g == s.g.(sched := false, tl := TlWake(1, 0))
  {
    var s1 := DoTasklet(s);
    var s2 := DoTasklet(s1);
    assert s2.g == s.g.(sched := false, tl := TlAct(0, 0)) && s2.queues == s.queues;
    var s3 := DoTasklet(s2);
    var s4 := DoTasklet(s3);
    assert s4.g == s.g.(sched := false, tl := TlAvail(1, 0));
  }

  lemma WakesOne(s: State)
    requires s.g.tl.TlWake? && s.g.wqp == 0 && FirstAsleep(s.thr, Q(s, 0)) < |s.thr| && |s.queues| >= 1
    ensures var j := FirstAsleep(s.thr, Q(s, 0));
            var s' := DoTasklet(s);
            && s'.thr == s.thr[j := s.thr[j].(st := Running)] && Q(s', 0) == Without(Q(s, 0), j)
            && s'.g.active == s.g.active && s'.g.available == s.g.available && s'.g.nWaked == s.g.nWaked + 1
  {
  }

  lemma Claimant(s: State)
    requires TokenOk(s) && s.g.sched
    ensures s.g.active
  {
    TokBounds(s);
  }

  lemma Run6(s: State)
    ensures Run(s, [TaskletStep, TaskletStep, TaskletStep, TaskletStep, TaskletStep, TaskletStep])
            == DoTasklet(DoTasklet(DoTasklet(DoTasklet(DoTasklet(DoTasklet(s))))))
  {
    var t := TaskletStep;
    assert [t, t, t, t, t, t][1..] == [t, t, t, t, t];
    assert [t, t, t, t, t][1..] == [t, t, t, t];
    assert [t, t, t, t][1..] == [t, t, t];
    assert [t, t, t][1..] == [t, t];
    assert [t, t][1..] == [t];
    assert [t][1..] == [];
  }

  lemma {:induction false} FirstIsAsleep(thr: seq<Thread>, q: seq<nat>)
    requires exists j :: j in q && j < |thr| && thr[j].st.Sleeping?
    ensures FirstAsleep(thr, q) in q && FirstAsleep(thr, q) < |thr| && thr[FirstAsleep(thr, q)].st.Sleeping?
  {
    if !(q[0] < |thr| && thr[q[0]].st.Sleeping?) { FirstIsAsleep(thr, q[1..]); }
  }

  // ---- lock swap safety ---------------------------------------------------------------------

  ghost predicate PointersKept(s: State, s': State) {
    s'.g.lockp == s.g.lockp && s'.g.wqp == s.g.wqp && s'.g.attached == s.g.attached
  }

  /** While the tasklet owns its flag or holds the lock, no step of anybody changes lock or wq. */
  lemma PointersHeldStill(s: State, m: Move)
    requires Reachable(s) && (TlOwns(s.g.tl) || TlLockOf(s.g.tl) >= 0)
    ensures PointersKept(s, Step(s, m))
  {
    ReachableInv(s);
    if m.Go? {
      if m.i < |s.thr| {
        assert ThreadOk(s, m.i);
        NoSwapNow(s, m.i, s.thr[m.i]);
        GoPointers(s, m.i, m.choice);
      }
    } else {
      OtherPointers(s, m);
    }
  }

  lemma NoSwapNow(s: State, i: nat, t: Thread)
    requires PcOk(s, i, t) && (TlOwns(s.g.tl) || TlLockOf(s.g.tl) >= 0)
    ensures !t.pc.AtSet? && !t.pc.DtSet?
  {
  }

  /** Among the calls, only the two swap steps assign the pointers. */
  lemma GoPointers(s: State, i: nat, choice: bool)
    requires i < |s.thr| && !s.thr[i].pc.AtSet? && !s.thr[i].pc.DtSet?
    ensures PointersKept(s, DoGo(s, i, choice))
  {
    AssocPointers(s, i);
    AttachPointers(s, i);
    WaitPointers(s, i, choice);
    EpollPointers(s, i, choice);
  }

  lemma AssocPointers(s: State, i: nat)
    requires i < |s.thr|
    ensures PointersKept(s, GoAssoc(s, i)) && PointersKept(s, GoSetCv(s, i)) && PointersKept(s, GoLockout(s, i))
  {
  }

  lemma AttachPointers(s: State, i: nat)
    requires i < |s.thr| && !s.thr[i].pc.AtSet? && !s.thr[i].pc.DtSet?
    ensures PointersKept(s, GoAttach(s, i)) && PointersKept(s, GoDetach(s, i))
  {
  }

  lemma WaitPointers(s: State, i: nat, choice: bool)
    requires i < |s.thr|
    ensures PointersKept(s, GoWait(s, i, choice))
  {
  }

  lemma EpollPointers(s: State, i: nat, choice: bool)
    requires i < |s.thr|
    ensures PointersKept(s, GoEpWake(s, i)) && PointersKept(s, GoEpWait(s, i, choice))
  {
  }

  lemma OtherPointers(s: State, m: Move)
    requires !m.Go?
    ensures PointersKept(s, Step(s, m))
  {
    if m.TaskletStep? { TaskletPointers(s); }
  }

  lemma TaskletPointers(s: State)
    ensures PointersKept(s, DoTasklet(s))
  {
    if s.g.tl.TlWake? || s.g.tl.TlOneWake? { WakePointers(s); }
    else if s.g.tl.TlLock? || s.g.tl.TlUnlock? || s.g.tl.TlUnlockRe? { LockPointers(s); }
    else { WalkPointers(s); }
  }

  lemma WakePointers(s: State)
    requires s.g.tl.TlWake? || s.g.tl.TlOneWake?
    ensures PointersKept(s, DoTasklet(s))
  {
    WakeOneOnly(s, s.g.wqp);
  }

  lemma WalkPointers(s: State)
    requires !s.g.tl.TlWake? && !s.g.tl.TlOneWake? && !s.g.tl.TlLock? && !s.g.tl.TlUnlock? && !s.g.tl.TlUnlockRe?
    ensures PointersKept(s, DoTasklet(s))
  {
  }

  lemma LockPointers(s: State)
    requires s.g.tl.TlLock? || s.g.tl.TlUnlock? || s.g.tl.TlUnlockRe?
    ensures PointersKept(s, DoTasklet(s))
  {
    assert forall l: nat, o :: SetLk(s, l, o).g == s.g;
  }

  /** Every unlock through `cmgroup->lock` releases the lock that was taken, still owned by the releaser. */
  lemma UnlocksMatch(s: State)
    requires Reachable(s)
    ensures TlLockOf(s.g.tl) >= 0 ==> TlLockOf(s.g.tl) == s.g.lockp && Lk(s, s.g.lockp).Softirq?
    ensures forall i :: 0 <= i < |s.thr| && LockOf(s.thr[i].pc) >= 0 ==> Lk(s, LockOf(s.thr[i].pc)) == Thr(i)
    ensures forall i :: 0 <= i < |s.thr| && ViaPointer(s.thr[i].pc) ==> LockOf(s.thr[i].pc) == s.g.lockp
  {
    ReachableInv(s);
    forall i | 0 <= i < |s.thr|
      ensures LockOf(s.thr[i].pc) >= 0 ==> Lk(s, LockOf(s.thr[i].pc)) == Thr(i)
      ensures ViaPointer(s.thr[i].pc) ==> LockOf(s.thr[i].pc) == s.g.lockp
    {
      assert ThreadOk(s, i);
      PointerLock(s, i, s.thr[i]);
    }
  }

  /** Program counters whose unlock goes through `cmgroup->lock`. */
  predicate ViaPointer(pc: Pc) {
    pc.CvUnlock? || pc.LoUnlock? || pc.DtUnlock? || pc.WUnlock? || pc.WDrop?
  }

  lemma PointerLock(s: State, i: nat, t: Thread)
    requires Shape(s) && PcOk(s, i, t)
    ensures ViaPointer(t.pc) ==> LockOf(t.pc) == s.g.lockp
  {
    if t.pc.WUnlock? || t.pc.WDrop? { assert MarkOf(s, t.use).Bound?; }
  }

  /** A group and its object name each other, one kind at a time, and remote pointers mean a live epoll object. */
  lemma OneToOne(s: State)
    requires Reachable(s)
    ensures forall o :: MarkOf(s, o).Bound? ==> s.g.attached == o
    ensures !s.g.attached.NoObj? ==> MarkOf(s, s.g.attached).Bound? || MarkOf(s, s.g.attached).Dying?
    ensures s.g.lockp == s.g.wqp && (s.g.lockp != 0 <==> s.g.attached.Ep?)
    ensures s.g.attached.Ep? ==> s.g.lockp == s.g.attached.e && !MarkOf(s, s.g.attached).Freed?
  {
    ReachableInv(s);
  }

  /** The warning in cmgroup_wait cannot trigger: a waiter always finds the group's own queue and lock. */
  lemma WaitNeverRemote(s: State, i: nat)
    requires Reachable(s) && i < |s.thr| && s.thr[i].use.Aio? && MarkOf(s, s.thr[i].use).Bound?
    ensures s.g.wqp == 0 && s.g.lockp == 0
  {
    ReachableInv(s);
  }

  /** cmgroup_detach finds both kinds of queue empty, so it neither loops nor warns. */
  lemma DetachQueueEmpty(s: State, i: nat)
    requires Inv(s) && i < |s.thr| && s.thr[i].pc.DtQueue?
    ensures Q(s, s.g.wqp) == []
  {
    assert ThreadOk(s, i);
    var l := s.g.wqp;
    if Q(s, l) != [] {
      var j := s.queues[l][0];
      assert j in s.queues[l];
      assert QueueOk(s.thr, s.queues[l], l);
      assert ThreadOk(s, j);
      QueuedUses(s, j, s.thr[j], l);
    }
  }

  lemma QueuedUses(s: State, j: nat, t: Thread, l: nat)
    requires Shape(s) && PcOk(s, j, t) && QueuedAt(t.pc, l) && l == s.g.lockp
    ensures t.use == s.g.attached
  {
    if l == 0 { assert MarkOf(s, t.use).Bound?; }
  }

  // ---- reference conservation ---------------------------------------------------------------

  /** kref is the sum of all holders; at zero no holder of any kind is left. */
  lemma RefsConserved(s: State)
    requires Reachable(s)
    ensures s.g.kref == Refs(s) >= 0
    ensures s.g.kref == 0 ==> !s.g.file && s.g.attached.NoObj? && !s.g.sched && TlRef(s.g.tl) == 0
                              && forall i :: 0 <= i < |s.thr| ==> RefOf(s.thr[i]) == 0
  {
    ReachableInv(s);
    SumNonNegative(s.thr, RefOf);
    forall i | 0 <= i < |s.thr| ensures s.g.kref == 0 ==> RefOf(s.thr[i]) == 0 { SumAtLeast(s.thr, i, RefOf); }
  }

  /** A task is executing code that dereferences the group. */
  ghost predicate Touches(s: State, t: Thread) {
    !t.fire.NoFire? || t.assoc.This? || CallRef(t.pc) == 1 || t.pc.AsCharge? || HoldsMtx(t.pc) || t.pc.DtMtx?
    || t.pc.WTop? || t.pc.WLock? || t.pc.WCheck? || t.pc.WAdd? || t.pc.WUnlock? || t.pc.WDrop? || t.pc.WSleep?
    || t.pc.WFinish? || t.pc.WRmLock? || t.pc.WRm? || t.pc.EkReq? || t.pc.EcReq? || t.pc.EcCheck? || t.pc.EcNeutral?
    || (t.pc.EkCheck? && MarkOf(s, Ep(t.pc.e)).Bound?)
  }

  /** Nobody touches a freed group: group code in progress implies a live reference. */
  lemma NoUseAfterFree(s: State, i: nat)
    requires Reachable(s) && i < |s.thr| && (Touches(s, s.thr[i]) || !s.g.tl.TlNone?)
    ensures s.g.kref >= 1
  {
    ReachableInv(s);
    RefsConserved(s);
    SumAtLeast(s.thr, i, RefOf);
    assert ThreadOk(s, i);
    if Touches(s, s.thr[i]) && RefOf(s.thr[i]) == 0 { TouchBound(s, i, s.thr[i]); }
  }

  lemma TouchBound(s: State, i: nat, t: Thread)
    requires Shape(s) && PcOk(s, i, t) && Touches(s, t) && RefOf(t) == 0
    requires !t.fire.NoFire? ==> (t.rq.OffRq? && t.assoc.This?) || t.pc.DsClear? || t.pc.CvUnlock? || t.pc.LoMtxPut?
    requires t.pc.AsCharge? || t.pc.DsClear? ==> t.assoc.This?
    ensures !s.g.attached.NoObj?
  {
    assert MarkOf(s, t.use).Bound? ==> s.g.attached == t.use;
  }

  /** Once the count is zero no step raises it again: the group is freed exactly once. */
  lemma FreedOnce(s: State, m: Move)
    requires Reachable(s) && s.g.kref == 0
    ensures Step(s, m).g.kref == 0
  {
    ReachableInv(s);
    RefsConserved(s);
    if !m.TaskletStep? && !m.OtherAttach? && !m.OtherFree? && m.i < |s.thr| {
      assert ThreadOk(s, m.i);
      if Touches(s, s.thr[m.i]) { TouchBound(s, m.i, s.thr[m.i]); }
      assert !MarkOf(s, s.thr[m.i].use).Bound?;
      NobodyHolds(s, m);
    }
  }

  lemma NobodyHolds(s: State, m: Move)
    requires !m.TaskletStep? && !m.OtherAttach? && !m.OtherFree? && m.i < |s.thr|
    requires !s.g.file && !MarkOf(s, s.thr[m.i].use).Bound? && RefOf(s.thr[m.i]) == 0 && !Touches(s, s.thr[m.i])
    ensures Step(s, m).g.kref == s.g.kref
  {
    if m.Go? {
      CallsKeepRefs(s, m.i);
      WaitsKeepRefs(s, m.i, m.choice);
    } else if m.FireStep? || m.SetState? || m.Sleep? || m.Wake? || m.Enqueue? || m.Migrate? {
      SchedulingKeepsRefs(s, m);
    } else {
      EntryKeepsRefs(s, m);
    }
  }

  lemma CallsKeepRefs(s: State, i: nat)
    requires i < |s.thr| && RefOf(s.thr[i]) == 0 && !Touches(s, s.thr[i])
    ensures GoAssoc(s, i).g.kref == s.g.kref && GoSetCv(s, i).g.kref == s.g.kref
    ensures GoAttach(s, i).g.kref == s.g.kref && GoLockout(s, i).g.kref == s.g.kref
  {
    assert forall l: nat, o :: SetLk(s, l, o).g == s.g;
  }

  lemma WaitsKeepRefs(s: State, i: nat, choice: bool)
    requires i < |s.thr| && RefOf(s.thr[i]) == 0 && !Touches(s, s.thr[i])
    ensures GoDetach(s, i).g.kref == s.g.kref && GoWait(s, i, choice).g.kref == s.g.kref
    ensures GoEpWake(s, i).g.kref == s.g.kref && GoEpWait(s, i, choice).g.kref == s.g.kref
  {
  }

  lemma SchedulingKeepsRefs(s: State, m: Move)
    requires m.FireStep? || m.SetState? || m.Sleep? || m.Wake? || m.Enqueue? || m.Migrate?
    requires m.i < |s.thr| && !Touches(s, s.thr[m.i])
    ensures Step(s, m).g.kref == s.g.kref
  {
  }

  lemma EntryKeepsRefs(s: State, m: Move)
    requires m.CallClose? || m.EnterObj? || m.LeaveObj? || m.OtherGroup? || m.CallAssoc? || m.CallAssocObj?
          || m.CallDissoc? || m.CallSetCv? || m.CallAttach? || m.CallDetach? || m.CallWait? || m.CallEpWait?
          || m.CallEpWake?
    requires m.i < |s.thr| && !s.g.file && !MarkOf(s, s.thr[m.i].use).Bound? && !Touches(s, s.thr[m.i])
    ensures Step(s, m).g.kref == s.g.kref
  {
  }

  /** tasklet_schedule never finds its bit already set, so no reference handed to a tasklet is lost. */
  lemma ScheduleNeverMerges(s: State)
    requires Reachable(s)
    ensures forall i :: 0 <= i < |s.thr| && s.thr[i].fire.GotRef? ==> !s.g.sched
    ensures s.g.tl.TlResched? ==> !s.g.sched
  {
    ReachableInv(s);
    TokBounds(s);
  }

  // ---- accounting ---------------------------------------------------------------------------

  /** Associated with the group and on a run queue, or between the two halves of a migration. */
  function Runnable(t: Thread): int { B(t.assoc.This? && !t.rq.OffRq?) }

  predicate Settled(t: Thread) { !t.pc.AsCharge? && !t.pc.DsClear? && !t.pc.CvAdd? }

  /** At every quiescent point `available` is the limit minus the group's runnable tasks. */
  lemma Accounting(s: State)
    requires Reachable(s) && forall i :: 0 <= i < |s.thr| ==> Settled(s.thr[i])
    ensures s.g.available == s.g.cv - Sum(s.thr, Runnable)
    ensures forall i :: 0 <= i < |s.thr| && s.thr[i].assoc.This? ==> (s.thr[i].charged <==> !s.thr[i].rq.OffRq?)
  {
    ReachableInv(s);
    forall i | 0 <= i < |s.thr| ensures Chg(s.thr[i]) == Runnable(s.thr[i]) && Pend(s.thr[i]) == 0
                                ensures s.thr[i].assoc.This? ==> (s.thr[i].charged <==> !s.thr[i].rq.OffRq?) {
      assert ThreadOk(s, i);
    }
    SumCong(s.thr, Chg, s.thr, Runnable);
    ZeroSum(s.thr, Pend);
  }

  /** And in between, the difference is exactly the limit changes and charges still in flight. */
  lemma AccountingInFlight(s: State)
    requires Reachable(s)
    ensures s.g.available == s.g.cv - Sum(s.thr, Chg) - Sum(s.thr, Pend)
    ensures forall i :: 0 <= i < |s.thr| && Settled(s.thr[i]) ==> Chg(s.thr[i]) == Runnable(s.thr[i])
  {
    ReachableInv(s);
    forall i | 0 <= i < |s.thr| && Settled(s.thr[i]) ensures Chg(s.thr[i]) == Runnable(s.thr[i]) {
      assert ThreadOk(s, i);
    }
  }
}
