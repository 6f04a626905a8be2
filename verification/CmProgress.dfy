/**
  An owed wakeup is delivered: from every reachable state with an opening and a sleeper on the group's own
  queue, a bounded number of steps of the tasklet, of whoever claims its flag and of whoever holds the lock
  wakes a sleeper (or the opening or the sleeper is gone).
*/
module CmProgress {
  import opened CmModel
  import opened CmInv
  import opened CmSpecial
  import opened CmTheorems
  import opened SeqSums

  // ---- whoever owns the group's own lock is at a place that gives it back ---------------------------

  ghost predicate OwnerOk(s: State) {
    && (Lk(s, 0).Thr? ==> Lk(s, 0).i < |s.thr| && LockOf(s.thr[Lk(s, 0).i].pc) == 0)
    && (Lk(s, 0).Softirq? ==> TlLockOf(s.g.tl) == 0)
  }

  /** A step of task i alone that keeps, releases or takes lock 0 as its program counter says. */
  ghost predicate Tidy(s: State, s': State, i: nat) {
    && i < |s.thr| == |s'.thr| && s'.g.tl == s.g.tl
    && (forall j :: 0 <= j < |s.thr| && j != i ==> s'.thr[j].pc == s.thr[j].pc)
    && ((Lk(s', 0) == Lk(s, 0) && (LockOf(s.thr[i].pc) == 0 ==> LockOf(s'.thr[i].pc) == 0))
        || Lk(s', 0).Nobody?
        || (Lk(s', 0) == Thr(i) && LockOf(s'.thr[i].pc) == 0))
  }

  lemma TidyKeeps(s: State, s': State, i: nat)
    requires OwnerOk(s) && Tidy(s, s', i)
    ensures OwnerOk(s')
  {
  }

  /** What the invariant says about the locks of task i. */
  ghost predicate HoldsOk(s: State, i: nat) {
    && i < |s.thr| && |s.locks| >= 1
    && (ViaPointer(s.thr[i].pc) ==> LockOf(s.thr[i].pc) == s.g.lockp)
  }

  lemma InvHolds(s: State, i: nat)
    requires Inv(s) && i < |s.thr|
    ensures HoldsOk(s, i)
  {
    assert ThreadOk(s, i);
    PointerLock(s, i, s.thr[i]);
  }

  lemma AssocTidy(s: State, i: nat)
    requires HoldsOk(s, i)
    ensures Tidy(s, GoAssoc(s, i), i)
  {
  }

  lemma SetCvTidy(s: State, i: nat)
    requires HoldsOk(s, i)
    ensures Tidy(s, GoSetCv(s, i), i)
  {
  }

  lemma AttachTidy(s: State, i: nat)
    requires HoldsOk(s, i)
    ensures Tidy(s, GoAttach(s, i), i)
  {
  }

  lemma LockoutTidy(s: State, i: nat)
    requires HoldsOk(s, i)
    ensures Tidy(s, GoLockout(s, i), i)
  {
  }

  lemma DetachTidy(s: State, i: nat)
    requires HoldsOk(s, i)
    ensures Tidy(s, GoDetach(s, i), i)
  {
  }

  lemma WaitTidy(s: State, i: nat, choice: bool)
    requires HoldsOk(s, i)
    ensures Tidy(s, GoWait(s, i, choice), i)
  {
  }

  /** Waking a waiter moves nobody. */
  lemma WakeMovesNobody(s: State, q: nat)
    ensures var s' := WakeOne(s, q);
            && |s'.thr| == |s.thr| && (forall j :: 0 <= j < |s.thr| ==> s'.thr[j].pc == s.thr[j].pc)
            && s'.locks == s.locks && s'.g == s.g.(nWaked := s'.g.nWaked)
  {
  }

  lemma EkWakeTidy(s: State, i: nat)
    requires HoldsOk(s, i) && s.thr[i].pc.EkWake?
    ensures Tidy(s, GoEpWake(s, i), i)
  {
    WakeMovesNobody(s, s.thr[i].pc.e);
  }

  lemma EpWakeTidy(s: State, i: nat)
    requires HoldsOk(s, i)
    ensures Tidy(s, GoEpWake(s, i), i)
  {
    if s.thr[i].pc.EkWake? { EkWakeTidy(s, i); } else { EkTidy(s, i); }
  }

  lemma EkTidy(s: State, i: nat)
    requires HoldsOk(s, i) && !s.thr[i].pc.EkWake?
    ensures Tidy(s, GoEpWake(s, i), i)
  {
  }

  lemma EpWaitTidy(s: State, i: nat, choice: bool)
    requires HoldsOk(s, i)
    ensures Tidy(s, GoEpWait(s, i, choice), i)
  {
    var pc := s.thr[i].pc;
    if pc.EcLock? || pc.EcRelock? || pc.EcUnlock? { EcLockTidy(s, i, choice); }
    else if pc.EcAdd? { EcAddTidy(s, i, choice); }
    else if pc.EcOut? { EcOutTidy(s, i, choice); }
    else { EcPlainTidy(s, i, choice); }
  }

  lemma EcLockTidy(s: State, i: nat, choice: bool)
    requires HoldsOk(s, i) && (s.thr[i].pc.EcLock? || s.thr[i].pc.EcRelock? || s.thr[i].pc.EcUnlock?)
    ensures Tidy(s, GoEpWait(s, i, choice), i)
  {
  }

  lemma EcAddTidy(s: State, i: nat, choice: bool)
    requires HoldsOk(s, i) && s.thr[i].pc.EcAdd?
    ensures Tidy(s, GoEpWait(s, i, choice), i)
  {
    var e := s.thr[i].pc.e;
    var s1 := if s.thr[i].pc.cm then SetPc(s, i, EcCheck(e))
              else s.(thr := s.thr[i := s.thr[i].(pc := EcUnlock(e, false), st := Sleeping)]);
    QueueTidy(s, s1, i, e, [i] + Q(s, e));
  }

  /** Wait queues have nothing to do with it. */
  lemma QueueTidy(s: State, s': State, i: nat, l: nat, q: seq<nat>)
    requires Tidy(s, s', i)
    ensures Tidy(s, SetQ(s', l, q), i)
  {
  }

  lemma EcOutTidy(s: State, i: nat, choice: bool)
    requires HoldsOk(s, i) && s.thr[i].pc.EcOut?
    ensures Tidy(s, GoEpWait(s, i, choice), i)
  {
  }

  lemma EcPlainTidy(s: State, i: nat, choice: bool)
    requires HoldsOk(s, i)
    requires !s.thr[i].pc.EcLock? && !s.thr[i].pc.EcRelock? && !s.thr[i].pc.EcUnlock?
    requires !s.thr[i].pc.EcAdd? && !s.thr[i].pc.EcOut?
    ensures Tidy(s, GoEpWait(s, i, choice), i)
  {
  }

  lemma GoTidy(s: State, i: nat, choice: bool)
    requires HoldsOk(s, i)
    ensures Tidy(s, DoGo(s, i, choice), i)
  {
    AssocTidy(s, i); SetCvTidy(s, i); AttachTidy(s, i); LockoutTidy(s, i);
    DetachTidy(s, i); WaitTidy(s, i, choice); EpWakeTidy(s, i); EpWaitTidy(s, i, choice);
  }

  lemma TaskletTidy(s: State)
    requires OwnerOk(s) && |s.locks| >= 1 && (TlLockOf(s.g.tl) >= 0 ==> TlLockOf(s.g.tl) == s.g.lockp)
    ensures OwnerOk(DoTasklet(s))
  {
    if s.g.tl.TlWake? || s.g.tl.TlOneWake? { TaskletWakeTidy(s); }
    else if s.g.tl.TlLock? || s.g.tl.TlUnlock? || s.g.tl.TlUnlockRe? { TaskletLockTidy(s); }
    else { TaskletPlainTidy(s); }
  }

  lemma TaskletWakeTidy(s: State)
    requires OwnerOk(s) && |s.locks| >= 1 && (s.g.tl.TlWake? || s.g.tl.TlOneWake?)
    ensures OwnerOk(DoTasklet(s))
  {
    WakeMovesNobody(s, s.g.wqp);
  }

  lemma TaskletLockTidy(s: State)
    requires OwnerOk(s) && |s.locks| >= 1 && (TlLockOf(s.g.tl) >= 0 ==> TlLockOf(s.g.tl) == s.g.lockp)
    requires s.g.tl.TlLock? || s.g.tl.TlUnlock? || s.g.tl.TlUnlockRe?
    ensures OwnerOk(DoTasklet(s))
  {
  }

  lemma TaskletPlainTidy(s: State)
    requires OwnerOk(s) && |s.locks| >= 1 && !s.g.tl.TlLock? && !s.g.tl.TlUnlock? && !s.g.tl.TlUnlockRe?
    requires !s.g.tl.TlWake? && !s.g.tl.TlOneWake?
    ensures OwnerOk(DoTasklet(s))
  {
  }

  lemma SchedulingTidy(s: State, m: Move)
    requires m.FireStep? || m.SetState? || m.Sleep? || m.Wake? || m.Enqueue? || m.Migrate?
    requires HoldsOk(s, m.i)
    ensures Tidy(s, Step(s, m), m.i)
  {
  }

  lemma EntryTidy(s: State, m: Move)
    requires m.CallClose? || m.EnterObj? || m.LeaveObj? || m.OtherGroup? || m.CallAssoc? || m.CallAssocObj?
    requires HoldsOk(s, m.i)
    ensures Tidy(s, Step(s, m), m.i)
  {
  }

  lemma CallTidy(s: State, m: Move)
    requires (m.CallDissoc? || m.CallSetCv? || m.CallAttach? || m.CallDetach?) && HoldsOk(s, m.i)
    ensures Tidy(s, Step(s, m), m.i)
  {
  }

  lemma CallWaitTidy(s: State, m: Move)
    requires (m.CallWait? || m.CallEpWait? || m.CallEpWake?) && HoldsOk(s, m.i)
    ensures Tidy(s, Step(s, m), m.i)
  {
  }

  lemma OwnerGo(s: State, i: nat, choice: bool)
    requires Inv(s) && OwnerOk(s) && i < |s.thr|
    ensures OwnerOk(DoGo(s, i, choice))
  {
    InvHolds(s, i);
    GoTidy(s, i, choice);
    TidyKeeps(s, DoGo(s, i, choice), i);
  }

  lemma OwnerEvent(s: State, m: Move)
    requires !m.Go? && !m.TaskletStep? && !m.OtherAttach? && !m.OtherFree?
    requires Inv(s) && OwnerOk(s) && m.i < |s.thr|
    ensures OwnerOk(Step(s, m))
  {
    InvHolds(s, m.i);
    if m.FireStep? || m.SetState? || m.Sleep? || m.Wake? || m.Enqueue? || m.Migrate? { SchedulingTidy(s, m); }
    else if m.CallDissoc? || m.CallSetCv? || m.CallAttach? || m.CallDetach? { CallTidy(s, m); }
    else if m.CallWait? || m.CallEpWait? || m.CallEpWake? { CallWaitTidy(s, m); }
    else { EntryTidy(s, m); }
    TidyKeeps(s, Step(s, m), m.i);
  }

  lemma OwnerTasklet(s: State)
    requires Inv(s) && OwnerOk(s)
    ensures OwnerOk(DoTasklet(s))
  {
    TaskletTidy(s);
  }

  lemma OwnerForeign(s: State, m: Move)
    requires OwnerOk(s) && (m.OtherAttach? || m.OtherFree?)
    ensures OwnerOk(Step(s, m))
  {
  }

  lemma NoSuchTask(s: State, m: Move)
    requires !m.TaskletStep? && !m.OtherAttach? && !m.OtherFree? && m.i >= |s.thr|
    ensures Step(s, m) == s
  {
  }

  lemma OwnerStep(s: State, m: Move)
    requires Inv(s) && OwnerOk(s)
    ensures OwnerOk(Step(s, m))
  {
    if m.TaskletStep? { OwnerTasklet(s); }
    else if m.OtherAttach? || m.OtherFree? { OwnerForeign(s, m); }
    else if m.i >= |s.thr| { NoSuchTask(s, m); }
    else if m.Go? { OwnerGo(s, m.i, m.choice); }
    else { OwnerEvent(s, m); }
  }

  lemma {:induction false} OwnerRun(s: State, ms: seq<Move>)
    requires Inv(s) && OwnerOk(s)
    ensures OwnerOk(Run(s, ms))
    decreases |ms|
  {
    if ms != [] {
      OwnerStep(s, ms[0]);
      StepKeeps(s, ms[0]);
      OwnerRun(Step(s, ms[0]), ms[1..]);
    }
  }

  lemma ReachableOwner(s: State)
    requires Reachable(s)
    ensures Inv(s) && OwnerOk(s)
  {
    ReachableInv(s);
    var n: nat, e: nat, a: nat, limit: nat, ms: seq<Move> :| s == Run(Init(n, e, a, limit), ms);
    InitInv(n, e, a, limit);
    OwnerRun(Init(n, e, a, limit), ms);
  }

  // ---- how far the next wakeup is ------------------------------------------------------------------

  /** There is an opening, and a task asleep on the group's own queue could use it. */
  ghost predicate Needy(s: State) { s.g.lockp == 0 && s.g.available >= 1 && LocalSleeper(s) }

  /** Steps until the holder of lock 0 has given it back. */
  function HolderRank(t: Thread): nat {
    match t.pc
    case CvWrite(_, _) => 4
    case CvAdd(_, _) => 3
    case CvUnlock(_) => if t.fire.NoFire? then 1 else 2
    case WCheck(_) => 3
    case WAdd(_) => 2
    case WUnlock(_) => 1
    case WDrop(_) => 1
    case WRm => 1
    case _ => 0
  }

  function LockRank(s: State): nat {
    if Lk(s, 0).Thr? && Lk(s, 0).i < |s.thr| then HolderRank(s.thr[Lk(s, 0).i]) else 0
  }

  /** Steps until whoever claims tasklet_active has scheduled the tasklet. */
  function Stage(t: Thread): int {
    if t.fire.GotRef? then 1 else if t.fire.GotCas? then 2
    else if t.pc.UnloClear? then 4 else if t.pc.AtObjUnlock? then 5 else 0
  }

  function Stages(s: State): int { Sum(s.thr, Stage) }

  /** A bound on the number of helpful steps until a sleeper is woken. */
  function Rank(s: State): int {
    match s.g.tl
    case TlNone => if s.g.sched then 20 + LockRank(s) else if s.g.active then 40 + Stages(s) else 43
    case TlLock(p) => (if p < MAX_PASSES then 10 else 110) + LockRank(s)
    case TlAct(p, _) => if p < MAX_PASSES then 9 else 109
    case TlQueue(p, _) => if p < MAX_PASSES then 3 else 108
    case TlAvail(_, _) => 2
    case TlWake(_, _) => 1
    case TlResched(_) => 107
    case TlUnlock(_, unref) => if unref then 60 else 106
    case TlUnref => 59
    case TlClearRe(_, _) => 300
    case TlUnlockRe(_, _) => 299
    case TlRecheck(_) => 298
    case TlReCas(_) => 297
    case _ => 0
  }

  /** The step brings the wakeup closer: it wakes somebody, or nobody needs waking any more, or the rank falls. */
  ghost predicate Closer(s: State, s': State) {
    && s'.g.lockp == s.g.lockp
    && (s'.g.nWaked > s.g.nWaked || !Needy(s') || (s'.g.nWaked == s.g.nWaked && 0 <= Rank(s') < Rank(s)))
  }

  lemma NeedyShape(s: State)
    requires Inv(s) && Needy(s)
    ensures s.g.attached.Aio? && MarkOf(s, s.g.attached).Bound? && s.g.wqp == 0 && s.g.action.WakeAll? && Q(s, 0) != []
  {
    var j :| j in Q(s, 0) && j < |s.thr| && s.thr[j].st.Sleeping?;
    WaiterIsLocal(s, j);
    assert QueueOk(s.thr, s.queues[0], 0);
    assert ThreadOk(s, j);
    assert InWait(s, s.thr[j]);
  }

  lemma {:induction false} StagesBound(thr: seq<Thread>)
    ensures 0 <= Sum(thr, Stage) <= 5 * Sum(thr, Tok)
  {
    if thr != [] { StagesBound(thr[1..]); }
  }

  /** With an opening and a sleeper the tasklet is at none of the places that give up. */
  lemma RankPositive(s: State)
    requires Inv(s) && Needy(s)
    ensures 1 <= Rank(s) <= 300 && !s.g.tl.TlClear? && !s.g.tl.TlOne? && !s.g.tl.TlOneWake?
  {
    NeedyShape(s);
    TokBounds(s);
    StagesBound(s.thr);
  }

  // ---- the tasklet's own steps ----------------------------------------------------------------------

  lemma WakeIsCloser(s: State)
    requires Inv(s) && Needy(s) && s.g.tl.TlWake?
    ensures DoTasklet(s).g.nWaked == s.g.nWaked + 1 && DoTasklet(s).g.lockp == s.g.lockp
  {
    NeedyShape(s);
    FirstIsAsleep(s.thr, Q(s, 0));
  }

  /** The walk to the wakeup, and the way out that checks once more. */
  lemma WalkIsCloser(s: State)
    requires Inv(s) && Needy(s) && Rank(s) >= 1
    requires s.g.tl.TlAct? || s.g.tl.TlQueue? || s.g.tl.TlAvail? || s.g.tl.TlResched? || s.g.tl.TlClearRe?
    ensures Closer(s, DoTasklet(s))
  {
    NeedyShape(s);
  }

  lemma UnlockIsCloser(s: State)
    requires Inv(s) && Needy(s) && (s.g.tl.TlUnlock? || s.g.tl.TlUnlockRe? || s.g.tl.TlUnref?)
    ensures Closer(s, DoTasklet(s))
  {
    TokBounds(s);
    StagesBound(s.thr);
  }

  lemma RecheckIsCloser(s: State)
    requires Inv(s) && Needy(s) && (s.g.tl.TlRecheck? || s.g.tl.TlReCas?)
    ensures Closer(s, DoTasklet(s))
  {
  }

  lemma LockIsCloser(s: State)
    requires Inv(s) && Needy(s)
    requires (s.g.tl.TlNone? && s.g.sched) || (s.g.tl.TlLock? && Lk(s, 0).Nobody?)
    ensures Closer(s, DoTasklet(s))
  {
  }

  // ---- the holder of the lock -----------------------------------------------------------------------

  lemma HolderKnown(s: State, j: nat)
    requires Inv(s) && Needy(s) && j < |s.thr| && LockOf(s.thr[j].pc) == 0
    ensures HolderRank(s.thr[j]) >= 1 && !s.thr[j].rq.OffRq?
  {
    NeedyShape(s);
    assert ThreadOk(s, j);
    HolderPc(s, j, s.thr[j]);
  }

  lemma HolderPc(s: State, j: nat, t: Thread)
    requires PcOk(s, j, t) && LockOf(t.pc) == 0 && (!t.use.NoObj? ==> Alive(MarkOf(s, t.use)))
    requires s.g.attached.Aio? && MarkOf(s, s.g.attached).Bound?
    ensures HolderRank(t) >= 1
  {
  }

  /** Each step of the holder leads towards the unlock. */
  lemma HolderSteps(s: State, j: nat)
    requires j < |s.thr| && Exec(s.thr[j]) && HolderRank(s.thr[j]) >= 1 && Lk(s, 0) == Thr(j)
    requires s.g.lockp == 0 && s.g.wqp == 0 && |s.locks| >= 1
    ensures var s' := DoGo(s, j, false);
            && s'.g.tl == s.g.tl && s'.g.nWaked == s.g.nWaked && s'.g.lockp == s.g.lockp
            && LockRank(s') < LockRank(s)
  {
    var pc := s.thr[j].pc;
    if pc.CvWrite? || pc.CvAdd? || pc.CvUnlock? { SetCvSteps(s, j); } else { WaitSteps(s, j); }
  }

  lemma SetCvSteps(s: State, j: nat)
    requires j < |s.thr| && Exec(s.thr[j]) && Lk(s, 0) == Thr(j) && s.g.lockp == 0 && |s.locks| >= 1
    requires s.thr[j].pc.CvWrite? || s.thr[j].pc.CvAdd? || s.thr[j].pc.CvUnlock?
    ensures var s' := GoSetCv(s, j);
            && s'.g.tl == s.g.tl && s'.g.nWaked == s.g.nWaked && s'.g.lockp == s.g.lockp
            && LockRank(s') < LockRank(s)
  {
  }

  lemma WaitSteps(s: State, j: nat)
    requires j < |s.thr| && Exec(s.thr[j]) && Lk(s, 0) == Thr(j) && s.g.lockp == 0 && |s.locks| >= 1
    requires var pc := s.thr[j].pc; pc.WCheck? || pc.WAdd? || pc.WUnlock? || pc.WDrop? || pc.WRm?
    ensures var s' := GoWait(s, j, false);
            && s'.g.tl == s.g.tl && s'.g.nWaked == s.g.nWaked && s'.g.lockp == s.g.lockp
            && LockRank(s') < LockRank(s)
  {
  }

  lemma HolderIsCloser(s: State) returns (m: Move)
    requires Inv(s) && OwnerOk(s) && Needy(s) && s.g.tl.TlLock? && !Lk(s, 0).Nobody?
    ensures Helper(s, m) && Closer(s, Step(s, m))
  {
    NeedyShape(s);
    var j := Lk(s, 0).i;
    HolderKnown(s, j);
    assert ThreadOk(s, j);
    if s.thr[j].fire.NoFire? {
      m := Go(j, false);
      HolderSteps(s, j);
      StepIsGo(s, j);
    } else {
      m := FireStep(j);
      HolderFires(s, j);
      StepIsFire(s, j);
    }
  }

  /** A limit change that crossed while the tasklet owns the flag only looks and goes on. */
  lemma HolderFires(s: State, j: nat)
    requires Inv(s) && s.g.tl.TlLock? && j < |s.thr| && Lk(s, 0) == Thr(j)
    requires !s.thr[j].fire.NoFire? && s.thr[j].pc.CvUnlock?
    ensures Closer(s, DoFire(s, j))
  {
    TokBounds(s);
  }

  // ---- the claimant of the flag -----------------------------------------------------------------------

  lemma ClaimantKnown(s: State, i: nat)
    requires Inv(s) && Needy(s) && i < |s.thr| && Tok(s.thr[i]) >= 1
    ensures Stage(s.thr[i]) >= 1
    ensures s.thr[i].fire.GotCas? || s.thr[i].fire.GotRef? || Exec(s.thr[i])
  {
    NeedyShape(s);
    assert ThreadOk(s, i);
  }

  lemma FirerSteps(s: State, i: nat)
    requires Inv(s) && s.g.tl.TlNone? && !s.g.sched && i < |s.thr| && (s.thr[i].fire.GotCas? || s.thr[i].fire.GotRef?)
    ensures Closer(s, DoFire(s, i))
  {
    Claimed(s, i);
    StagesBound(s.thr);
    SumAtLeastStage(s, i);
    SumUpdate(s.thr, i, DoFire(s, i).thr[i], Stage);
  }

  lemma SumAtLeastStage(s: State, i: nat)
    requires i < |s.thr|
    ensures Stage(s.thr[i]) <= Stages(s)
  {
    SumAtLeast(s.thr, i, Stage);
  }

  lemma UnlockerSteps(s: State, i: nat)
    requires Inv(s) && s.g.tl.TlNone? && !s.g.sched && i < |s.thr| && s.thr[i].fire.NoFire?
    requires s.thr[i].pc.UnloClear? || s.thr[i].pc.AtObjUnlock?
    ensures s.thr[i].pc.UnloClear? ==> Closer(s, GoLockout(s, i))
    ensures s.thr[i].pc.AtObjUnlock? ==> Closer(s, GoAttach(s, i))
  {
    Claimed(s, i);
    StagesBound(s.thr);
    SumAtLeastStage(s, i);
    if s.thr[i].pc.AtObjUnlock? { SumUpdate(s.thr, i, GoAttach(s, i).thr[i], Stage); }
  }

  lemma CasSteps(s: State, i: nat)
    requires Inv(s) && s.g.tl.TlNone? && !s.g.sched && !s.g.active && i < |s.thr| && s.thr[i].fire.WantCas?
    ensures Closer(s, DoFire(s, i))
  {
    TokBounds(s);
    StagesBound(s.thr);
    SumUpdate(s.thr, i, DoFire(s, i).thr[i], Stage);
  }

  lemma StepIsFire(s: State, i: nat)
    requires i < |s.thr|
    ensures Step(s, FireStep(i)) == DoFire(s, i)
  {
  }

  lemma StepIsUnlock(s: State, i: nat)
    requires i < |s.thr| && Exec(s.thr[i]) && (s.thr[i].pc.UnloClear? || s.thr[i].pc.AtObjUnlock?)
    ensures Step(s, Go(i, false)) == if s.thr[i].pc.UnloClear? then GoLockout(s, i) else GoAttach(s, i)
  {
  }

  lemma StepIsGo(s: State, i: nat)
    requires i < |s.thr|
    ensures Step(s, Go(i, false)) == DoGo(s, i, false)
  {
  }

  lemma ClaimantIsCloser(s: State) returns (m: Move)
    requires Inv(s) && Needy(s) && s.g.tl.TlNone? && !s.g.sched
    ensures Helper(s, m) && Closer(s, Step(s, m))
  {
    if s.g.active {
      SomeTok(s.thr);
      var i :| 0 <= i < |s.thr| && Tok(s.thr[i]) >= 1;
      ClaimantKnown(s, i);
      if s.thr[i].fire.GotCas? || s.thr[i].fire.GotRef? {
        m := FireStep(i);
        FirerSteps(s, i);
        StepIsFire(s, i);
      } else {
        m := Go(i, false);
        UnlockerSteps(s, i);
        StepIsUnlock(s, i);
      }
    } else {
      var i :| 0 <= i < |s.thr| && s.thr[i].fire.WantCas?;
      m := FireStep(i);
      CasSteps(s, i);
      StepIsFire(s, i);
    }
  }

  // ---- delivery -----------------------------------------------------------------------------------

  /** The tasklet, a task inside fire_tasklet, the holder of the lock, or whoever claims the flag. */
  ghost predicate Helper(s: State, m: Move) {
    || m.TaskletStep?
    || (m.FireStep? && m.i < |s.thr| && !s.thr[m.i].fire.NoFire?)
    || (m.Go? && m.i < |s.thr| && (Lk(s, 0) == Thr(m.i) || Tok(s.thr[m.i]) >= 1))
  }

  ghost predicate OnlyHelpers(s: State, ms: seq<Move>)
    decreases |ms|
  {
    ms != [] ==> Helper(s, ms[0]) && OnlyHelpers(Step(s, ms[0]), ms[1..])
  }

  lemma TaskletIsCloser(s: State)
    requires Inv(s) && Needy(s) && !(s.g.tl.TlNone? && !s.g.sched) && !(s.g.tl.TlLock? && !Lk(s, 0).Nobody?)
    ensures Closer(s, DoTasklet(s))
  {
    RankPositive(s);
    match s.g.tl {
      case TlWake(_, _) => WakeIsCloser(s);
      case TlNone => LockIsCloser(s);
      case TlLock(_) => LockIsCloser(s);
      case TlUnlock(_, _) => UnlockIsCloser(s);
      case TlUnlockRe(_, _) => UnlockIsCloser(s);
      case TlUnref => UnlockIsCloser(s);
      case TlRecheck(_) => RecheckIsCloser(s);
      case TlReCas(_) => RecheckIsCloser(s);
      case _ => WalkIsCloser(s);
    }
  }

  lemma HelpfulStep(s: State) returns (m: Move)
    requires Inv(s) && OwnerOk(s) && Needy(s)
    ensures Helper(s, m) && Closer(s, Step(s, m))
  {
    if s.g.tl.TlNone? && !s.g.sched { m := ClaimantIsCloser(s); }
    else if s.g.tl.TlLock? && !Lk(s, 0).Nobody? { m := HolderIsCloser(s); }
    else { m := TaskletStep; TaskletIsCloser(s); }
  }

  lemma {:induction false} Delivery(s: State) returns (ms: seq<Move>)
    requires Inv(s) && OwnerOk(s) && Needy(s)
    ensures |ms| <= Rank(s) && OnlyHelpers(s, ms)
    ensures Run(s, ms).g.lockp == 0 && (Run(s, ms).g.nWaked > s.g.nWaked || !Needy(Run(s, ms)))
    decreases Rank(s)
  {
    RankPositive(s);
    var m := HelpfulStep(s);
    var s' := Step(s, m);
    StepKeeps(s, m);
    OwnerStep(s, m);
    if s'.g.nWaked > s.g.nWaked || !Needy(s') {
      ms := [m];
      assert Run(s, ms) == Run(s', []);
    } else {
      var rest := Delivery(s');
      ms := [m] + rest;
      assert ms[1..] == rest;
    }
  }

  /**
    From every reachable state with an opening and a sleeper on the group's own queue, at most 300 steps of the
    tasklet, the claimant of its flag and the holder of the lock wake a sleeper, unless the opening or the
    last sleeper is gone by then.
  */
  lemma WakeupDelivered(s: State) returns (ms: seq<Move>)
    requires Reachable(s) && s.g.lockp == 0 && s.g.available >= 1 && LocalSleeper(s)
    ensures |ms| <= 300 && OnlyHelpers(s, ms)
    ensures var s' := Run(s, ms); s'.g.nWaked > s.g.nWaked || s'.g.available < 1 || !LocalSleeper(s')
  {
    ReachableOwner(s);
    RankPositive(s);
    ms := Delivery(s);
  }
}
