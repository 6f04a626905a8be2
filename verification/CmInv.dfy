/** The inductive invariant of the group machine: who holds what, and which wakeups are owed. */
module CmInv {
  import opened CmModel
  import opened SeqSums

  // ---- what a program counter holds ---------------------------------------------------------

  /** Index of the spinlock held at a program counter, or -1. */
  function LockOf(pc: Pc): int {
    match pc
    case CvWrite(_, l) => l case CvAdd(_, l) => l case CvUnlock(l) => l
    case AtSet(o) => if o.Ep? then o.e else -1
    case AtObjUnlock(o, _) => if o.Ep? then o.e else -1
    case LoUnlock(_, l) => l
    case DtQueue(_, l) => l case DtUnlock(_, l, _) => l
    case WCheck(l) => l case WAdd(l) => l case WUnlock(l) => l case WDrop(l) => l case WRm => 0
    case EkCheck(e) => e case EkReq(e) => e case EkWake(e) => e case EkUnlock(e) => e
    case EcAdd(e, _) => e case EcCheck(e) => e case EcReq(e) => e case EcUnlock(e, _) => e
    case EcNeutral(e) => e case EcOut(e) => e
    case _ => -1
  }

  function TlLockOf(tl: TlPc): int {
    match tl
    case TlAct(_, l) => l case TlOne(_, l) => l case TlOneWake(l) => l case TlQueue(_, l) => l
    case TlResched(l) => l case TlAvail(_, l) => l case TlWake(_, l) => l case TlClearRe(_, l) => l
    case TlUnlockRe(_, l) => l case TlClear(l) => l case TlUnlock(l, _) => l
    case _ => -1
  }

  /** `attached_mtx` is held. */
  predicate HoldsMtx(pc: Pc) {
    pc.CvLock? || pc.CvWrite? || pc.CvAdd? || pc.CvUnlock? || pc.CvMtxPut?
    || pc.AtCheck? || pc.AtMtxPut? || pc.AtObjLock? || pc.AtSet? || pc.AtObjUnlock?
    || pc.LoCas? || pc.LoLock? || pc.LoUnlock? || pc.UnloClear? || pc.LoMtxPut?
    || pc.DtLock? || pc.DtQueue? || pc.DtUnlock? || pc.DtSet?
  }

  /** The tasklet is locked out by the thread here. */
  predicate LockedOut(pc: Pc) {
    pc.LoLock? || pc.LoUnlock? || pc.AtObjLock? || pc.AtSet? || pc.AtObjUnlock? || pc.DtSet? || pc.UnloClear?
  }

  /** A running tasklet that still owns `tasklet_active`. */
  predicate TlOwns(tl: TlPc) {
    tl.TlLock? || tl.TlAct? || tl.TlOne? || tl.TlOneWake? || tl.TlQueue? || tl.TlResched? || tl.TlAvail?
    || tl.TlWake? || tl.TlClearRe? || tl.TlClear?
  }

  /** A tasklet that no longer needs `lock` or `wq`. */
  predicate Quiet(tl: TlPc) { tl.TlNone? || tl.TlRecheck? || tl.TlReCas? || tl.TlUnref? }

  // ---- weights that are conserved -----------------------------------------------------------

  function B(b: bool): int { if b then 1 else 0 }

  /** Claims on `tasklet_active` held by a task. */
  function Tok(t: Thread): int { B(LockedOut(t.pc)) + B(t.fire.GotCas? || t.fire.GotRef?) }

  /** References owned by the call a task is executing. */
  function CallRef(pc: Pc): int {
    match pc
    case PutCall => 1 case AsEnter => 1 case AsSet => 1
    case CvMtx(_) => 1 case CvLock(_) => 1 case CvWrite(_, _) => 1
    case CvAdd(_, _) => 1 case CvUnlock(_) => 1 case CvMtxPut => 1
    case AtMtx(_) => 1 case AtCheck(_) => 1 case AtMtxPut => 1 case AtObjLock(_) => 1 case AtSet(_) => 1
    case AtObjUnlock(_, ok) => B(!ok)
    case LoCas(k) => B(k.Attaching?) case LoLock(k) => B(k.Attaching?) case LoUnlock(k, _) => B(k.Attaching?)
    case UnloClear(k) => B(!k.Attached?) case LoMtxPut(k) => B(!k.Attached?)
    case DtPut(_) => 1
    case _ => 0
  }

  /** References owned through a task: its association, its call, and one not yet handed to the tasklet. */
  function RefOf(t: Thread): int { B(t.assoc.This?) + CallRef(t.pc) + B(t.fire.GotRef?) }

  function TlRef(tl: TlPc): int { B(!tl.TlNone? && !(tl.TlUnlock? && !tl.unref)) }

  /** Charged to the group. */
  function Chg(t: Thread): int { B(t.assoc.This? && t.charged) }

  /** A limit change written to `concurrency_value` but not yet added to `available`. */
  function Pend(t: Thread): int { if t.pc.CvAdd? then t.pc.d else 0 }

  function Refs(s: State): int {
    B(s.g.file) + B(!s.g.attached.NoObj?) + B(s.g.sched) + TlRef(s.g.tl) + Sum(s.thr, RefOf)
  }

  // ---- the invariant ------------------------------------------------------------------------

  /** What a lockout in progress knows about its object. */
  ghost predicate LoOk(s: State, i: nat, use: Obj, k: Reason) {
    match k
    case Attaching(o) => use == o && !o.NoObj? && s.g.attached.NoObj?
    case Detaching(o) => s.g.attached == o && MarkOf(s, o) == Dying(i)
    case _ => false
  }

  ghost predicate Unlocking(s: State, i: nat, k: Reason) {
    match k
    case Attaching(_) => false
    case Attached => !s.g.attached.NoObj?
    case Refused => true
    case Detaching(o) => MarkOf(s, o) == Dying(i) && s.g.attached != o
  }

  ghost predicate PcOk(s: State, i: nat, t: Thread) {
    match t.pc
    case CvWrite(_, l) => l == s.g.lockp case CvAdd(_, l) => l == s.g.lockp case CvUnlock(l) => l == s.g.lockp
    case AtMtx(o) => t.use == o && !o.NoObj? case AtCheck(o) => t.use == o && !o.NoObj?
    case AtObjLock(o) => LoOk(s, i, t.use, Attaching(o)) && Quiet(s.g.tl)
    case AtSet(o) => LoOk(s, i, t.use, Attaching(o)) && Quiet(s.g.tl)
    case AtObjUnlock(o, ok) => t.use == o && (ok ==> s.g.attached == o && !o.NoObj?)
    case LoCas(k) => LoOk(s, i, t.use, k) case LoLock(k) => LoOk(s, i, t.use, k)
    case LoUnlock(k, l) => LoOk(s, i, t.use, k) && l == s.g.lockp
    case UnloClear(k) => Unlocking(s, i, k) case LoMtxPut(k) => Unlocking(s, i, k)
    case DtMtx(o) => LoOk(s, i, t.use, Detaching(o)) case DtLock(o) => LoOk(s, i, t.use, Detaching(o))
    case DtQueue(o, l) => LoOk(s, i, t.use, Detaching(o)) && l == s.g.lockp
    case DtUnlock(o, l, _) => LoOk(s, i, t.use, Detaching(o)) && l == s.g.lockp
    case DtSet(o) => LoOk(s, i, t.use, Detaching(o)) && Quiet(s.g.tl)
    case DtPut(o) => Unlocking(s, i, Detaching(o))
    case WTop => InWait(s, t) case WLock => InWait(s, t) case WSleep => InWait(s, t) case WFinish => InWait(s, t)
    case WRmLock => InWait(s, t) case WRm => InWait(s, t)
    case WCheck(l) => InWait(s, t) && l == 0 case WAdd(l) => InWait(s, t) && l == 0
    case WUnlock(l) => InWait(s, t) && l == 0 case WDrop(l) => InWait(s, t) && l == 0
    case EkLock(e) => t.use == Ep(e) case EkCheck(e) => t.use == Ep(e) case EkWake(e) => t.use == Ep(e)
    case EkUnlock(e) => t.use == Ep(e) case EkReq(e) => InEpoll(s, t, e)
    case EcLock(e, cm) => t.use == Ep(e) && (cm ==> InEpoll(s, t, e))
    case EcAdd(e, cm) => t.use == Ep(e) && (cm ==> InEpoll(s, t, e))
    case EcUnlock(e, cm) => t.use == Ep(e) && (cm ==> InEpoll(s, t, e))
    case EcSleep(e, cm) => t.use == Ep(e) && (cm ==> InEpoll(s, t, e))
    case EcRelock(e, cm) => t.use == Ep(e) && (cm ==> InEpoll(s, t, e))
    case EcCheck(e) => InEpoll(s, t, e) case EcReq(e) => InEpoll(s, t, e) case EcNeutral(e) => InEpoll(s, t, e)
    case EcOut(e) => t.use == Ep(e)
    case _ => true
  }

  /** A task inside cmgroup_wait uses an AIO context bound to this group. */
  ghost predicate InWait(s: State, t: Thread) { t.use.Aio? && MarkOf(s, t.use).Bound? }

  /** A task asking for a wakeup on an epoll object uses one bound to this group. */
  ghost predicate InEpoll(s: State, t: Thread, e: nat) { t.use == Ep(e) && MarkOf(s, t.use).Bound? }

  ghost predicate ThreadOk(s: State, i: nat)
    requires i < |s.thr|
  {
    var t := s.thr[i];
    && (LockOf(t.pc) >= 0 ==> Lk(s, LockOf(t.pc)) == Thr(i))
    && (HoldsMtx(t.pc) ==> s.g.mtx == Thr(i))
    && (t.rq.OffRq? ==> Blockable(t.pc) || t.pc.WSleep? || t.pc.EcSleep?)
    && (!t.fire.NoFire? ==> (t.rq.OffRq? && t.assoc.This?) || t.pc.DsClear? || t.pc.CvUnlock? || t.pc.LoMtxPut?)
    && (t.assoc.This? ==> (t.charged <==> !t.rq.OffRq? && !t.pc.AsCharge? && !t.pc.DsClear?))
    && (t.pc.AsSet? ==> !t.assoc.This?)
    && (t.pc.AsCharge? || t.pc.DsClear? ==> t.assoc.This?)
    && (!t.use.NoObj? ==> Alive(MarkOf(s, t.use)))
    && PcOk(s, i, t)
  }

  ghost predicate ThreadsOk(s: State) { forall i :: 0 <= i < |s.thr| ==> ThreadOk(s, i) }

  /** Pointers follow the attachment, and the attachment matches the objects one to one. */
  ghost predicate Shape(s: State) {
    && |s.locks| == |s.queues| == |s.eps| && |s.eps| >= 1
    && s.g.lockp == s.g.wqp == RemoteOf(s.g.attached)
    && s.g.lockp < |s.locks|
    && (s.g.lockp == 0 ==> s.g.action.WakeAll?)
    && (!s.g.attached.NoObj? ==> MarkOf(s, s.g.attached).Bound? || MarkOf(s, s.g.attached).Dying?)
    && (forall o :: MarkOf(s, o).Bound? ==> s.g.attached == o)
  }

  predicate QueuedAt(pc: Pc, l: nat) {
    if l == 0 then pc.WUnlock? || pc.WSleep? || pc.WFinish? || pc.WRmLock? || pc.WRm?
    else pc == EcCheck(l) || pc == EcReq(l) || (pc.EcUnlock? && pc.e == l) || (pc.EcSleep? && pc.e == l)
         || (pc.EcRelock? && pc.e == l) || pc == EcNeutral(l) || pc == EcOut(l)
  }

  ghost predicate QueueOk(thr: seq<Thread>, q: seq<nat>, l: nat) {
    forall j :: j in q ==> j < |thr| && QueuedAt(thr[j].pc, l)
  }

  ghost predicate QueuesOk(s: State) { forall l :: 0 <= l < |s.queues| ==> QueueOk(s.thr, s.queues[l], l) }

  /** Some task queued on the group's own wait queue is asleep. */
  ghost predicate LocalSleeper(s: State) {
    exists j :: j in Q(s, 0) && j < |s.thr| && s.thr[j].st.Sleeping?
  }

  ghost predicate TaskletOk(s: State) {
    && (TlLockOf(s.g.tl) >= 0 ==> TlLockOf(s.g.tl) == s.g.lockp && Lk(s, s.g.lockp).Softirq?)
    && (s.g.tl.TlClear? ==> !s.g.action.ResetWakeOne? && (s.g.lockp == 0 ==> !LocalSleeper(s)))
    && (s.g.tl.TlUnlock? && !s.g.tl.unref ==> s.g.sched)
    && (s.g.tl.TlOne? ==> s.g.action.ResetWakeOne?)
    && (s.g.tl.TlOneWake? ==> s.g.action.Neutral?)
    && (s.g.tl.TlQueue? || s.g.tl.TlAvail? || s.g.tl.TlWake? ==> s.g.action.WakeAll?)
  }

  /** `tasklet_active` is claimed exactly once while set, and not at all while clear. */
  ghost predicate TokenOk(s: State) { TlTok(s) + Sum(s.thr, Tok) == B(s.g.active) }

  function TlTok(s: State): int { B(TlOwns(s.g.tl)) + B(s.g.sched) }

  ghost predicate RefOk(s: State) { s.g.kref == Refs(s) }

  ghost predicate AccOk(s: State) { s.g.available == s.g.cv - Sum(s.thr, Chg) - Sum(s.thr, Pend) }

  ghost predicate SomeFiring(thr: seq<Thread>) { exists i :: 0 <= i < |thr| && thr[i].fire.WantCas? }

  /** A tasklet run that will look at the group again is in flight or about to be started. */
  ghost predicate Owed(s: State) {
    s.g.active || SomeFiring(s.thr) || s.g.tl.TlUnlockRe? || s.g.tl.TlRecheck? || s.g.tl.TlReCas?
  }

  /** A task that has decided, under the lock, to queue itself or to request a wakeup. */
  ghost predicate Deciding(thr: seq<Thread>) {
    exists i :: 0 <= i < |thr| && (thr[i].pc.WAdd? || thr[i].pc.EkReq? || thr[i].pc.EcReq?)
  }

  /** Somebody relies on the tasklet when an opening appears. */
  ghost predicate Needed(s: State) {
    (s.g.lockp == 0 && LocalSleeper(s)) || s.g.action.ResetWakeOne? || Deciding(s.thr)
  }

  ghost predicate WakeupOk(s: State) { s.g.available >= 1 && Needed(s) ==> Owed(s) }

  ghost predicate Inv(s: State) {
    Shape(s) && ThreadsOk(s) && QueuesOk(s) && TaskletOk(s) && TokenOk(s) && RefOk(s) && AccOk(s) && WakeupOk(s)
  }

  lemma InitInv(nThreads: nat, nEps: nat, nAios: nat, limit: nat)
    ensures Inv(Init(nThreads, nEps, nAios, limit))
  {
    var s := Init(nThreads, nEps, nAios, limit);
    ZeroSum(s.thr, Tok); ZeroSum(s.thr, RefOf); ZeroSum(s.thr, Chg); ZeroSum(s.thr, Pend);
  }

  lemma {:induction false} ZeroSum(thr: seq<Thread>, f: Thread -> int)
    requires forall k :: 0 <= k < |thr| ==> f(thr[k]) == 0
    ensures Sum(thr, f) == 0
  {
    if thr != [] { ZeroSum(thr[1..], f); }
  }
}
