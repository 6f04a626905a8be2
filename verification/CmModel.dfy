/**
  Concurrency management groups (fs/cmgroup.c, include/linux/cmgroup.h) as an interleaving
  machine: any number of tasks, one group, its tasklet, and any number of epoll and AIO objects.

  Every atomic operation, lock acquisition and pointer update of the group functions is one step.
  Locks and wait queues are indexed: 0 is the group's own `__wq.lock` / `__wq`, and index e >= 1
  is `ep->lock` / `ep->wq` of epoll object e, so `lockp` and `wqp` are the pointers
  `cmgroup->lock` and `cmgroup->wq`. Other groups appear only as the environment.
*/
module CmModel {
  import opened Lists

  datatype Action = Neutral | WakeAll | ResetWakeOne

  /** `p->state`: TASK_RUNNING or one of the sleeping states. */
  datatype TaskState = Running | Sleeping

  /** Run-queue membership; Migrating is the gap inside a NOCMGROUP dequeue/enqueue pair. */
  datatype RunQueue = OnRq | Migrating | OffRq

  /** Progress through `fire_tasklet`: before the CAS, after winning it, after taking the reference. */
  datatype Fire = NoFire | WantCas | GotCas | GotRef

  /** `task->cmgroup`, as this group sees it. */
  datatype Assoc = NoAssoc | This | Other

  datatype Obj = NoObj | Ep(e: nat) | Aio(a: nat)

  /** The `cmgroup` field of an epoll or AIO object, and the object's own life. */
  datatype Mark = Unbound | Bound | Foreign | Dying(who: nat) | Freed

  datatype Owner = Nobody | Thr(i: nat) | Softirq

  /** Why the tasklet is locked out, or what the lockout led to. */
  datatype Reason = Attaching(o: Obj) | Attached | Refused | Detaching(o: Obj)

  /** Program counters. A field `l` remembers which lock was taken. */
  datatype Pc =
    | Idle
    | PutCall
    // cmgroup_associate, cmgroup_dissociate
    | AsEnter | AsSet | AsCharge | DsClear
    // cmgroup_set_concurrency_value
    | CvMtx(n: int) | CvLock(n: int) | CvWrite(n: int, l: nat) | CvAdd(d: int, l: nat) | CvUnlock(l: nat) | CvMtxPut
    // ep_attach_cmgroup, io_set_cmgroup
    | AtMtx(o: Obj) | AtCheck(o: Obj) | AtMtxPut | AtObjLock(o: Obj) | AtSet(o: Obj) | AtObjUnlock(o: Obj, ok: bool)
    // cmgroup_lockout_tasklet, cmgroup_unlockout_tasklet
    | LoCas(k: Reason) | LoLock(k: Reason) | LoUnlock(k: Reason, l: nat) | UnloClear(k: Reason) | LoMtxPut(k: Reason)
    // cmgroup_detach
    | DtMtx(o: Obj) | DtLock(o: Obj) | DtQueue(o: Obj, l: nat) | DtUnlock(o: Obj, l: nat, again: bool)
    | DtSet(o: Obj) | DtPut(o: Obj)
    // cmgroup_wait, __cmgroup_wait
    | WTop | WLock | WCheck(l: nat) | WAdd(l: nat) | WUnlock(l: nat) | WDrop(l: nat) | WSleep | WFinish | WRmLock | WRm
    // ep_wake_wq
    | EkLock(e: nat) | EkCheck(e: nat) | EkReq(e: nat) | EkWake(e: nat) | EkUnlock(e: nat)
    // ep_poll's event wait (cm false) and ep_cmgroup_wait_available (cm true)
    | EcLock(e: nat, cm: bool) | EcAdd(e: nat, cm: bool) | EcCheck(e: nat) | EcReq(e: nat) | EcUnlock(e: nat, cm: bool)
    | EcSleep(e: nat, cm: bool) | EcRelock(e: nat, cm: bool) | EcNeutral(e: nat) | EcOut(e: nat)

  /** Program counters of `cmgroup_tasklet`. */
  datatype TlPc =
    | TlNone
    | TlLock(pass: nat) | TlAct(pass: nat, l: nat)
    | TlOne(pass: nat, l: nat) | TlOneWake(l: nat)
    | TlQueue(pass: nat, l: nat) | TlResched(l: nat) | TlAvail(pass: nat, l: nat) | TlWake(pass: nat, l: nat)
    | TlClearRe(pass: nat, l: nat) | TlUnlockRe(pass: nat, l: nat) | TlRecheck(pass: nat) | TlReCas(pass: nat)
    | TlClear(l: nat) | TlUnlock(l: nat, unref: bool) | TlUnref

  datatype Thread = Thread(pc: Pc, st: TaskState, rq: RunQueue, fire: Fire, assoc: Assoc, charged: bool, use: Obj)

  datatype Group = Group(
    kref: int, cv: int, available: int, active: bool, action: Action,
    lockp: nat, wqp: nat, attached: Obj, nWaked: nat,
    sched: bool, tl: TlPc, file: bool, mtx: Owner)

  datatype State = State(
    g: Group, thr: seq<Thread>, locks: seq<Owner>, queues: seq<seq<nat>>, eps: seq<Mark>, aios: seq<Mark>)

  const MAX_CONCURRENCY_VALUE := 1024 * 1024
  const MAX_PASSES := 5

  datatype Move =
    | FireStep(i: nat) | SetState(i: nat) | Sleep(i: nat) | Wake(i: nat) | Enqueue(i: nat) | Migrate(i: nat)
    | TaskletStep
    | CallClose(i: nat) | EnterObj(i: nat, o: Obj) | LeaveObj(i: nat) | OtherGroup(i: nat)
    | OtherAttach(o: Obj) | OtherFree(o: Obj)
    | CallAssoc(i: nat) | CallAssocObj(i: nat) | CallDissoc(i: nat) | CallSetCv(i: nat, n: int)
    | CallAttach(i: nat, o: Obj) | CallDetach(i: nat)
    | CallWait(i: nat) | CallEpWait(i: nat, cm: bool) | CallEpWake(i: nat)
    | Go(i: nat, choice: bool)

  // ---- state access -------------------------------------------------------------------------

  function Lk(s: State, l: nat): Owner { if l < |s.locks| then s.locks[l] else Softirq }

  function SetLk(s: State, l: nat, o: Owner): State {
    if l < |s.locks| then s.(locks := s.locks[l := o]) else s
  }

  function Q(s: State, l: nat): seq<nat> { if l < |s.queues| then s.queues[l] else [] }

  function SetQ(s: State, l: nat, q: seq<nat>): State {
    if l < |s.queues| then s.(queues := s.queues[l := q]) else s
  }

  function MarkOf(s: State, o: Obj): Mark {
    match o
    case NoObj => Freed
    case Ep(e) => if 1 <= e < |s.eps| then s.eps[e] else Freed
    case Aio(a) => if a < |s.aios| then s.aios[a] else Freed
  }

  function SetMark(s: State, o: Obj, m: Mark): State {
    match o
    case NoObj => s
    case Ep(e) => if 1 <= e < |s.eps| then s.(eps := s.eps[e := m]) else s
    case Aio(a) => if a < |s.aios| then s.(aios := s.aios[a := m]) else s
  }

  predicate Alive(m: Mark) { m.Unbound? || m.Bound? || m.Foreign? }

  /** The lock and queue index an attachment selects: remote for epoll, local otherwise. */
  function RemoteOf(o: Obj): nat { if o.Ep? then o.e else 0 }

  function SetPc(s: State, i: nat, pc: Pc): State
    requires i < |s.thr|
  {
    s.(thr := s.thr[i := s.thr[i].(pc := pc)])
  }

  /** A task executes its own code when it is not off the run queue and not inside `fire_tasklet`. */
  predicate Exec(t: Thread) { !t.rq.OffRq? && t.fire.NoFire? }

  /** Places where a task may set its state and call schedule(), apart from the two group waits. */
  predicate Blockable(pc: Pc) {
    pc.Idle? || pc.CvMtx? || pc.AtMtx? || pc.LoCas? || pc.DtMtx? || pc.DtLock?
  }

  // ---- wait queues --------------------------------------------------------------------------

  /** The first task of a queue that try_to_wake_up would accept, or |thr| when there is none. */
  function FirstAsleep(thr: seq<Thread>, q: seq<nat>): nat {
    if q == [] then |thr|
    else if q[0] < |thr| && thr[q[0]].st.Sleeping? then q[0]
    else FirstAsleep(thr, q[1..])
  }

  /** wake_up_locked: one exclusive waiter; on the local queue the entry removes and counts itself. */
  function WakeOne(s: State, q: nat): State {
    var j := FirstAsleep(s.thr, Q(s, q));
    if j >= |s.thr| then s
    else
      var s1 := s.(thr := s.thr[j := s.thr[j].(st := Running)]);
      if q == 0 then SetQ(s1, 0, Without(Q(s1, 0), j)).(g := s1.g.(nWaked := s1.g.nWaked + 1)) else s1
  }

  function WakeAllIn(thr: seq<Thread>, q: seq<nat>): (r: seq<Thread>)
    ensures |r| == |thr|
    decreases |q|
    ensures forall j :: 0 <= j < |thr| ==> r[j] == if j in q then thr[j].(st := Running) else thr[j]
  {
    if q == [] then thr
    else WakeAllIn(if q[0] < |thr| then thr[q[0] := thr[q[0]].(st := Running)] else thr, q[1..])
  }

  /** The waiters of a queue that are already awake; they stay queued after a wake_up_all. */
  function AwakeOf(thr: seq<Thread>, q: seq<nat>): seq<nat> {
    if q == [] then []
    else if q[0] < |thr| && thr[q[0]].st.Sleeping? then AwakeOf(thr, q[1..])
    else [q[0]] + AwakeOf(thr, q[1..])
  }

  /** wake_up_all_locked: every waiter; on the local queue the woken entries remove themselves. */
  function WakeEvery(s: State, q: nat): State {
    var s1 := s.(thr := WakeAllIn(s.thr, Q(s, q)));
    if q == 0 then SetQ(s1, 0, AwakeOf(s.thr, Q(s, 0))) else s1
  }

  // ---- the scheduler hooks and fire_tasklet -------------------------------------------------

  function DoFire(s: State, i: nat): State
    requires i < |s.thr|
  {
    var t := s.thr[i];
    match t.fire
    case NoFire => s
    case WantCas =>
      if s.g.active then s.(thr := s.thr[i := t.(fire := NoFire)])
      else s.(thr := s.thr[i := t.(fire := GotCas)], g := s.g.(active := true))
    case GotCas => s.(thr := s.thr[i := t.(fire := GotRef)], g := s.g.(kref := s.g.kref + 1))
    case GotRef => s.(thr := s.thr[i := t.(fire := NoFire)], g := s.g.(sched := true))
  }

  /** A task about to block, and a wakeup of any origin. */
  function DoSetState(s: State, i: nat): State {
    if i < |s.thr| && Exec(s.thr[i]) && Blockable(s.thr[i].pc) then s.(thr := s.thr[i := s.thr[i].(st := Sleeping)])
    else s
  }

  function DoWake(s: State, i: nat): State {
    if i < |s.thr| then s.(thr := s.thr[i := s.thr[i].(st := Running)]) else s
  }

  /** __schedule takes a task off its run queue; __cmgroup_task_dequeued returns its charge. */
  function DoSleep(s: State, i: nat): State
    requires i < |s.thr|
  {
    var t := s.thr[i];
    if !(t.st.Sleeping? && t.rq.OnRq? && t.fire.NoFire? && (Blockable(t.pc) || t.pc.WSleep? || t.pc.EcSleep?)) then s
    else if t.assoc.This? && t.charged then
      var a := s.g.available + 1;
      s.(thr := s.thr[i := t.(rq := OffRq, charged := false, fire := if a == 1 then WantCas else NoFire)],
         g := s.g.(available := a))
    else s.(thr := s.thr[i := t.(rq := OffRq)])
  }

  /** ttwu_activate puts a woken task on a run queue; __cmgroup_task_enqueued charges it. */
  function DoEnqueue(s: State, i: nat): State
    requires i < |s.thr|
  {
    var t := s.thr[i];
    if !(t.st.Running? && t.rq.OffRq? && t.fire.NoFire?) then s
    else if t.assoc.This? && !t.charged then
      s.(thr := s.thr[i := t.(rq := OnRq, charged := true)], g := s.g.(available := s.g.available - 1))
    else s.(thr := s.thr[i := t.(rq := OnRq)])
  }

  function DoMigrate(s: State, i: nat): State
    requires i < |s.thr|
  {
    var t := s.thr[i];
    match t.rq
    case OffRq => s
    case OnRq => s.(thr := s.thr[i := t.(rq := Migrating)])
    case Migrating => s.(thr := s.thr[i := t.(rq := OnRq)])
  }

  // ---- cmgroup_tasklet ----------------------------------------------------------------------

  function SetTl(s: State, tl: TlPc): State { s.(g := s.g.(tl := tl)) }

  function DoTasklet(s: State): State {
    match s.g.tl
    case TlNone => if s.g.sched then s.(g := s.g.(sched := false, tl := TlLock(0))) else s
    case TlLock(p) =>
      if Lk(s, s.g.lockp).Nobody? then SetTl(SetLk(s, s.g.lockp, Softirq), TlAct(p, s.g.lockp)) else s
    case TlAct(p, l) =>
      (match s.g.action
       case Neutral => SetTl(s, TlClear(l))
       case ResetWakeOne => SetTl(s, TlOne(p, l))
       case WakeAll => SetTl(s, TlQueue(p, l)))
    case TlOne(p, l) =>
      if s.g.available > 0 then s.(g := s.g.(action := Neutral, tl := TlOneWake(l)))
      else SetTl(s, TlClearRe(p, l))
    case TlOneWake(l) => SetTl(WakeOne(s, s.g.wqp), TlClear(l))
    case TlQueue(p, l) =>
      if Q(s, s.g.wqp) == [] then SetTl(s, TlClear(l))
      else if p + 1 > MAX_PASSES then SetTl(s, TlResched(l))
      else SetTl(s, TlAvail(p + 1, l))
    case TlResched(l) => s.(g := s.g.(sched := true, tl := TlUnlock(l, false)))
    case TlAvail(p, l) => if s.g.available > 0 then SetTl(s, TlWake(p, l)) else SetTl(s, TlClearRe(p, l))
    case TlWake(p, l) =>
      var s1 := WakeOne(s, s.g.wqp);
      if s1.g.nWaked == s.g.nWaked then SetTl(s1, TlClear(l)) else SetTl(s1, TlQueue(p, l))
    case TlClearRe(p, l) => s.(g := s.g.(active := false, tl := TlUnlockRe(p, l)))
    case TlUnlockRe(p, l) => SetTl(SetLk(s, s.g.lockp, Nobody), TlRecheck(p))
    case TlRecheck(p) => if s.g.available <= 0 then SetTl(s, TlUnref) else SetTl(s, TlReCas(p))
    case TlReCas(p) =>
      if s.g.active then SetTl(s, TlUnref) else s.(g := s.g.(active := true, tl := TlLock(p)))
    case TlClear(l) => s.(g := s.g.(active := false, tl := TlUnlock(l, true)))
    case TlUnlock(l, unref) => SetTl(SetLk(s, s.g.lockp, Nobody), if unref then TlUnref else TlNone)
    case TlUnref => s.(g := s.g.(kref := s.g.kref - 1, tl := TlNone))
  }

  // ---- starting a call ----------------------------------------------------------------------

  predicate CanCall(s: State, i: nat) {
    i < |s.thr| && Exec(s.thr[i]) && s.thr[i].pc.Idle? && s.thr[i].st.Running?
  }

  /** No task is inside a system call on object o. */
  predicate Unused(s: State, o: Obj) { forall j :: 0 <= j < |s.thr| ==> s.thr[j].use != o }

  function DoCallDetach(s: State, i: nat): State {
    if CanCall(s, i) && s.thr[i].use.NoObj? && MarkOf(s, s.g.attached).Bound? && Unused(s, s.g.attached) then
      SetMark(SetPc(s, i, DtMtx(s.g.attached)), s.g.attached, Dying(i))
    else s
  }

  function DoCallAttach(s: State, i: nat, o: Obj): State {
    if CanCall(s, i) && s.g.file && s.thr[i].use.NoObj? && Alive(MarkOf(s, o)) then
      s.(thr := s.thr[i := s.thr[i].(use := o, pc := AtMtx(o))], g := s.g.(kref := s.g.kref + 1))
    else s
  }

  function DoCallSetCv(s: State, i: nat, n: int): State {
    if CanCall(s, i) && s.g.file && 1 <= n <= MAX_CONCURRENCY_VALUE then
      SetPc(s, i, CvMtx(n)).(g := s.g.(kref := s.g.kref + 1))
    else s
  }

  /** cmgroup_dissociate, up to and including cmgroup_one_less_runnable. */
  function DoCallDissoc(s: State, i: nat): State {
    if !(CanCall(s, i) && s.thr[i].assoc.This?) then s
    else
      var t := s.thr[i];
      if t.charged then
        var a := s.g.available + 1;
        s.(thr := s.thr[i := t.(charged := false, pc := DsClear, fire := if a == 1 then WantCas else NoFire)],
           g := s.g.(available := a))
      else SetPc(s, i, DsClear)
  }

  /** The file descriptor of the group is closed. */
  function DoCallClose(s: State, i: nat): State {
    if CanCall(s, i) && s.g.file then SetPc(s, i, PutCall).(g := s.g.(file := false)) else s
  }

  /** A system call on an object starts or ends. */
  function DoEnterObj(s: State, i: nat, o: Obj): State {
    if CanCall(s, i) && s.thr[i].use.NoObj? && Alive(MarkOf(s, o)) then s.(thr := s.thr[i := s.thr[i].(use := o)])
    else s
  }

  function DoLeaveObj(s: State, i: nat): State {
    if CanCall(s, i) then s.(thr := s.thr[i := s.thr[i].(use := NoObj)]) else s
  }

  /** A task joins or leaves another group. */
  function DoOtherGroup(s: State, i: nat): State {
    if CanCall(s, i) && !s.thr[i].assoc.This? then
      s.(thr := s.thr[i := s.thr[i].(assoc := if s.thr[i].assoc.Other? then NoAssoc else Other)])
    else s
  }

  /** cmgroup_associate, from the system call or from a call on the bound object. */
  function DoCallAssoc(s: State, i: nat): State {
    if CanCall(s, i) && s.g.file then SetPc(s, i, AsEnter).(g := s.g.(kref := s.g.kref + 1)) else s
  }

  function DoCallAssocObj(s: State, i: nat): State {
    if CanCall(s, i) && MarkOf(s, s.thr[i].use).Bound? then SetPc(s, i, AsEnter).(g := s.g.(kref := s.g.kref + 1))
    else s
  }

  function DoCallWait(s: State, i: nat): State {
    if CanCall(s, i) && s.thr[i].use.Aio? && MarkOf(s, s.thr[i].use).Bound? && s.g.wqp == 0 && s.g.lockp == 0 then
      SetPc(s, i, WTop)
    else s
  }

  function DoCallEpWait(s: State, i: nat, cm: bool): State {
    if CanCall(s, i) && s.thr[i].use.Ep? && (cm ==> MarkOf(s, s.thr[i].use).Bound?) then
      SetPc(s, i, EcLock(s.thr[i].use.e, cm))
    else s
  }

  function DoCallEpWake(s: State, i: nat): State {
    if CanCall(s, i) && s.thr[i].use.Ep? then SetPc(s, i, EkLock(s.thr[i].use.e)) else s
  }

  // ---- one step of a running call -----------------------------------------------------------

  function GoAssoc(s: State, i: nat): State
    requires i < |s.thr|
  {
    var t := s.thr[i];
    match t.pc
    case PutCall => SetPc(s, i, Idle).(g := s.g.(kref := s.g.kref - 1))
    case AsEnter =>
      if t.assoc.This? then SetPc(s, i, PutCall)
      else s.(thr := s.thr[i := t.(assoc := NoAssoc, pc := AsSet)])
    case AsSet => s.(thr := s.thr[i := t.(assoc := This, charged := false, pc := AsCharge)])
    case AsCharge =>
      s.(thr := s.thr[i := t.(charged := true, pc := Idle)], g := s.g.(available := s.g.available - 1))
    case DsClear => s.(thr := s.thr[i := t.(assoc := NoAssoc, pc := PutCall)])
    case _ => s
  }

  function GoSetCv(s: State, i: nat): State
    requires i < |s.thr|
  {
    var t := s.thr[i];
    match t.pc
    case CvMtx(n) => if s.g.mtx.Nobody? then SetPc(s, i, CvLock(n)).(g := s.g.(mtx := Thr(i))) else s
    case CvLock(n) =>
      if Lk(s, s.g.lockp).Nobody? then SetLk(SetPc(s, i, CvWrite(n, s.g.lockp)), s.g.lockp, Thr(i)) else s
    case CvWrite(n, l) => SetPc(s, i, CvAdd(n - s.g.cv, l)).(g := s.g.(cv := n))
    case CvAdd(d, l) =>
      var a := s.g.available + d;
      var f := if s.g.available < 1 && a >= 1 then WantCas else NoFire;
      s.(thr := s.thr[i := t.(pc := CvUnlock(l), fire := f)], g := s.g.(available := a))
    case CvUnlock(l) => SetLk(SetPc(s, i, CvMtxPut), s.g.lockp, Nobody)
    case CvMtxPut => SetPc(s, i, PutCall).(g := s.g.(mtx := Nobody))
    case _ => s
  }

  function GoAttach(s: State, i: nat): State
    requires i < |s.thr|
  {
    var t := s.thr[i];
    match t.pc
    case AtMtx(o) => if s.g.mtx.Nobody? then SetPc(s, i, AtCheck(o)).(g := s.g.(mtx := Thr(i))) else s
    case AtCheck(o) => SetPc(s, i, if s.g.attached.NoObj? then LoCas(Attaching(o)) else AtMtxPut)
    case AtMtxPut => s.(thr := s.thr[i := t.(pc := PutCall, use := NoObj)], g := s.g.(mtx := Nobody))
    case AtObjLock(o) =>
      if o.Ep? then
        if Lk(s, o.e).Nobody? then SetLk(SetPc(s, i, AtSet(o)), o.e, Thr(i)) else s
      else SetPc(s, i, AtSet(o))
    case AtSet(o) =>
      if MarkOf(s, o).Unbound? then
        var s1 := SetMark(SetPc(s, i, AtObjUnlock(o, true)), o, Bound);
        var s2 := s1.(g := s1.g.(attached := o, lockp := RemoteOf(o), wqp := RemoteOf(o)));
        if o.Ep? then WakeEvery(s2, o.e) else s2
      else SetPc(s, i, AtObjUnlock(o, false))
    case AtObjUnlock(o, ok) =>
      var s1 := SetPc(s, i, UnloClear(if ok then Attached else Refused));
      if o.Ep? then SetLk(s1, o.e, Nobody) else s1
    case _ => s
  }

  function GoLockout(s: State, i: nat): State
    requires i < |s.thr|
  {
    var t := s.thr[i];
    match t.pc
    case LoCas(k) => if s.g.active then s else SetPc(s, i, LoLock(k)).(g := s.g.(active := true))
    case LoLock(k) =>
      if Lk(s, s.g.lockp).Nobody? then SetLk(SetPc(s, i, LoUnlock(k, s.g.lockp)), s.g.lockp, Thr(i)) else s
    case LoUnlock(k, l) =>
      SetLk(SetPc(s, i, match k case Attaching(o) => AtObjLock(o) case Detaching(o) => DtSet(o) case _ => UnloClear(k)),
            s.g.lockp, Nobody)
    case UnloClear(k) =>
      s.(thr := s.thr[i := t.(pc := LoMtxPut(k), fire := WantCas)], g := s.g.(active := false))
    case LoMtxPut(k) =>
      var pc := match k case Detaching(o) => DtPut(o) case Refused => PutCall case _ => Idle;
      s.(thr := s.thr[i := t.(pc := pc, use := NoObj)], g := s.g.(mtx := Nobody))
    case _ => s
  }

  function GoDetach(s: State, i: nat): State
    requires i < |s.thr|
  {
    match s.thr[i].pc
    case DtMtx(o) => if s.g.mtx.Nobody? then SetPc(s, i, DtLock(o)).(g := s.g.(mtx := Thr(i))) else s
    case DtLock(o) =>
      if Lk(s, s.g.lockp).Nobody? then SetLk(SetPc(s, i, DtQueue(o, s.g.lockp)), s.g.lockp, Thr(i)) else s
    case DtQueue(o, l) =>
      if s.g.wqp == 0 && Q(s, 0) != [] then SetPc(WakeEvery(s, 0), i, DtUnlock(o, l, true))
      else SetPc(s, i, DtUnlock(o, l, false))
    case DtUnlock(o, l, again) =>
      SetLk(SetPc(s, i, if again then DtLock(o) else LoCas(Detaching(o))), s.g.lockp, Nobody)
    case DtSet(o) =>
      SetPc(s, i, UnloClear(Detaching(o))).(g := s.g.(attached := NoObj, lockp := 0, wqp := 0, action := WakeAll))
    case DtPut(o) => SetMark(SetPc(s, i, Idle).(g := s.g.(kref := s.g.kref - 1)), o, Freed)
    case _ => s
  }

  /** `choice` stands for a pending signal or an expired timeout. */
  function GoWait(s: State, i: nat, choice: bool): State
    requires i < |s.thr|
  {
    var t := s.thr[i];
    match t.pc
    case WTop => SetPc(s, i, if choice || s.g.available >= 0 then Idle else WLock)
    case WLock =>
      if Lk(s, s.g.lockp).Nobody? then SetLk(SetPc(s, i, WCheck(s.g.lockp)), s.g.lockp, Thr(i)) else s
    case WCheck(l) => SetPc(s, i, if s.g.available >= 0 then WDrop(l) else WAdd(l))
    case WDrop(l) => SetLk(SetPc(s, i, Idle), s.g.lockp, Nobody)
    case WAdd(l) =>
      SetQ(s.(thr := s.thr[i := t.(pc := WUnlock(l), st := Sleeping)]), s.g.wqp, Q(s, s.g.wqp) + [i])
    case WUnlock(l) => SetLk(SetPc(s, i, WSleep), s.g.lockp, Nobody)
    case WSleep => SetPc(s, i, WFinish)
    case WFinish =>
      s.(thr := s.thr[i := t.(st := Running, pc := if i in Q(s, 0) then WRmLock else if choice then Idle else WTop)])
    case WRmLock => if Lk(s, 0).Nobody? then SetLk(SetPc(s, i, WRm), 0, Thr(i)) else s
    case WRm => SetLk(SetQ(SetPc(s, i, if choice then Idle else WTop), 0, Without(Q(s, 0), i)), 0, Nobody)
    case _ => s
  }

  function GoEpWake(s: State, i: nat): State
    requires i < |s.thr|
  {
    match s.thr[i].pc
    case EkLock(e) => if Lk(s, e).Nobody? then SetLk(SetPc(s, i, EkCheck(e)), e, Thr(i)) else s
    case EkCheck(e) =>
      if Q(s, e) == [] then SetPc(s, i, EkUnlock(e))
      else if MarkOf(s, Ep(e)).Bound? && s.g.available <= 0 then SetPc(s, i, EkReq(e))
      else SetPc(s, i, EkWake(e))
    case EkReq(e) => SetPc(s, i, EkUnlock(e)).(g := s.g.(action := ResetWakeOne))
    case EkWake(e) => SetPc(if e == 0 then s else WakeOne(s, e), i, EkUnlock(e))
    case EkUnlock(e) => SetLk(SetPc(s, i, Idle), e, Nobody)
    case _ => s
  }

  function GoEpWait(s: State, i: nat, choice: bool): State
    requires i < |s.thr|
  {
    var t := s.thr[i];
    match t.pc
    case EcLock(e, cm) => if Lk(s, e).Nobody? then SetLk(SetPc(s, i, EcAdd(e, cm)), e, Thr(i)) else s
    case EcAdd(e, cm) =>
      var s1 := if cm then SetPc(s, i, EcCheck(e))
                else s.(thr := s.thr[i := t.(pc := EcUnlock(e, false), st := Sleeping)]);
      SetQ(s1, e, [i] + Q(s, e))
    case EcCheck(e) => SetPc(s, i, if s.g.available >= 0 then EcOut(e) else EcReq(e))
    case EcReq(e) =>
      if choice then s.(thr := s.thr[i := t.(pc := EcOut(e), st := Sleeping)])
      else s.(thr := s.thr[i := t.(pc := EcUnlock(e, true), st := Sleeping)], g := s.g.(action := ResetWakeOne))
    case EcUnlock(e, cm) => SetLk(SetPc(s, i, EcSleep(e, cm)), e, Nobody)
    case EcSleep(e, cm) => SetPc(s, i, EcRelock(e, cm))
    case EcRelock(e, cm) =>
      if Lk(s, e).Nobody? then SetLk(SetPc(s, i, if cm then EcNeutral(e) else EcOut(e)), e, Thr(i)) else s
    case EcNeutral(e) => SetPc(s, i, if choice then EcOut(e) else EcCheck(e)).(g := s.g.(action := Neutral))
    case EcOut(e) =>
      SetQ(s.(thr := s.thr[i := t.(pc := EkUnlock(e), st := Running)]), e, Without(Q(s, e), i))
    case _ => s
  }

  /** One step of the call task i is in; a task blocked in schedule() or firing takes none. */
  function DoGo(s: State, i: nat, choice: bool): State
    requires i < |s.thr|
  {
    var t := s.thr[i];
    if !Exec(t) || (Blockable(t.pc) && t.st.Sleeping?) then s
    else match t.pc
      case Idle => s
      case PutCall | AsEnter | AsSet | AsCharge | DsClear => GoAssoc(s, i)
      case CvMtx(_) | CvLock(_) | CvWrite(_, _) | CvAdd(_, _) | CvUnlock(_) | CvMtxPut => GoSetCv(s, i)
      case AtMtx(_) | AtCheck(_) | AtMtxPut | AtObjLock(_) | AtSet(_) | AtObjUnlock(_, _) => GoAttach(s, i)
      case LoCas(_) | LoLock(_) | LoUnlock(_, _) | UnloClear(_) | LoMtxPut(_) => GoLockout(s, i)
      case DtMtx(_) | DtLock(_) | DtQueue(_, _) | DtUnlock(_, _, _) | DtSet(_) | DtPut(_) => GoDetach(s, i)
      case WTop | WLock | WCheck(_) | WAdd(_) | WUnlock(_) | WDrop(_) | WSleep | WFinish | WRmLock | WRm =>
        GoWait(s, i, choice)
      case EkLock(_) | EkCheck(_) | EkReq(_) | EkWake(_) | EkUnlock(_) => GoEpWake(s, i)
      case _ => GoEpWait(s, i, choice)
  }

  // ---- the whole machine --------------------------------------------------------------------

  function Step(s: State, m: Move): State {
    match m
    case FireStep(i) => if i < |s.thr| then DoFire(s, i) else s
    case SetState(i) => DoSetState(s, i)
    case Sleep(i) => if i < |s.thr| then DoSleep(s, i) else s
    case Wake(i) => DoWake(s, i)
    case Enqueue(i) => if i < |s.thr| then DoEnqueue(s, i) else s
    case Migrate(i) => if i < |s.thr| then DoMigrate(s, i) else s
    case TaskletStep => DoTasklet(s)
    case CallClose(i) => DoCallClose(s, i)
    case EnterObj(i, o) => DoEnterObj(s, i, o)
    case LeaveObj(i) => DoLeaveObj(s, i)
    case OtherGroup(i) => DoOtherGroup(s, i)
    case OtherAttach(o) => if MarkOf(s, o).Unbound? then SetMark(s, o, Foreign) else s
    case OtherFree(o) =>
      if (MarkOf(s, o).Unbound? || MarkOf(s, o).Foreign?) && Unused(s, o) then SetMark(s, o, Freed) else s
    case CallAssoc(i) => DoCallAssoc(s, i)
    case CallAssocObj(i) => DoCallAssocObj(s, i)
    case CallDissoc(i) => DoCallDissoc(s, i)
    case CallSetCv(i, n) => DoCallSetCv(s, i, n)
    case CallAttach(i, o) => DoCallAttach(s, i, o)
    case CallDetach(i) => DoCallDetach(s, i)
    case CallWait(i) => DoCallWait(s, i)
    case CallEpWait(i, cm) => DoCallEpWait(s, i, cm)
    case CallEpWake(i) => DoCallEpWake(s, i)
    case Go(i, choice) => if i < |s.thr| then DoGo(s, i, choice) else s
  }

  function Run(s: State, ms: seq<Move>): State
    decreases |ms|
  {
    if ms == [] then s else Run(Step(s, ms[0]), ms[1..])
  }

  /** cmgroup_newgroup: tasks outside any group code, `nEps` epoll and `nAios` AIO objects. */
  function Init(nThreads: nat, nEps: nat, nAios: nat, limit: nat): State {
    State(
      Group(1, limit, limit, false, WakeAll, 0, 0, NoObj, 0, false, TlNone, true, Nobody),
      seq(nThreads, _ => Thread(Idle, Running, OnRq, NoFire, NoAssoc, false, NoObj)),
      seq(nEps + 1, _ => Nobody), seq(nEps + 1, _ => []), seq(nEps + 1, _ => Unbound), seq(nAios, _ => Unbound))
  }
}
