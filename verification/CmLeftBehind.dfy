/**
  A reachable state in which a task waits for an opening, there is one, and nobody will tell it: another waiter
  has set the shared action back to neutral (ep_cmgroup_wait_available in fs/eventpoll.c).
*/
module CmLeftBehind {
  import opened Lists
  import opened CmModel
  import opened CmInv
  import opened CmTheorems
  import opened CmRequests

  /** One epoll set, three tasks; the fields that the run changes. */
  function World(g: Group, thr: seq<Thread>, own: Owner, lock: Owner, queue: seq<nat>, mark: Mark): State {
    State(g, thr, [own, lock], [[], queue], [Unbound, mark], [])
  }

  const Fresh := Thread(Idle, Running, OnRq, NoFire, NoAssoc, false, NoObj)
  const Member := Thread(Idle, Running, OnRq, NoFire, This, true, NoObj)
  const Waiting := Thread(EcSleep(1, true), Sleeping, OffRq, NoFire, This, false, Ep(1))

  const Created := Group(1, 1, 1, false, WakeAll, 0, 0, NoObj, 0, false, TlNone, true, Nobody)

  /** The group attached to epoll set 1, its tasklet scheduled by the attach and not yet run. */
  function Attached1(kref: int, available: int, action: Action): Group {
    Group(kref, 1, available, true, action, 1, 1, Ep(1), 0, true, TlNone, true, Nobody)
  }

  // ---- reachable by one more step -----------------------------------------------------------

  /** Task i can take a step of the call it is in. */
  predicate Ready(s: State, i: nat) { i < |s.thr| && Exec(s.thr[i]) && s.thr[i].st.Running? }

  /** A system call or a scheduling event whose effect is s'. */
  lemma Next(s: State, m: Move, s': State)
    requires m.CallAttach? || m.CallAssoc? || m.EnterObj? || m.CallEpWait? || m.SetState? || m.Wake?
    requires Reachable(s) && Effect(s, m) == s'
    ensures Reachable(s')
  {
    ReachableStep(s, m);
  }

  /** The steps of this run that are not steps of a call in progress. */
  function Effect(s: State, m: Move): State {
    match m
    case CallAttach(i, o) => DoCallAttach(s, i, o)
    case CallAssoc(i) => DoCallAssoc(s, i)
    case EnterObj(i, o) => DoEnterObj(s, i, o)
    case CallEpWait(i, cm) => DoCallEpWait(s, i, cm)
    case SetState(i) => DoSetState(s, i)
    case Wake(i) => DoWake(s, i)
    case _ => s
  }

  lemma NextAssoc(s: State, i: nat, s': State)
    requires Reachable(s) && Ready(s, i) && (s.thr[i].pc.AsEnter? || s.thr[i].pc.AsSet? || s.thr[i].pc.AsCharge?)
    requires GoAssoc(s, i) == s'
    ensures Reachable(s')
  {
    ReachableStep(s, Go(i, false));
  }

  lemma NextAttach(s: State, i: nat, s': State)
    requires Reachable(s) && Ready(s, i)
    requires var pc := s.thr[i].pc; pc.AtMtx? || pc.AtCheck? || pc.AtObjLock? || pc.AtSet? || pc.AtObjUnlock?
    requires GoAttach(s, i) == s'
    ensures Reachable(s')
  {
    ReachableStep(s, Go(i, false));
  }

  lemma NextLockout(s: State, i: nat, s': State)
    requires Reachable(s) && Ready(s, i)
    requires var pc := s.thr[i].pc; pc.LoCas? || pc.LoLock? || pc.LoUnlock? || pc.UnloClear? || pc.LoMtxPut?
    requires GoLockout(s, i) == s'
    ensures Reachable(s')
  {
    ReachableStep(s, Go(i, false));
  }

  /** The places of ep_cmgroup_wait_available. */
  predicate InEpWait(pc: Pc) {
    pc.EcLock? || pc.EcAdd? || pc.EcCheck? || pc.EcReq? || pc.EcUnlock? || pc.EcSleep? || pc.EcRelock? || pc.EcNeutral?
    || pc.EcOut?
  }

  lemma NextEpWait(s: State, i: nat, choice: bool, s': State)
    requires Reachable(s) && i < |s.thr| && Exec(s.thr[i]) && InEpWait(s.thr[i].pc)
    requires GoEpWait(s, i, choice) == s'
    ensures Reachable(s')
  {
    ReachableStep(s, Go(i, choice));
  }

  lemma NextEpWake(s: State, i: nat, s': State)
    requires Reachable(s) && Ready(s, i) && s.thr[i].pc.EkUnlock? && GoEpWake(s, i) == s'
    ensures Reachable(s')
  {
    ReachableStep(s, Go(i, false));
  }

  lemma NextFire(s: State, i: nat, s': State)
    requires Reachable(s) && i < |s.thr| && DoFire(s, i) == s'
    ensures Reachable(s')
  {
    ReachableStep(s, FireStep(i));
  }

  lemma NextTasklet(s: State, s': State)
    requires Reachable(s) && DoTasklet(s) == s'
    ensures Reachable(s')
  {
    ReachableStep(s, TaskletStep);
  }

  lemma NextSleep(s: State, i: nat, s': State)
    requires Reachable(s) && i < |s.thr| && DoSleep(s, i) == s'
    ensures Reachable(s')
  {
    ReachableStep(s, Sleep(i));
  }

  lemma NextEnqueue(s: State, i: nat, s': State)
    requires Reachable(s) && i < |s.thr| && DoEnqueue(s, i) == s'
    ensures Reachable(s')
  {
    ReachableStep(s, Enqueue(i));
  }

  // ---- attach -------------------------------------------------------------------------------

  /** An attaching task with its program counter and flag. */
  function Attacher(pc: Pc, fire: Fire): Thread { Thread(pc, Running, OnRq, fire, NoAssoc, false, Ep(1)) }

  function AttachWorld(g: Group, pc: Pc, fire: Fire, own: Owner, lock: Owner, mark: Mark): State {
    World(g, [Attacher(pc, fire), Fresh, Fresh], own, lock, [], mark)
  }

  const Locked := Created.(kref := 2, mtx := Thr(0))
  const Out := Locked.(active := true)
  const Bound1 := Out.(attached := Ep(1), lockp := 1, wqp := 1)

  lemma Begins()
    ensures Reachable(World(Created, [Fresh, Fresh, Fresh], Nobody, Nobody, [], Unbound))
  {
    var s := World(Created, [Fresh, Fresh, Fresh], Nobody, Nobody, [], Unbound);
    assert Init(3, 1, 0, 1) == s;
    assert s == Run(Init(3, 1, 0, 1), []);
  }

  lemma AttachCalled()
    ensures Reachable(AttachWorld(Created.(kref := 2), AtMtx(Ep(1)), NoFire, Nobody, Nobody, Unbound))
  {
    Begins();
    var s0 := World(Created, [Fresh, Fresh, Fresh], Nobody, Nobody, [], Unbound);
    Next(s0, CallAttach(0, Ep(1)), AttachWorld(Created.(kref := 2), AtMtx(Ep(1)), NoFire, Nobody, Nobody, Unbound));
  }

  lemma AttachStarts()
    ensures Reachable(AttachWorld(Locked, LoCas(Attaching(Ep(1))), NoFire, Nobody, Nobody, Unbound))
  {
    AttachCalled();
    var s1 := AttachWorld(Created.(kref := 2), AtMtx(Ep(1)), NoFire, Nobody, Nobody, Unbound);
    var s2 := AttachWorld(Locked, AtCheck(Ep(1)), NoFire, Nobody, Nobody, Unbound);
    NextAttach(s1, 0, s2);
    NextAttach(s2, 0, AttachWorld(Locked, LoCas(Attaching(Ep(1))), NoFire, Nobody, Nobody, Unbound));
  }

  lemma AttachLocksOut()
    ensures Reachable(AttachWorld(Out, AtObjLock(Ep(1)), NoFire, Nobody, Nobody, Unbound))
  {
    AttachStarts();
    var k := Attaching(Ep(1));
    var s3 := AttachWorld(Locked, LoCas(k), NoFire, Nobody, Nobody, Unbound);
    var s4 := AttachWorld(Out, LoLock(k), NoFire, Nobody, Nobody, Unbound);
    NextLockout(s3, 0, s4);
    var s5 := AttachWorld(Out, LoUnlock(k, 0), NoFire, Thr(0), Nobody, Unbound);
    NextLockout(s4, 0, s5);
    NextLockout(s5, 0, AttachWorld(Out, AtObjLock(Ep(1)), NoFire, Nobody, Nobody, Unbound));
  }

  lemma AttachSwaps()
    ensures Reachable(AttachWorld(Bound1, UnloClear(Attached), NoFire, Nobody, Nobody, Bound))
  {
    AttachLocksOut();
    var s6 := AttachWorld(Out, AtObjLock(Ep(1)), NoFire, Nobody, Nobody, Unbound);
    var s7 := AttachWorld(Out, AtSet(Ep(1)), NoFire, Nobody, Thr(0), Unbound);
    NextAttach(s6, 0, s7);
    var s8 := AttachWorld(Bound1, AtObjUnlock(Ep(1), true), NoFire, Nobody, Thr(0), Bound);
    NextAttach(s7, 0, s8);
    NextAttach(s8, 0, AttachWorld(Bound1, UnloClear(Attached), NoFire, Nobody, Nobody, Bound));
  }

  lemma AttachFires()
    ensures Reachable(AttachWorld(Bound1, LoMtxPut(Attached), GotCas, Nobody, Nobody, Bound))
  {
    AttachSwaps();
    var s9 := AttachWorld(Bound1, UnloClear(Attached), NoFire, Nobody, Nobody, Bound);
    var s10 := AttachWorld(Bound1.(active := false), LoMtxPut(Attached), WantCas, Nobody, Nobody, Bound);
    NextLockout(s9, 0, s10);
    NextFire(s10, 0, AttachWorld(Bound1, LoMtxPut(Attached), GotCas, Nobody, Nobody, Bound));
  }

  lemma AttachDone()
    ensures Reachable(World(Attached1(3, 1, WakeAll), [Fresh, Fresh, Fresh], Nobody, Nobody, [], Bound))
  {
    AttachFires();
    var s11 := AttachWorld(Bound1, LoMtxPut(Attached), GotCas, Nobody, Nobody, Bound);
    var s12 := AttachWorld(Bound1.(kref := 3), LoMtxPut(Attached), GotRef, Nobody, Nobody, Bound);
    NextFire(s11, 0, s12);
    var s13 := AttachWorld(Bound1.(kref := 3, sched := true), LoMtxPut(Attached), NoFire, Nobody, Nobody, Bound);
    NextFire(s12, 0, s13);
    NextLockout(s13, 0, World(Attached1(3, 1, WakeAll), [Fresh, Fresh, Fresh], Nobody, Nobody, [], Bound));
  }

  // ---- one task at a time ---------------------------------------------------------------------

  /** The attached world with tasks thr and the lock of the epoll set. */
  function Open(kref: int, available: int, action: Action, thr: seq<Thread>, lock: Owner, queue: seq<nat>): State {
    World(Attached1(kref, available, action), thr, Nobody, lock, queue, Bound)
  }

  lemma Associates(kref: int, available: int, thr: seq<Thread>, i: nat)
    requires i < |thr| && thr[i] == Fresh && Reachable(Open(kref, available, WakeAll, thr, Nobody, []))
    ensures Reachable(Open(kref + 1, available - 1, WakeAll, thr[i := Member], Nobody, []))
  {
    var s0 := Open(kref, available, WakeAll, thr, Nobody, []);
    var s1 := Open(kref + 1, available, WakeAll, thr[i := Fresh.(pc := AsEnter)], Nobody, []);
    Next(s0, CallAssoc(i), s1);
    var s2 := Open(kref + 1, available, WakeAll, thr[i := Fresh.(pc := AsSet)], Nobody, []);
    NextAssoc(s1, i, s2);
    var s3 := Open(kref + 1, available, WakeAll, thr[i := Fresh.(pc := AsCharge, assoc := This)], Nobody, []);
    NextAssoc(s2, i, s3);
    NextAssoc(s3, i, Open(kref + 1, available - 1, WakeAll, thr[i := Member], Nobody, []));
  }

  /** A member at a place of ep_cmgroup_wait_available. */
  function Waiter(pc: Pc, st: TaskState): Thread { Thread(pc, st, OnRq, NoFire, This, true, Ep(1)) }

  lemma EntersWait(available: int, action: Action, thr: seq<Thread>, i: nat, queue: seq<nat>)
    requires i < |thr| && thr[i] == Member && Reachable(Open(6, available, action, thr, Nobody, queue))
    ensures Reachable(Open(6, available, action, thr[i := Waiter(EcLock(1, true), Running)], Nobody, queue))
  {
    var s0 := Open(6, available, action, thr, Nobody, queue);
    var s1 := Open(6, available, action, thr[i := Waiter(Idle, Running)], Nobody, queue);
    Next(s0, EnterObj(i, Ep(1)), s1);
    var s2 := Open(6, available, action, thr[i := Waiter(EcLock(1, true), Running)], Nobody, queue);
    Next(s1, CallEpWait(i, true), s2);
  }

  /** A waiter queues itself at the head, */
  lemma QueuesFirst(available: int, action: Action, thr: seq<Thread>, i: nat, queue: seq<nat>)
    requires i < |thr| && thr[i] == Waiter(EcLock(1, true), Running)
    requires Reachable(Open(6, available, action, thr, Nobody, queue))
    ensures Reachable(Open(6, available, action, thr[i := Waiter(EcCheck(1), Running)], Thr(i), [i] + queue))
  {
    var s2 := Open(6, available, action, thr, Nobody, queue);
    var s3 := Open(6, available, action, thr[i := Waiter(EcAdd(1, true), Running)], Thr(i), queue);
    NextEpWait(s2, i, false, s3);
    NextEpWait(s3, i, false, Open(6, available, action, thr[i := Waiter(EcCheck(1), Running)], Thr(i), [i] + queue));
  }

  /** finds no opening and requests one, */
  lemma AsksForOpening(available: int, action: Action, thr: seq<Thread>, i: nat, queue: seq<nat>)
    requires i < |thr| && thr[i] == Waiter(EcCheck(1), Running) && available < 0
    requires Reachable(Open(6, available, action, thr, Thr(i), queue))
    ensures var thr' := thr[i := Waiter(EcUnlock(1, true), Sleeping)];
            Reachable(Open(6, available, ResetWakeOne, thr', Thr(i), queue))
  {
    var s4 := Open(6, available, action, thr, Thr(i), queue);
    var s5 := Open(6, available, action, thr[i := Waiter(EcReq(1), Running)], Thr(i), queue);
    NextEpWait(s4, i, false, s5);
    var thr' := thr[i := Waiter(EcUnlock(1, true), Sleeping)];
    NextEpWait(s5, i, false, Open(6, available, ResetWakeOne, thr', Thr(i), queue));
  }

  /** and goes to sleep. */
  lemma GoesToSleep(available: int, thr: seq<Thread>, i: nat, queue: seq<nat>)
    requires i < |thr| && thr[i] == Waiter(EcUnlock(1, true), Sleeping) && available < 0
    requires Reachable(Open(6, available, ResetWakeOne, thr, Thr(i), queue))
    ensures Reachable(Open(6, available + 1, ResetWakeOne, thr[i := Waiting], Nobody, queue))
  {
    var s6 := Open(6, available, ResetWakeOne, thr, Thr(i), queue);
    var s7 := Open(6, available, ResetWakeOne, thr[i := Waiter(EcSleep(1, true), Sleeping)], Nobody, queue);
    NextEpWait(s6, i, false, s7);
    NextSleep(s7, i, Open(6, available + 1, ResetWakeOne, thr[i := Waiting], Nobody, queue));
  }

  lemma SleepsForOpening(available: int, action: Action, thr: seq<Thread>, i: nat, queue: seq<nat>)
    requires i < |thr| && thr[i] == Member && available < 0
    requires Reachable(Open(6, available, action, thr, Nobody, queue))
    ensures Reachable(Open(6, available + 1, ResetWakeOne, thr[i := Waiting], Nobody, [i] + queue))
  {
    EntersWait(available, action, thr, i, queue);
    var thr1 := thr[i := Waiter(EcLock(1, true), Running)];
    QueuesFirst(available, action, thr1, i, queue);
    var thr2 := thr1[i := Waiter(EcCheck(1), Running)];
    AsksForOpening(available, action, thr2, i, [i] + queue);
    var thr3 := thr2[i := Waiter(EcUnlock(1, true), Sleeping)];
    GoesToSleep(available, thr3, i, [i] + queue);
    assert thr3[i := Waiting] == thr[i := Waiting];
  }

  /** A signal wakes a waiter, */
  lemma Wakes(available: int, thr: seq<Thread>, i: nat, queue: seq<nat>)
    requires i < |thr| && thr[i] == Waiting && Reachable(Open(6, available, ResetWakeOne, thr, Nobody, queue))
    ensures var thr' := thr[i := Waiter(EcSleep(1, true), Running)];
            Reachable(Open(6, available - 1, ResetWakeOne, thr', Nobody, queue))
  {
    var s0 := Open(6, available, ResetWakeOne, thr, Nobody, queue);
    var s1 := Open(6, available, ResetWakeOne, thr[i := Waiting.(st := Running)], Nobody, queue);
    Next(s0, Wake(i), s1);
    var thr' := thr[i := Waiter(EcSleep(1, true), Running)];
    NextEnqueue(s1, i, Open(6, available - 1, ResetWakeOne, thr', Nobody, queue));
  }

  /** which takes the lock again */
  lemma Relocks(available: int, thr: seq<Thread>, i: nat, queue: seq<nat>)
    requires i < |thr| && thr[i] == Waiting && Reachable(Open(6, available, ResetWakeOne, thr, Nobody, queue))
    ensures Reachable(Open(6, available - 1, ResetWakeOne, thr[i := Waiter(EcNeutral(1), Running)], Thr(i), queue))
  {
    Wakes(available, thr, i, queue);
    var s2 := Open(6, available - 1, ResetWakeOne, thr[i := Waiter(EcSleep(1, true), Running)], Nobody, queue);
    var s3 := Open(6, available - 1, ResetWakeOne, thr[i := Waiter(EcRelock(1, true), Running)], Nobody, queue);
    NextEpWait(s2, i, true, s3);
    var s4 := Open(6, available - 1, ResetWakeOne, thr[i := Waiter(EcNeutral(1), Running)], Thr(i), queue);
    NextEpWait(s3, i, true, s4);
  }

  /** and sets the action to neutral, whoever had requested it, */
  lemma Neutralises(available: int, thr: seq<Thread>, i: nat, queue: seq<nat>)
    requires i < |thr| && thr[i] == Waiter(EcNeutral(1), Running)
    requires Reachable(Open(6, available, ResetWakeOne, thr, Thr(i), queue))
    ensures Reachable(Open(6, available, Neutral, thr[i := Waiter(EcOut(1), Running)], Thr(i), queue))
  {
    var s0 := Open(6, available, ResetWakeOne, thr, Thr(i), queue);
    NextEpWait(s0, i, true, Open(6, available, Neutral, thr[i := Waiter(EcOut(1), Running)], Thr(i), queue));
  }

  /** and leaves. */
  lemma Leaves(available: int, thr: seq<Thread>, i: nat, queue: seq<nat>)
    requires i < |thr| && thr[i] == Waiter(EcNeutral(1), Running)
    requires Reachable(Open(6, available, ResetWakeOne, thr, Thr(i), queue))
    ensures Reachable(Open(6, available, Neutral, thr[i := Waiter(Idle, Running)], Nobody, Without(queue, i)))
  {
    Neutralises(available, thr, i, queue);
    var s1 := Open(6, available, Neutral, thr[i := Waiter(EcOut(1), Running)], Thr(i), queue);
    var s2 := Open(6, available, Neutral, thr[i := Waiter(EkUnlock(1), Running)], Thr(i), Without(queue, i));
    NextEpWait(s1, i, true, s2);
    NextEpWake(s2, i, Open(6, available, Neutral, thr[i := Waiter(Idle, Running)], Nobody, Without(queue, i)));
  }

  /** An idle member blocks on something else. */
  lemma Blocks(available: int, thr: seq<Thread>, i: nat, queue: seq<nat>)
    requires i < |thr| && (thr[i] == Member || thr[i] == Waiter(Idle, Running))
    requires Reachable(Open(6, available, Neutral, thr, Nobody, queue))
    ensures var t := thr[i].(st := Sleeping, rq := OffRq, charged := false,
                             fire := if available == 0 then WantCas else NoFire);
            Reachable(Open(6, available + 1, Neutral, thr[i := t], Nobody, queue))
  {
    var s0 := Open(6, available, Neutral, thr, Nobody, queue);
    var s1 := Open(6, available, Neutral, thr[i := thr[i].(st := Sleeping)], Nobody, queue);
    Next(s0, SetState(i), s1);
    var t := thr[i].(st := Sleeping, rq := OffRq, charged := false, fire := if available == 0 then WantCas else NoFire);
    NextSleep(s1, i, Open(6, available + 1, Neutral, thr[i := t], Nobody, queue));
  }

  // ---- the run ------------------------------------------------------------------------------

  lemma TwoRequests()
    ensures Reachable(Open(6, 0, ResetWakeOne, [Waiting, Waiting, Member], Nobody, [1, 0]))
  {
    AttachDone();
    Associates(3, 1, [Fresh, Fresh, Fresh], 0);
    assert [Fresh, Fresh, Fresh][0 := Member] == [Member, Fresh, Fresh];
    Associates(4, 0, [Member, Fresh, Fresh], 1);
    assert [Member, Fresh, Fresh][1 := Member] == [Member, Member, Fresh];
    Associates(5, -1, [Member, Member, Fresh], 2);
    assert [Member, Member, Fresh][2 := Member] == [Member, Member, Member];
    SleepsForOpening(-2, WakeAll, [Member, Member, Member], 0, []);
    assert [Member, Member, Member][0 := Waiting] == [Waiting, Member, Member];
    assert [0] + [] == [0];
    SleepsForOpening(-1, ResetWakeOne, [Waiting, Member, Member], 1, [0]);
    assert [Waiting, Member, Member][1 := Waiting] == [Waiting, Waiting, Member];
    assert [1] + [0] == [1, 0];
  }

  const Idle0 := Waiter(Idle, Running)
  const Asleep0 := Idle0.(st := Sleeping, rq := OffRq, charged := false)
  const Asleep2 := Member.(st := Sleeping, rq := OffRq, charged := false)

  lemma OneGivesUp()
    ensures Reachable(Open(6, 1, Neutral, [Asleep0, Waiting, Asleep2.(fire := WantCas)], Nobody, [1]))
  {
    TwoRequests();
    var thr := [Waiting, Waiting, Member];
    Relocks(0, thr, 0, [1, 0]);
    var thr1 := thr[0 := Waiter(EcNeutral(1), Running)];
    Leaves(-1, thr1, 0, [1, 0]);
    assert thr1[0 := Idle0] == [Idle0, Waiting, Member];
    assert Without([1, 0], 0) == [1] by { assert [1, 0][1..] == [0] && [0][1..] == []; }
    Blocks(-1, [Idle0, Waiting, Member], 0, [1]);
    assert [Idle0, Waiting, Member][0 := Asleep0] == [Asleep0, Waiting, Member];
    Blocks(0, [Asleep0, Waiting, Member], 2, [1]);
    assert [Asleep0, Waiting, Member][2 := Asleep2.(fire := WantCas)] == [Asleep0, Waiting, Asleep2.(fire := WantCas)];
  }

  /** The last world, with the tasklet at tl. */
  function Final(kref: int, active: bool, sched: bool, tl: TlPc, lock: Owner): State {
    World(Group(kref, 1, 1, active, Neutral, 1, 1, Ep(1), 0, sched, tl, true, Nobody), [Asleep0, Waiting, Asleep2],
          Nobody, lock, [1], Bound)
  }

  lemma TaskletRuns()
    ensures Reachable(Final(6, true, false, TlClear(1), Softirq))
  {
    OneGivesUp();
    var s := Open(6, 1, Neutral, [Asleep0, Waiting, Asleep2.(fire := WantCas)], Nobody, [1]);
    NextFire(s, 2, Final(6, true, true, TlNone, Nobody));
    NextTasklet(Final(6, true, true, TlNone, Nobody), Final(6, true, false, TlLock(0), Nobody));
    NextTasklet(Final(6, true, false, TlLock(0), Nobody), Final(6, true, false, TlAct(0, 1), Softirq));
    NextTasklet(Final(6, true, false, TlAct(0, 1), Softirq), Final(6, true, false, TlClear(1), Softirq));
  }

  lemma TaskletLeaves()
    ensures Reachable(Final(5, false, false, TlNone, Nobody))
  {
    TaskletRuns();
    NextTasklet(Final(6, true, false, TlClear(1), Softirq), Final(6, false, false, TlUnlock(1, true), Softirq));
    NextTasklet(Final(6, false, false, TlUnlock(1, true), Softirq), Final(6, false, false, TlUnref, Nobody));
    NextTasklet(Final(6, false, false, TlUnref, Nobody), Final(5, false, false, TlNone, Nobody));
  }

  /**
    The request of a sleeping waiter is lost: there is an opening, the waiter that asked for one is asleep on the queue,
    and nothing is in flight that would wake it. Its request was withdrawn by another waiter whose sleep a
    signal had ended.
  */
  lemma WaiterLeftBehind() returns (s: State)
    ensures Reachable(s) && s.g.available == 1 && AsleepForOpening(s, 1)
    ensures !Owed(s) && !s.g.sched && s.g.tl.TlNone? && forall i :: 0 <= i < |s.thr| ==> s.thr[i].fire.NoFire?
  {
    TaskletLeaves();
    s := Final(5, false, false, TlNone, Nobody);
    assert s.thr[1] == Waiting && Q(s, 1) == [1];
  }
}
