/** Steps that change a wait queue, an action, an object, or other tasks. */
module CmSpecial {
  import opened Lists
  import opened CmModel
  import opened CmInv
  import opened CmProof
  import opened SeqSums

  // ---- claims on tasklet_active -------------------------------------------------------------

  lemma TokBounds(s: State)
    requires TokenOk(s)
    ensures Sum(s.thr, Tok) >= 0
    ensures forall j :: 0 <= j < |s.thr| ==> Tok(s.thr[j]) <= B(s.g.active) - TlTok(s)
    ensures TlTok(s) <= 1
  {
    SumNonNegative(s.thr, Tok);
    forall j | 0 <= j < |s.thr| ensures Tok(s.thr[j]) <= B(s.g.active) - TlTok(s) {
      SumAtLeast(s.thr, j, Tok);
    }
  }

  /** Whoever claims the flag keeps it set, and keeps the tasklet neither running nor scheduled. */
  lemma Claimed(s: State, i: nat)
    requires TokenOk(s) && i < |s.thr| && Tok(s.thr[i]) >= 1
    ensures s.g.active && !s.g.sched && !TlOwns(s.g.tl)
  {
    TokBounds(s);
  }

  // ---- task steps with a changed queue or action --------------------------------------------

  /** One task moved; the action changed only under the group's (remote) lock. */
  ghost predicate Special(s: State, s': State, i: nat) {
    && OnlyTask(s, s', i) && SamePointers(s, s') && s'.g.tl == s.g.tl && |s'.queues| == |s.queues|
    && ThreadOk(s', i) && Balanced(s, s', s.thr[i], s'.thr[i]) && Careful(s, s', s.thr[i], s'.thr[i])
    && (s'.g.action == s.g.action || (s.g.lockp != 0 && Lk(s, s.g.lockp) == Thr(i)))
    && (s'.g.action.ResetWakeOne? ==> s.g.action.ResetWakeOne? || Decides(s.thr[i].pc))
    && (Decides(s.thr[i].pc) ==> Lk(s, s.g.lockp) == Thr(i))
  }

  lemma SpecialStep(s: State, s': State, i: nat)
    requires Inv(s) && Special(s, s', i) && QueuesOk(s')
    requires LocalSleeper(s') ==> LocalSleeper(s) || Decides(s.thr[i].pc)
    ensures Inv(s')
  {
    Others(s, s', i);
    Counters(s, s', i);
    SameShape(s, s');
    SpecialTasklet(s, s', i);
    WakeupKept(s, s', i);
  }

  lemma SpecialTasklet(s: State, s': State, i: nat)
    requires TaskletOk(s) && Special(s, s', i) && s.g.lockp < |s.locks|
    requires LocalSleeper(s') ==> LocalSleeper(s) || Decides(s.thr[i].pc)
    ensures TaskletOk(s')
  {
  }

  /** Shape does not depend on the queue contents. */
  lemma SameShape(s: State, s': State)
    requires Shape(s) && SamePointers(s, s') && |s'.queues| == |s.queues| && |s'.locks| == |s.locks|
    requires s'.g.action == s.g.action || s.g.lockp != 0
    ensures Shape(s')
  {
    assert forall o :: MarkOf(s', o) == MarkOf(s, o);
  }

  /** A queue whose members were members before, or the moving task itself. */
  lemma OneQueue(s: State, s': State, i: nat, l: nat)
    requires QueuesOk(s) && OnlyTask(s, s', i) && Pre(s, i) && l < |s.queues| == |s'.queues|
    requires forall k :: 0 <= k < |s.queues| && k != l ==> s'.queues[k] == s.queues[k]
    requires forall j :: j in s'.queues[l] ==> j in s.queues[l] || j == i
    requires i in s'.queues[l] ==> QueuedAt(s'.thr[i].pc, l)
    requires forall k :: 0 <= k < |s.queues| && k != l ==> !QueuedAt(s.thr[i].pc, k)
    ensures QueuesOk(s')
  {
    forall k | 0 <= k < |s'.queues| ensures QueueOk(s'.thr, s'.queues[k], k) {
      assert QueueOk(s.thr, s.queues[k], k);
    }
  }

  lemma FewerSleepers(s: State, s': State, i: nat)
    requires OnlyTask(s, s', i)
    requires forall j :: j in Q(s', 0) ==> j in Q(s, 0) && (j == i ==> s'.thr[i].st.Running?)
    ensures LocalSleeper(s') ==> LocalSleeper(s)
  {
    if LocalSleeper(s') {
      var j :| j in Q(s', 0) && j < |s'.thr| && s'.thr[j].st.Sleeping?;
      assert j in Q(s, 0) && s.thr[j].st.Sleeping?;
    }
  }

  lemma WAddSpecial(s: State, i: nat, choice: bool)
    requires Pre(s, i) && Exec(s.thr[i]) && s.thr[i].pc.WAdd?
    ensures Special(s, GoWait(s, i, choice), i)
  {
  }

  lemma WAddKeeps(s: State, i: nat, choice: bool)
    requires Inv(s) && i < |s.thr| && Exec(s.thr[i]) && s.thr[i].pc.WAdd?
    ensures Inv(GoWait(s, i, choice))
  {
    InvPre(s, i);
    WAddSpecial(s, i, choice);
    OneQueue(s, GoWait(s, i, choice), i, 0);
    SpecialStep(s, GoWait(s, i, choice), i);
  }

  lemma WRmSpecial(s: State, i: nat, choice: bool)
    requires Pre(s, i) && Exec(s.thr[i]) && s.thr[i].pc.WRm?
    ensures Special(s, GoWait(s, i, choice), i)
  {
  }

  lemma WRmKeeps(s: State, i: nat, choice: bool)
    requires Inv(s) && i < |s.thr| && Exec(s.thr[i]) && s.thr[i].pc.WRm?
    ensures Inv(GoWait(s, i, choice))
  {
    InvPre(s, i);
    WRmSpecial(s, i, choice);
    WithoutMembers(Q(s, 0), i);
    OneQueue(s, GoWait(s, i, choice), i, 0);
    FewerSleepers(s, GoWait(s, i, choice), i);
    SpecialStep(s, GoWait(s, i, choice), i);
  }

  lemma EcAddSpecial(s: State, i: nat, choice: bool)
    requires Pre(s, i) && Exec(s.thr[i]) && s.thr[i].pc.EcAdd? && !s.thr[i].pc.cm
    ensures Special(s, GoEpWait(s, i, choice), i)
  {
  }

  lemma EcAddCmSpecial(s: State, i: nat, choice: bool)
    requires Pre(s, i) && Exec(s.thr[i]) && s.thr[i].pc.EcAdd? && s.thr[i].pc.cm
    ensures Special(s, GoEpWait(s, i, choice), i)
  {
  }

  lemma EcOutSpecial(s: State, i: nat, choice: bool)
    requires Pre(s, i) && Exec(s.thr[i]) && s.thr[i].pc.EcOut?
    ensures Special(s, GoEpWait(s, i, choice), i)
  {
  }

  lemma EcAddKeeps(s: State, i: nat, choice: bool)
    requires Inv(s) && i < |s.thr| && Exec(s.thr[i]) && s.thr[i].pc.EcAdd?
    ensures Inv(GoEpWait(s, i, choice))
  {
    if s.thr[i].pc.cm { EcAddCmKeeps(s, i, choice); } else { EcAddEventKeeps(s, i, choice); }
  }

  lemma EcAddCmKeeps(s: State, i: nat, choice: bool)
    requires Inv(s) && i < |s.thr| && Exec(s.thr[i]) && s.thr[i].pc.EcAdd? && s.thr[i].pc.cm
    ensures Inv(GoEpWait(s, i, choice))
  {
    InvPre(s, i);
    EcAddCmSpecial(s, i, choice);
    RemoteQueueKeeps(s, GoEpWait(s, i, choice), i, s.thr[i].pc.e);
  }

  lemma EcAddEventKeeps(s: State, i: nat, choice: bool)
    requires Inv(s) && i < |s.thr| && Exec(s.thr[i]) && s.thr[i].pc.EcAdd? && !s.thr[i].pc.cm
    ensures Inv(GoEpWait(s, i, choice))
  {
    InvPre(s, i);
    EcAddSpecial(s, i, choice);
    RemoteQueueKeeps(s, GoEpWait(s, i, choice), i, s.thr[i].pc.e);
  }

  lemma EcOutKeeps(s: State, i: nat, choice: bool)
    requires Inv(s) && i < |s.thr| && Exec(s.thr[i]) && s.thr[i].pc.EcOut?
    ensures Inv(GoEpWait(s, i, choice))
  {
    InvPre(s, i);
    EcOutSpecial(s, i, choice);
    WithoutMembers(Q(s, s.thr[i].pc.e), i);
    RemoteQueueKeeps(s, GoEpWait(s, i, choice), i, s.thr[i].pc.e);
  }

  /** A task joins or leaves an epoll object's queue. */
  lemma RemoteQueueKeeps(s: State, s': State, i: nat, e: nat)
    requires Inv(s) && Pre(s, i) && Special(s, s', i) && 1 <= e < |s.queues|
    requires forall k :: 0 <= k < |s.queues| && k != e ==> s'.queues[k] == s.queues[k]
    requires forall j :: j in s'.queues[e] ==> j in s.queues[e] || j == i
    requires i in s'.queues[e] ==> QueuedAt(s'.thr[i].pc, e)
    requires forall k :: 0 <= k < |s.queues| && k != e ==> !QueuedAt(s.thr[i].pc, k)
    ensures Inv(s')
  {
    OneQueue(s, s', i, e);
    FewerSleepers(s, s', i);
    SpecialStep(s, s', i);
  }

  lemma EkReqSpecial(s: State, i: nat)
    requires Pre(s, i) && Exec(s.thr[i]) && s.thr[i].pc.EkReq?
    ensures Special(s, GoEpWake(s, i), i)
  {
  }

  lemma EcReqSpecial(s: State, i: nat)
    requires Pre(s, i) && Exec(s.thr[i]) && s.thr[i].pc.EcReq?
    ensures Special(s, GoEpWait(s, i, false), i)
  {
  }

  lemma EcNeutralSpecial(s: State, i: nat)
    requires Pre(s, i) && Exec(s.thr[i]) && s.thr[i].pc.EcNeutral?
    ensures Special(s, GoEpWait(s, i, false), i)
  {
  }

  lemma EcNeutralOutSpecial(s: State, i: nat)
    requires Pre(s, i) && Exec(s.thr[i]) && s.thr[i].pc.EcNeutral?
    ensures Special(s, GoEpWait(s, i, true), i)
  {
  }

  /** Requests and retractions of a wakeup on the attached epoll object. */
  lemma ActionKeeps(s: State, s': State, i: nat)
    requires Inv(s) && Special(s, s', i) && s'.queues == s.queues
    requires forall l :: 0 <= l < |s.queues| && i in s.queues[l] ==> QueuedAt(s'.thr[i].pc, l)
    requires i !in Q(s, 0)
    ensures Inv(s')
  {
    QueuesKept(s, s', i);
    SleeperKept(s, s', i);
    SpecialStep(s, s', i);
  }

  // ---- waking tasks -------------------------------------------------------------------------

  /** Only task states went back to running, and only queue entries were removed. */
  ghost predicate OnlyWakes(s: State, s': State) {
    && |s'.thr| == |s.thr| && s'.locks == s.locks && s'.eps == s.eps && s'.aios == s.aios
    && s'.g == s.g.(nWaked := s'.g.nWaked)
    && (forall j :: 0 <= j < |s.thr| ==> s'.thr[j] == s.thr[j] || s'.thr[j] == s.thr[j].(st := Running))
    && |s'.queues| == |s.queues|
    && (forall l, j :: 0 <= l < |s.queues| && j in s'.queues[l] ==> j in s.queues[l])
  }

  lemma WakesKeep(s: State, s': State)
    requires Inv(s) && OnlyWakes(s, s')
    ensures Inv(s')
  {
    SumCong(s.thr, Tok, s'.thr, Tok); SumCong(s.thr, RefOf, s'.thr, RefOf);
    SumCong(s.thr, Chg, s'.thr, Chg); SumCong(s.thr, Pend, s'.thr, Pend);
    SameShape(s, s');
    WakesKeepThreads(s, s');
    WakesKeepQueues(s, s');
    WakesKeepWakeups(s, s');
  }

  lemma WakesKeepWakeups(s: State, s': State)
    requires WakeupOk(s) && TaskletOk(s) && OnlyWakes(s, s')
    ensures WakeupOk(s') && TaskletOk(s')
  {
    if LocalSleeper(s') {
      var j :| j in Q(s', 0) && j < |s'.thr| && s'.thr[j].st.Sleeping?;
      assert j in Q(s, 0) && s.thr[j].st.Sleeping?;
    }
    if Deciding(s'.thr) {
      var k :| 0 <= k < |s'.thr| && Decides(s'.thr[k].pc);
      assert Decides(s.thr[k].pc);
    }
    if SomeFiring(s.thr) {
      var k :| 0 <= k < |s.thr| && s.thr[k].fire.WantCas?;
      assert s'.thr[k].fire.WantCas?;
    }
  }

  lemma WakesKeepThreads(s: State, s': State)
    requires ThreadsOk(s) && OnlyWakes(s, s')
    ensures ThreadsOk(s')
  {
    forall i | 0 <= i < |s'.thr| ensures ThreadOk(s', i) {
      assert ThreadOk(s, i);
      PcSame(s, s', i, s.thr[i], s'.thr[i]);
      SameMark(s, s', s.thr[i].use);
    }
  }

  lemma WakesKeepQueues(s: State, s': State)
    requires QueuesOk(s) && OnlyWakes(s, s')
    ensures QueuesOk(s')
  {
    forall k | 0 <= k < |s'.queues| ensures QueueOk(s'.thr, s'.queues[k], k) {
      assert QueueOk(s.thr, s.queues[k], k);
    }
  }

  lemma WakeOneOnly(s: State, q: nat)
    ensures OnlyWakes(s, WakeOne(s, q))
  {
    WithoutMembers(Q(s, 0), FirstAsleep(s.thr, Q(s, q)));
  }

  lemma {:induction false} AwakeMembers(thr: seq<Thread>, q: seq<nat>)
    ensures forall j :: j in AwakeOf(thr, q) ==> j in q
  {
    if q != [] { AwakeMembers(thr, q[1..]); }
  }

  lemma WakeEveryOnly(s: State, q: nat)
    ensures OnlyWakes(s, WakeEvery(s, q))
  {
    AwakeMembers(s.thr, Q(s, 0));
  }

  /** When nobody accepts the wakeup, nobody in the queue is asleep. */
  lemma {:induction false} NobodyAsleep(thr: seq<Thread>, q: seq<nat>)
    requires FirstAsleep(thr, q) >= |thr|
    ensures forall j :: j in q && j < |thr| ==> thr[j].st.Running?
  {
    if q != [] { NobodyAsleep(thr, q[1..]); }
  }
}
