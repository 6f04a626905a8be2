/** Every step keeps the invariant: steps that change one task and a few scalars. */
module CmProof {
  import opened CmModel
  import opened CmInv
  import opened SeqSums

  /** How the four conserved sums move when one task changes. */
  lemma Upd(thr: seq<Thread>, i: nat, t: Thread)
    requires i < |thr|
    ensures Sum(thr[i := t], Tok) == Sum(thr, Tok) - Tok(thr[i]) + Tok(t)
    ensures Sum(thr[i := t], RefOf) == Sum(thr, RefOf) - RefOf(thr[i]) + RefOf(t)
    ensures Sum(thr[i := t], Chg) == Sum(thr, Chg) - Chg(thr[i]) + Chg(t)
    ensures Sum(thr[i := t], Pend) == Sum(thr, Pend) - Pend(thr[i]) + Pend(t)
  {
    SumUpdate(thr, i, t, Tok); SumUpdate(thr, i, t, RefOf); SumUpdate(thr, i, t, Chg); SumUpdate(thr, i, t, Pend);
  }

  /** Task i alone moved, and no lock or mutex was taken from another owner. */
  ghost predicate OnlyTask(s: State, s': State, i: nat) {
    && i < |s.thr| && |s'.thr| == |s.thr| && s'.thr == s.thr[i := s'.thr[i]]
    && |s'.locks| == |s.locks|
    && (forall l :: 0 <= l < |s.locks| ==> s'.locks[l] == s.locks[l] || s.locks[l] == Thr(i) || s.locks[l] == Nobody)
    && (s'.g.mtx == s.g.mtx || s.g.mtx == Thr(i) || s.g.mtx == Nobody)
  }

  ghost predicate SamePointers(s: State, s': State) {
    && s'.eps == s.eps && s'.aios == s.aios
    && s'.g.lockp == s.g.lockp && s'.g.wqp == s.g.wqp && s'.g.attached == s.g.attached
  }

  /** With the same pointers, the facts at a program counter carry over. */
  lemma PcSame(s: State, s': State, i: nat, t: Thread, t': Thread)
    requires SamePointers(s, s') && (Quiet(s.g.tl) ==> Quiet(s'.g.tl))
    requires t'.pc == t.pc && t'.use == t.use && PcOk(s, i, t)
    ensures PcOk(s', i, t')
  {
    assert forall o :: MarkOf(s', o) == MarkOf(s, o);
  }

  lemma SameMark(s: State, s': State, o: Obj)
    requires s'.eps == s.eps && s'.aios == s.aios
    ensures MarkOf(s', o) == MarkOf(s, o)
  {
  }

  /** The other tasks keep their local invariant. */
  lemma Others(s: State, s': State, i: nat)
    requires ThreadsOk(s) && OnlyTask(s, s', i) && SamePointers(s, s')
    requires Quiet(s.g.tl) ==> Quiet(s'.g.tl)
    ensures forall j :: 0 <= j < |s.thr| && j != i ==> ThreadOk(s', j)
  {
    forall j | 0 <= j < |s.thr| && j != i ensures ThreadOk(s', j) {
      assert ThreadOk(s, j) && s'.thr[j] == s.thr[j];
      PcSame(s, s', j, s.thr[j], s'.thr[j]);
      SameMark(s, s', s.thr[j].use);
    }
  }

  /** The change of each counter is the change of one thread's weight. */
  ghost predicate Balanced(s: State, s': State, t: Thread, t': Thread) {
    && B(s'.g.active) - B(s.g.active) == TlTok(s') - TlTok(s) + Tok(t') - Tok(t)
    && s'.g.kref - s.g.kref
       == B(s'.g.file) - B(s.g.file) + B(!s'.g.attached.NoObj?) - B(!s.g.attached.NoObj?)
          + B(s'.g.sched) - B(s.g.sched) + TlRef(s'.g.tl) - TlRef(s.g.tl) + RefOf(t') - RefOf(t)
    && (s'.g.available - s.g.available) - (s'.g.cv - s.g.cv) == Chg(t) - Chg(t') + Pend(t) - Pend(t')
  }

  lemma Counters(s: State, s': State, i: nat)
    requires TokenOk(s) && RefOk(s) && AccOk(s)
    requires i < |s.thr| && i < |s'.thr| && s'.thr == s.thr[i := s'.thr[i]] && Balanced(s, s', s.thr[i], s'.thr[i])
    ensures TokenOk(s') && RefOk(s') && AccOk(s')
  {
    Upd(s.thr, i, s'.thr[i]);
  }

  predicate Decides(pc: Pc) { pc.WAdd? || pc.EkReq? || pc.EcReq? }

  /** A rise to an opening fires, a new decision saw none, and nothing owed is dropped. */
  ghost predicate Careful(s: State, s': State, t: Thread, t': Thread) {
    && (s'.g.available >= 1 && s.g.available <= 0 ==> t'.fire.WantCas?)
    && (Decides(t'.pc) && !Decides(t.pc) ==> s'.g.available <= 0)
    && (s.g.active ==> s'.g.active || t'.fire.WantCas?)
    && (t.fire.WantCas? ==> t'.fire.WantCas? || s'.g.active)
    && (s.g.sched ==> s'.g.sched)
  }

  lemma OwedKept(s: State, s': State, i: nat)
    requires OnlyTask(s, s', i) && s'.g.tl == s.g.tl && Owed(s) && Careful(s, s', s.thr[i], s'.thr[i])
    ensures Owed(s')
  {
    if SomeFiring(s.thr) {
      var k :| 0 <= k < |s.thr| && s.thr[k].fire.WantCas?;
      if k != i { assert s'.thr[k].fire.WantCas?; } else if s'.thr[i].fire.WantCas? { assert SomeFiring(s'.thr); }
    } else if s'.thr[i].fire.WantCas? {
      assert SomeFiring(s'.thr);
    }
  }

  lemma WakeupKept(s: State, s': State, i: nat)
    requires WakeupOk(s) && OnlyTask(s, s', i) && Careful(s, s', s.thr[i], s'.thr[i])
    requires s'.g.tl == s.g.tl
    requires s'.g.lockp == 0 && LocalSleeper(s') ==> (s.g.lockp == 0 && LocalSleeper(s)) || Decides(s.thr[i].pc)
    requires s'.g.action.ResetWakeOne? ==> s.g.action.ResetWakeOne? || Decides(s.thr[i].pc)
    ensures WakeupOk(s')
  {
    if s'.g.available >= 1 && Needed(s') {
      if s.g.available <= 0 {
        assert SomeFiring(s'.thr);
      } else {
        if Decides(s.thr[i].pc) {
          assert Deciding(s.thr);
        } else if Deciding(s'.thr) {
          var k :| 0 <= k < |s'.thr| && Decides(s'.thr[k].pc);
          assert Decides(s.thr[k].pc);
          assert Deciding(s.thr);
        }
        OwedKept(s, s', i);
      }
    }
  }

  /** A sleeper in the group's own queue after the step was one before it. */
  lemma SleeperKept(s: State, s': State, i: nat)
    requires OnlyTask(s, s', i) && s'.queues == s.queues
    requires s'.thr[i].st.Sleeping? ==> s.thr[i].st.Sleeping? || i !in Q(s, 0)
    ensures LocalSleeper(s') ==> LocalSleeper(s)
  {
    if LocalSleeper(s') {
      var j :| j in Q(s', 0) && j < |s'.thr| && s'.thr[j].st.Sleeping?;
      assert j in Q(s, 0) && s.thr[j].st.Sleeping?;
    }
  }

  lemma QueuesKept(s: State, s': State, i: nat)
    requires QueuesOk(s) && OnlyTask(s, s', i) && s'.queues == s.queues
    requires forall l :: 0 <= l < |s.queues| && i in s.queues[l] ==> QueuedAt(s'.thr[i].pc, l)
    ensures QueuesOk(s')
  {
    forall l | 0 <= l < |s'.queues| ensures QueueOk(s'.thr, s'.queues[l], l) {
      assert QueueOk(s.thr, s.queues[l], l);
    }
  }

  /** A step that changes one task, its locks and counters, and nothing else. */
  ghost predicate Local(s: State, s': State, i: nat) {
    && OnlyTask(s, s', i) && SamePointers(s, s')
    && s'.queues == s.queues && s'.g.action == s.g.action && s'.g.tl == s.g.tl
    && ThreadOk(s', i)
    && (forall l :: 0 <= l < |s.queues| && i in s.queues[l] ==> QueuedAt(s'.thr[i].pc, l))
    && (s'.thr[i].st.Sleeping? ==> s.thr[i].st.Sleeping? || i !in Q(s, 0))
    && Balanced(s, s', s.thr[i], s'.thr[i]) && Careful(s, s', s.thr[i], s'.thr[i])
  }

  lemma LocalStep(s: State, s': State, i: nat)
    requires Inv(s) && Local(s, s', i)
    ensures Inv(s')
  {
    Others(s, s', i);
    Counters(s, s', i);
    SleeperKept(s, s', i);
    WakeupKept(s, s', i);
    QueuesKept(s, s', i);
    SameMarks(s, s');
  }

  lemma SameMarks(s: State, s': State)
    requires Shape(s) && SamePointers(s, s') && s'.queues == s.queues && |s'.locks| == |s.locks|
    requires s'.g.action == s.g.action
    ensures Shape(s')
  {
    assert forall o :: MarkOf(s', o) == MarkOf(s, o);
  }

  /** What a step of task i may assume: its own local invariant, the pointers, and its queue entries. */
  ghost predicate Pre(s: State, i: nat) {
    && i < |s.thr| && ThreadOk(s, i) && Shape(s)
    && (forall l :: 0 <= l < |s.queues| && i in s.queues[l] ==> QueuedAt(s.thr[i].pc, l))
  }

  lemma InvPre(s: State, i: nat)
    requires Inv(s) && i < |s.thr|
    ensures Pre(s, i)
  {
    forall l | 0 <= l < |s.queues| && i in s.queues[l] ensures QueuedAt(s.thr[i].pc, l) {
      assert QueueOk(s.thr, s.queues[l], l);
    }
  }
}
