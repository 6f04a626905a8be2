/** Steps that swap the lock and queue pointers or change the life of an object. */
module CmObjects {
  import opened CmModel
  import opened CmInv
  import opened CmProof
  import opened CmSpecial

  /** What every other task still knows when object o changes from `old` and the attachment may move. */
  ghost predicate Unaffected(s: State, s': State, i: nat, o: Obj) {
    && OnlyTask(s, s', i) && s'.g.mtx == s.g.mtx && s'.locks == s.locks && s'.queues == s.queues
    && |s'.eps| == |s.eps| && |s'.aios| == |s.aios|
    && (forall p :: p != o ==> MarkOf(s', p) == MarkOf(s, p))
    && s'.g.tl == s.g.tl
  }

  /** The pointer swaps run while no other task depends on the old attachment. */
  ghost predicate Swapping(s: State, s': State, i: nat, o: Obj) {
    && Unaffected(s, s', i, o) && s.g.mtx == Thr(i)
    && (s.g.attached.NoObj? || s.g.attached == o)
    && !o.NoObj? && s'.g.attached != s.g.attached
    && (Alive(MarkOf(s, o)) ==> Alive(MarkOf(s', o)))
    && (MarkOf(s, o).Dying? ==> MarkOf(s, o) == Dying(i) && MarkOf(s', o) == Dying(i))
    && !MarkOf(s, o).Bound? && (MarkOf(s, o).Dying? || MarkOf(s, o).Unbound?)
    && (s'.g.attached.NoObj? || s'.g.attached == o)
  }

  lemma SwapOther(s: State, s': State, i: nat, o: Obj, j: nat)
    requires Swapping(s, s', i, o) && Shape(s) && j < |s.thr| && j != i && ThreadOk(s, j)
    ensures ThreadOk(s', j)
  {
    assert s'.thr[j] == s.thr[j];
    assert MarkOf(s', s.thr[j].use) == MarkOf(s, s.thr[j].use) || s.thr[j].use == o;
    SwapPc(s, s', i, o, j, s.thr[j]);
  }

  lemma SwapPc(s: State, s': State, i: nat, o: Obj, j: nat, t: Thread)
    requires Swapping(s, s', i, o) && Shape(s) && j != i && PcOk(s, j, t) && (HoldsMtx(t.pc) ==> s.g.mtx == Thr(j))
    ensures PcOk(s', j, t)
  {
    assert !MarkOf(s, t.use).Bound?;
    if t.pc.DtPut? { assert MarkOf(s', t.pc.o) == MarkOf(s, t.pc.o); }
  }

  lemma SwapKeeps(s: State, s': State, i: nat, o: Obj)
    requires Inv(s) && Swapping(s, s', i, o) && Quiet(s.g.tl) && s.g.active && s'.g.active
    requires ThreadOk(s', i) && Balanced(s, s', s.thr[i], s'.thr[i]) && Shape(s')
    requires forall l :: 0 <= l < |s.queues| && i in s.queues[l] ==> QueuedAt(s'.thr[i].pc, l)
    ensures Inv(s')
  {
    forall j | 0 <= j < |s'.thr| ensures ThreadOk(s', j) {
      if j != i { SwapOther(s, s', i, o, j); }
    }
    Counters(s, s', i);
    QueuesKept(s, s', i);
  }

  lemma SetMarkOthers(s: State, o: Obj, m: Mark)
    requires MarkOf(s, o) != Freed
    ensures MarkOf(SetMark(s, o, m), o) == m
    ensures forall p :: p != o ==> MarkOf(SetMark(s, o, m), p) == MarkOf(s, p)
  {
  }

  /** ep_attach_cmgroup / io_set_cmgroup: the attachment itself, before the waiters are woken. */
  function Bind(s: State, i: nat, o: Obj): State
    requires i < |s.thr|
  {
    var s1 := SetMark(SetPc(s, i, AtObjUnlock(o, true)), o, Bound);
    s1.(g := s1.g.(attached := o, lockp := RemoteOf(o), wqp := RemoteOf(o)))
  }

  lemma BindSwaps(s: State, i: nat)
    requires Pre(s, i) && s.thr[i].pc.AtSet? && MarkOf(s, s.thr[i].pc.o).Unbound?
    ensures Swapping(s, Bind(s, i, s.thr[i].pc.o), i, s.thr[i].pc.o)
    ensures Shape(Bind(s, i, s.thr[i].pc.o))
  {
    var o := s.thr[i].pc.o;
    SetMarkOthers(SetPc(s, i, AtObjUnlock(o, true)), o, Bound);
    var s' := Bind(s, i, o);
    assert forall p :: MarkOf(SetPc(s, i, AtObjUnlock(o, true)), p) == MarkOf(s, p);
    assert forall p :: MarkOf(s', p) == if p == o then Bound else MarkOf(s, p);
  }

  lemma BindLocal(s: State, i: nat)
    requires Pre(s, i) && Exec(s.thr[i]) && s.thr[i].pc.AtSet? && MarkOf(s, s.thr[i].pc.o).Unbound?
    ensures ThreadOk(Bind(s, i, s.thr[i].pc.o), i)
    ensures Balanced(s, Bind(s, i, s.thr[i].pc.o), s.thr[i], Bind(s, i, s.thr[i].pc.o).thr[i])
  {
  }

  lemma AttachKeeps(s: State, i: nat)
    requires Inv(s) && i < |s.thr| && Exec(s.thr[i]) && s.thr[i].pc.AtSet? && MarkOf(s, s.thr[i].pc.o).Unbound?
    ensures Inv(GoAttach(s, i))
  {
    InvPre(s, i);
    var o := s.thr[i].pc.o;
    var s2 := Bind(s, i, o);
    Claimed(s, i);
    BindSwaps(s, i);
    BindLocal(s, i);
    SwapKeeps(s, s2, i, o);
    if o.Ep? {
      WakeEveryOnly(s2, o.e);
      WakesKeep(s2, WakeEvery(s2, o.e));
    }
  }

  lemma DtSetSwaps(s: State, i: nat)
    requires Pre(s, i) && s.thr[i].pc.DtSet?
    ensures Swapping(s, GoDetach(s, i), i, s.thr[i].pc.o)
    ensures Shape(GoDetach(s, i))
  {
    assert forall p :: MarkOf(GoDetach(s, i), p) == MarkOf(s, p);
  }

  lemma DtSetLocal(s: State, i: nat)
    requires Pre(s, i) && Exec(s.thr[i]) && s.thr[i].pc.DtSet?
    ensures ThreadOk(GoDetach(s, i), i)
  {
  }

  lemma DtSetBalanced(s: State, i: nat)
    requires Pre(s, i) && Exec(s.thr[i]) && s.thr[i].pc.DtSet?
    ensures Balanced(s, GoDetach(s, i), s.thr[i], GoDetach(s, i).thr[i])
  {
  }

  lemma DtSetKeeps(s: State, i: nat)
    requires Inv(s) && i < |s.thr| && Exec(s.thr[i]) && s.thr[i].pc.DtSet?
    ensures Inv(GoDetach(s, i))
  {
    InvPre(s, i);
    Claimed(s, i);
    DtSetSwaps(s, i);
    DtSetLocal(s, i);
    DtSetBalanced(s, i);
    SwapKeeps(s, GoDetach(s, i), i, s.thr[i].pc.o);
  }

  // ---- an object starts dying, or is freed --------------------------------------------------

  /** Object o changes its mark while no other task uses it or is detaching it. */
  ghost predicate Retiring(s: State, s': State, i: nat, o: Obj) {
    && Unaffected(s, s', i, o) && s'.g.attached == s.g.attached && s'.g.lockp == s.g.lockp && s'.g.wqp == s.g.wqp
    && s'.g.action == s.g.action && !o.NoObj?
    && (forall j :: 0 <= j < |s.thr| && j != i ==> s.thr[j].use != o)
    && (MarkOf(s, o).Dying? ==> MarkOf(s, o) == Dying(i))
  }

  lemma RetireOther(s: State, s': State, i: nat, o: Obj, j: nat)
    requires Retiring(s, s', i, o) && j < |s.thr| && j != i && ThreadOk(s, j)
    ensures ThreadOk(s', j)
  {
    assert s'.thr[j] == s.thr[j];
    RetirePc(s, s', i, o, j, s.thr[j]);
  }

  lemma RetirePc(s: State, s': State, i: nat, o: Obj, j: nat, t: Thread)
    requires Retiring(s, s', i, o) && j != i && t.use != o && PcOk(s, j, t)
    ensures PcOk(s', j, t)
  {
    assert MarkOf(s', t.use) == MarkOf(s, t.use);
  }

  lemma RetireKeeps(s: State, s': State, i: nat, o: Obj)
    requires Inv(s) && Retiring(s, s', i, o) && Shape(s') && ThreadOk(s', i)
    requires Balanced(s, s', s.thr[i], s'.thr[i]) && Careful(s, s', s.thr[i], s'.thr[i])
    requires forall l :: 0 <= l < |s.queues| && i in s.queues[l] ==> QueuedAt(s'.thr[i].pc, l)
    requires s'.thr[i].st == s.thr[i].st
    ensures Inv(s')
  {
    forall j | 0 <= j < |s'.thr| ensures ThreadOk(s', j) {
      if j != i { RetireOther(s, s', i, o, j); }
    }
    Counters(s, s', i);
    QueuesKept(s, s', i);
    SleeperKept(s, s', i);
    WakeupKept(s, s', i);
  }

  lemma DtPutLocal(s: State, i: nat)
    requires Pre(s, i) && Exec(s.thr[i]) && s.thr[i].pc.DtPut?
    requires forall j :: 0 <= j < |s.thr| ==> !s.thr[j].use.NoObj? ==> Alive(MarkOf(s, s.thr[j].use))
    ensures Retiring(s, GoDetach(s, i), i, s.thr[i].pc.o)
    ensures Shape(GoDetach(s, i))
  {
    var o := s.thr[i].pc.o;
    SetMarkOthers(SetPc(s, i, Idle).(g := s.g.(kref := s.g.kref - 1)), o, Freed);
    assert forall p :: MarkOf(SetPc(s, i, Idle).(g := s.g.(kref := s.g.kref - 1)), p) == MarkOf(s, p);
    assert forall p :: MarkOf(GoDetach(s, i), p) == if p == o then Freed else MarkOf(s, p);
  }

  lemma DtPutThread(s: State, i: nat)
    requires Pre(s, i) && Exec(s.thr[i]) && s.thr[i].pc.DtPut?
    ensures ThreadOk(GoDetach(s, i), i)
  {
    assert s.thr[i].use != s.thr[i].pc.o;
    assert GoDetach(s, i).thr[i] == s.thr[i].(pc := Idle);
    assert MarkOf(GoDetach(s, i), s.thr[i].use) == MarkOf(s, s.thr[i].use);
  }

  lemma DtPutCounters(s: State, i: nat)
    requires Pre(s, i) && Exec(s.thr[i]) && s.thr[i].pc.DtPut?
    ensures Balanced(s, GoDetach(s, i), s.thr[i], GoDetach(s, i).thr[i])
    ensures Careful(s, GoDetach(s, i), s.thr[i], GoDetach(s, i).thr[i])
  {
    assert GoDetach(s, i).thr[i] == s.thr[i].(pc := Idle);
    assert GoDetach(s, i).g == s.g.(kref := s.g.kref - 1);
  }

  lemma DtPutKeeps(s: State, i: nat)
    requires Inv(s) && i < |s.thr| && Exec(s.thr[i]) && s.thr[i].pc.DtPut?
    ensures Inv(GoDetach(s, i))
  {
    InvPre(s, i);
    UsersAlive(s);
    DtPutLocal(s, i);
    DtPutThread(s, i);
    DtPutCounters(s, i);
    RetireKeeps(s, GoDetach(s, i), i, s.thr[i].pc.o);
  }

  lemma UsersAlive(s: State)
    requires ThreadsOk(s)
    ensures forall j :: 0 <= j < |s.thr| ==> !s.thr[j].use.NoObj? ==> Alive(MarkOf(s, s.thr[j].use))
  {
    forall j | 0 <= j < |s.thr| ensures !s.thr[j].use.NoObj? ==> Alive(MarkOf(s, s.thr[j].use)) {
      assert ThreadOk(s, j);
    }
  }

  lemma CallDetachLocal(s: State, i: nat)
    requires Pre(s, i) && DoCallDetach(s, i) != s
    ensures Retiring(s, DoCallDetach(s, i), i, s.g.attached)
    ensures Shape(DoCallDetach(s, i))
  {
    var o := s.g.attached;
    SetMarkOthers(SetPc(s, i, DtMtx(o)), o, Dying(i));
    assert forall p :: MarkOf(SetPc(s, i, DtMtx(o)), p) == MarkOf(s, p);
    assert forall p :: MarkOf(DoCallDetach(s, i), p) == if p == o then Dying(i) else MarkOf(s, p);
  }

  lemma CallDetachThread(s: State, i: nat)
    requires Pre(s, i) && DoCallDetach(s, i) != s
    ensures ThreadOk(DoCallDetach(s, i), i)
    ensures Balanced(s, DoCallDetach(s, i), s.thr[i], DoCallDetach(s, i).thr[i])
    ensures Careful(s, DoCallDetach(s, i), s.thr[i], DoCallDetach(s, i).thr[i])
    ensures DoCallDetach(s, i).thr[i].st == s.thr[i].st
    ensures forall l :: 0 <= l < |s.queues| ==> i !in s.queues[l]
  {
  }

  lemma CallDetachKeeps(s: State, i: nat)
    requires Inv(s)
    ensures Inv(DoCallDetach(s, i))
  {
    if DoCallDetach(s, i) != s {
      InvPre(s, i);
      CallDetachLocal(s, i);
      CallDetachThread(s, i);
      RetireKeeps(s, DoCallDetach(s, i), i, s.g.attached);
    }
  }

  // ---- objects of other groups --------------------------------------------------------------

  /** Another group's object changes; nobody here depends on it. */
  lemma ForeignKeeps(s: State, o: Obj, m: Mark)
    requires Inv(s) && (MarkOf(s, o).Unbound? || MarkOf(s, o).Foreign?)
    requires m.Foreign? || (m.Freed? && Unused(s, o))
    ensures Inv(SetMark(s, o, m))
  {
    var s' := SetMark(s, o, m);
    SetMarkOthers(s, o, m);
    forall j | 0 <= j < |s'.thr| ensures ThreadOk(s', j) {
      assert ThreadOk(s, j);
      assert MarkOf(s', s.thr[j].use) == MarkOf(s, s.thr[j].use) || s.thr[j].use == o;
      ForeignPc(s, o, m, j, s.thr[j]);
    }
    assert Shape(s');
    assert WakeupOk(s');
  }

  lemma ForeignPc(s: State, o: Obj, m: Mark, j: nat, t: Thread)
    requires (MarkOf(s, o).Unbound? || MarkOf(s, o).Foreign?) && PcOk(s, j, t)
    ensures PcOk(SetMark(s, o, m), j, t)
  {
    SetMarkOthers(s, o, m);
    assert MarkOf(s, t.use).Bound? ==> t.use != o;
  }
}
