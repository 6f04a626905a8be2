/** Steps that touch one task, its locks and the counters satisfy the local conditions. */
module CmLocal {
  import opened CmModel
  import opened CmInv
  import opened CmProof

  lemma PutCallLocal(s: State, i: nat)
    requires Pre(s, i) && Exec(s.thr[i]) && s.thr[i].pc.PutCall?
    ensures GoAssoc(s, i) == s || Local(s, GoAssoc(s, i), i)
  {}

  lemma AsEnterLocal(s: State, i: nat)
    requires Pre(s, i) && Exec(s.thr[i]) && s.thr[i].pc.AsEnter?
    ensures GoAssoc(s, i) == s || Local(s, GoAssoc(s, i), i)
  {}

  lemma AsSetLocal(s: State, i: nat)
    requires Pre(s, i) && Exec(s.thr[i]) && s.thr[i].pc.AsSet?
    ensures GoAssoc(s, i) == s || Local(s, GoAssoc(s, i), i)
  {}

  lemma AsChargeLocal(s: State, i: nat)
    requires Pre(s, i) && Exec(s.thr[i]) && s.thr[i].pc.AsCharge?
    ensures GoAssoc(s, i) == s || Local(s, GoAssoc(s, i), i)
  {}

  lemma DsClearLocal(s: State, i: nat)
    requires Pre(s, i) && Exec(s.thr[i]) && s.thr[i].pc.DsClear?
    ensures GoAssoc(s, i) == s || Local(s, GoAssoc(s, i), i)
  {}

  lemma CvMtxLocal(s: State, i: nat)
    requires Pre(s, i) && Exec(s.thr[i]) && s.thr[i].pc.CvMtx?
    ensures GoSetCv(s, i) == s || Local(s, GoSetCv(s, i), i)
  {}

  lemma CvLockLocal(s: State, i: nat)
    requires Pre(s, i) && Exec(s.thr[i]) && s.thr[i].pc.CvLock?
    ensures GoSetCv(s, i) == s || Local(s, GoSetCv(s, i), i)
  {}

  lemma CvWriteLocal(s: State, i: nat)
    requires Pre(s, i) && Exec(s.thr[i]) && s.thr[i].pc.CvWrite?
    ensures GoSetCv(s, i) == s || Local(s, GoSetCv(s, i), i)
  {}

  lemma CvAddLocal(s: State, i: nat)
    requires Pre(s, i) && Exec(s.thr[i]) && s.thr[i].pc.CvAdd?
    ensures GoSetCv(s, i) == s || Local(s, GoSetCv(s, i), i)
  {}

  lemma CvUnlockLocal(s: State, i: nat)
    requires Pre(s, i) && Exec(s.thr[i]) && s.thr[i].pc.CvUnlock?
    ensures GoSetCv(s, i) == s || Local(s, GoSetCv(s, i), i)
  {}

  lemma CvMtxPutLocal(s: State, i: nat)
    requires Pre(s, i) && Exec(s.thr[i]) && s.thr[i].pc.CvMtxPut?
    ensures GoSetCv(s, i) == s || Local(s, GoSetCv(s, i), i)
  {}

  lemma AtMtxLocal(s: State, i: nat)
    requires Pre(s, i) && Exec(s.thr[i]) && s.thr[i].pc.AtMtx?
    ensures GoAttach(s, i) == s || Local(s, GoAttach(s, i), i)
  {}

  lemma AtCheckLocal(s: State, i: nat)
    requires Pre(s, i) && Exec(s.thr[i]) && s.thr[i].pc.AtCheck?
    ensures GoAttach(s, i) == s || Local(s, GoAttach(s, i), i)
  {}

  lemma AtMtxPutLocal(s: State, i: nat)
    requires Pre(s, i) && Exec(s.thr[i]) && s.thr[i].pc.AtMtxPut?
    ensures GoAttach(s, i) == s || Local(s, GoAttach(s, i), i)
  {}

  lemma AtObjLockLocal(s: State, i: nat)
    requires Pre(s, i) && Exec(s.thr[i]) && s.thr[i].pc.AtObjLock?
    ensures GoAttach(s, i) == s || Local(s, GoAttach(s, i), i)
  {}

  lemma AtObjUnlockLocal(s: State, i: nat)
    requires Pre(s, i) && Exec(s.thr[i]) && s.thr[i].pc.AtObjUnlock?
    ensures GoAttach(s, i) == s || Local(s, GoAttach(s, i), i)
  {}

  lemma LoCasLocal(s: State, i: nat)
    requires Pre(s, i) && Exec(s.thr[i]) && s.thr[i].pc.LoCas?
    ensures GoLockout(s, i) == s || Local(s, GoLockout(s, i), i)
  {}

  lemma LoLockLocal(s: State, i: nat)
    requires Pre(s, i) && Exec(s.thr[i]) && s.thr[i].pc.LoLock?
    ensures GoLockout(s, i) == s || Local(s, GoLockout(s, i), i)
  {}

  lemma UnloClearLocal(s: State, i: nat)
    requires Pre(s, i) && Exec(s.thr[i]) && s.thr[i].pc.UnloClear? && s.g.active
    ensures GoLockout(s, i) == s || Local(s, GoLockout(s, i), i)
  {}

  lemma LoMtxPutLocal(s: State, i: nat)
    requires Pre(s, i) && Exec(s.thr[i]) && s.thr[i].pc.LoMtxPut?
    ensures GoLockout(s, i) == s || Local(s, GoLockout(s, i), i)
  {
    if s.thr[i].pc.k.Detaching? { LoMtxPutDetachLocal(s, i); } else { LoMtxPutAttachLocal(s, i); }
  }

  lemma LoMtxPutDetachLocal(s: State, i: nat)
    requires Pre(s, i) && Exec(s.thr[i]) && s.thr[i].pc.LoMtxPut? && s.thr[i].pc.k.Detaching?
    ensures GoLockout(s, i) == s || Local(s, GoLockout(s, i), i)
  {}

  lemma LoMtxPutAttachLocal(s: State, i: nat)
    requires Pre(s, i) && Exec(s.thr[i]) && s.thr[i].pc.LoMtxPut? && !s.thr[i].pc.k.Detaching?
    ensures GoLockout(s, i) == s || Local(s, GoLockout(s, i), i)
  {}

  lemma DtMtxLocal(s: State, i: nat)
    requires Pre(s, i) && Exec(s.thr[i]) && s.thr[i].pc.DtMtx?
    ensures GoDetach(s, i) == s || Local(s, GoDetach(s, i), i)
  {}

  lemma DtLockLocal(s: State, i: nat)
    requires Pre(s, i) && Exec(s.thr[i]) && s.thr[i].pc.DtLock?
    ensures GoDetach(s, i) == s || Local(s, GoDetach(s, i), i)
  {}

  lemma DtUnlockLocal(s: State, i: nat)
    requires Pre(s, i) && Exec(s.thr[i]) && s.thr[i].pc.DtUnlock?
    ensures GoDetach(s, i) == s || Local(s, GoDetach(s, i), i)
  {}

  lemma WTopLocal(s: State, i: nat, choice: bool)
    requires Pre(s, i) && Exec(s.thr[i]) && s.thr[i].pc.WTop?
    ensures GoWait(s, i, choice) == s || Local(s, GoWait(s, i, choice), i)
  {}

  lemma WLockLocal(s: State, i: nat, choice: bool)
    requires Pre(s, i) && Exec(s.thr[i]) && s.thr[i].pc.WLock?
    ensures GoWait(s, i, choice) == s || Local(s, GoWait(s, i, choice), i)
  {}

  lemma WCheckLocal(s: State, i: nat, choice: bool)
    requires Pre(s, i) && Exec(s.thr[i]) && s.thr[i].pc.WCheck?
    ensures GoWait(s, i, choice) == s || Local(s, GoWait(s, i, choice), i)
  {}

  lemma WDropLocal(s: State, i: nat, choice: bool)
    requires Pre(s, i) && Exec(s.thr[i]) && s.thr[i].pc.WDrop?
    ensures GoWait(s, i, choice) == s || Local(s, GoWait(s, i, choice), i)
  {}

  lemma WUnlockLocal(s: State, i: nat, choice: bool)
    requires Pre(s, i) && Exec(s.thr[i]) && s.thr[i].pc.WUnlock?
    ensures GoWait(s, i, choice) == s || Local(s, GoWait(s, i, choice), i)
  {}

  lemma WSleepLocal(s: State, i: nat, choice: bool)
    requires Pre(s, i) && Exec(s.thr[i]) && s.thr[i].pc.WSleep?
    ensures GoWait(s, i, choice) == s || Local(s, GoWait(s, i, choice), i)
  {}

  lemma WFinishLocal(s: State, i: nat, choice: bool)
    requires Pre(s, i) && Exec(s.thr[i]) && s.thr[i].pc.WFinish?
    ensures GoWait(s, i, choice) == s || Local(s, GoWait(s, i, choice), i)
  {}

  lemma WRmLockLocal(s: State, i: nat, choice: bool)
    requires Pre(s, i) && Exec(s.thr[i]) && s.thr[i].pc.WRmLock?
    ensures GoWait(s, i, choice) == s || Local(s, GoWait(s, i, choice), i)
  {}

  lemma EkLockLocal(s: State, i: nat)
    requires Pre(s, i) && Exec(s.thr[i]) && s.thr[i].pc.EkLock?
    ensures GoEpWake(s, i) == s || Local(s, GoEpWake(s, i), i)
  {}

  lemma EkCheckRequestLocal(s: State, i: nat)
    requires Pre(s, i) && Exec(s.thr[i]) && s.thr[i].pc.EkCheck?
    requires GoEpWake(s, i) == SetPc(s, i, EkReq(s.thr[i].pc.e))
    ensures Local(s, SetPc(s, i, EkReq(s.thr[i].pc.e)), i)
  {}

  lemma EkCheckEmptyLocal(s: State, i: nat)
    requires Pre(s, i) && Exec(s.thr[i]) && s.thr[i].pc.EkCheck?
    ensures Local(s, SetPc(s, i, EkUnlock(s.thr[i].pc.e)), i)
  {}

  lemma EkCheckWakeLocal(s: State, i: nat)
    requires Pre(s, i) && Exec(s.thr[i]) && s.thr[i].pc.EkCheck?
    ensures Local(s, SetPc(s, i, EkWake(s.thr[i].pc.e)), i)
  {}

  lemma EkUnlockLocal(s: State, i: nat)
    requires Pre(s, i) && Exec(s.thr[i]) && s.thr[i].pc.EkUnlock?
    ensures GoEpWake(s, i) == s || Local(s, GoEpWake(s, i), i)
  {}

  lemma EcLockLocal(s: State, i: nat, choice: bool)
    requires Pre(s, i) && Exec(s.thr[i]) && s.thr[i].pc.EcLock?
    ensures GoEpWait(s, i, choice) == s || Local(s, GoEpWait(s, i, choice), i)
  {}

  lemma EcCheckLocal(s: State, i: nat, choice: bool)
    requires Pre(s, i) && Exec(s.thr[i]) && s.thr[i].pc.EcCheck?
    ensures GoEpWait(s, i, choice) == s || Local(s, GoEpWait(s, i, choice), i)
  {}

  lemma EcUnlockLocal(s: State, i: nat, choice: bool)
    requires Pre(s, i) && Exec(s.thr[i]) && s.thr[i].pc.EcUnlock?
    ensures GoEpWait(s, i, choice) == s || Local(s, GoEpWait(s, i, choice), i)
  {}

  lemma EcSleepLocal(s: State, i: nat, choice: bool)
    requires Pre(s, i) && Exec(s.thr[i]) && s.thr[i].pc.EcSleep?
    ensures GoEpWait(s, i, choice) == s || Local(s, GoEpWait(s, i, choice), i)
  {}

  lemma EcRelockLocal(s: State, i: nat, choice: bool)
    requires Pre(s, i) && Exec(s.thr[i]) && s.thr[i].pc.EcRelock?
    ensures GoEpWait(s, i, choice) == s || Local(s, GoEpWait(s, i, choice), i)
  {}

  lemma AtSetRefusedLocal(s: State, i: nat)
    requires Pre(s, i) && Exec(s.thr[i]) && s.thr[i].pc.AtSet? && !MarkOf(s, s.thr[i].pc.o).Unbound?
    ensures Local(s, GoAttach(s, i), i)
  {
  }

  lemma LoUnlockLocal(s: State, i: nat)
    requires Pre(s, i) && Exec(s.thr[i]) && s.thr[i].pc.LoUnlock? && Quiet(s.g.tl)
    ensures Local(s, GoLockout(s, i), i)
  {
  }

  lemma DtQueueLocal(s: State, i: nat)
    requires Pre(s, i) && Exec(s.thr[i]) && s.thr[i].pc.DtQueue? && !(s.g.wqp == 0 && Q(s, 0) != [])
    ensures Local(s, GoDetach(s, i), i)
  {
  }

  lemma EcReqSignalLocal(s: State, i: nat)
    requires Pre(s, i) && Exec(s.thr[i]) && s.thr[i].pc.EcReq?
    ensures Local(s, GoEpWait(s, i, true), i)
  {
  }

  /** The parts of the local invariant that depend on more than the program counter. */
  ghost predicate Bookkeeping(t: Thread) {
    && (t.rq.OffRq? ==> Blockable(t.pc) || t.pc.WSleep? || t.pc.EcSleep?)
    && (!t.fire.NoFire? ==> (t.rq.OffRq? && t.assoc.This?) || t.pc.DsClear? || t.pc.CvUnlock? || t.pc.LoMtxPut?)
    && (t.assoc.This? ==> (t.charged <==> !t.rq.OffRq? && !t.pc.AsCharge? && !t.pc.DsClear?))
    && (t.pc.AsSet? ==> !t.assoc.This?)
    && (t.pc.AsCharge? || t.pc.DsClear? ==> t.assoc.This?)
  }

  /** A step that leaves the program counter and the object in use alone. */
  lemma SamePc(s: State, g: Group, i: nat, t: Thread)
    requires Pre(s, i) && t.pc == s.thr[i].pc && t.use == s.thr[i].use && Bookkeeping(t)
    requires var s' := s.(thr := s.thr[i := t], g := g);
             && SamePointers(s, s') && g.action == s.g.action && g.tl == s.g.tl && g.mtx == s.g.mtx
             && Balanced(s, s', s.thr[i], t) && Careful(s, s', s.thr[i], t)
    requires t.st.Sleeping? ==> s.thr[i].st.Sleeping? || i !in Q(s, 0)
    ensures Local(s, s.(thr := s.thr[i := t], g := g), i)
  {
    PcSame(s, s.(thr := s.thr[i := t], g := g), i, s.thr[i], t);
  }

  lemma FireCasLocal(s: State, i: nat)
    requires Pre(s, i) && s.thr[i].fire.WantCas?
    ensures Local(s, DoFire(s, i), i)
  {
    SamePc(s, DoFire(s, i).g, i, DoFire(s, i).thr[i]);
  }

  lemma FireRefLocal(s: State, i: nat)
    requires Pre(s, i) && s.thr[i].fire.GotCas?
    ensures Local(s, DoFire(s, i), i)
  {
    SamePc(s, DoFire(s, i).g, i, DoFire(s, i).thr[i]);
  }

  lemma FireScheduleLocal(s: State, i: nat)
    requires Pre(s, i) && s.thr[i].fire.GotRef? && !s.g.sched
    ensures Local(s, DoFire(s, i), i)
  {
    SamePc(s, DoFire(s, i).g, i, DoFire(s, i).thr[i]);
  }

  lemma SleepLocal(s: State, i: nat)
    requires Pre(s, i)
    ensures DoSleep(s, i) == s || Local(s, DoSleep(s, i), i)
  {
    if DoSleep(s, i) != s { SamePc(s, DoSleep(s, i).g, i, DoSleep(s, i).thr[i]); }
  }

  lemma EnqueueLocal(s: State, i: nat)
    requires Pre(s, i)
    ensures DoEnqueue(s, i) == s || Local(s, DoEnqueue(s, i), i)
  {
    if DoEnqueue(s, i) != s { SamePc(s, DoEnqueue(s, i).g, i, DoEnqueue(s, i).thr[i]); }
  }

  lemma MigrateLocal(s: State, i: nat)
    requires Pre(s, i)
    ensures DoMigrate(s, i) == s || Local(s, DoMigrate(s, i), i)
  {
    if !s.thr[i].rq.OffRq? { SamePc(s, s.g, i, DoMigrate(s, i).thr[i]); }
  }

  lemma WakeLocal(s: State, i: nat)
    requires Pre(s, i)
    ensures Local(s, DoWake(s, i), i)
  {
    SamePc(s, s.g, i, s.thr[i].(st := Running));
  }

  lemma SetStateLocal(s: State, i: nat)
    requires Pre(s, i) && Exec(s.thr[i]) && Blockable(s.thr[i].pc)
    ensures Local(s, DoSetState(s, i), i)
  {
    SamePc(s, s.g, i, s.thr[i].(st := Sleeping));
  }

  lemma CallCloseLocal(s: State, i: nat)
    requires Pre(s, i)
    ensures DoCallClose(s, i) == s || Local(s, DoCallClose(s, i), i)
  {
  }

  lemma EnterObjLocal(s: State, i: nat, o: Obj)
    requires Pre(s, i)
    ensures DoEnterObj(s, i, o) == s || Local(s, DoEnterObj(s, i, o), i)
  {
  }

  lemma LeaveObjLocal(s: State, i: nat)
    requires Pre(s, i)
    ensures DoLeaveObj(s, i) == s || Local(s, DoLeaveObj(s, i), i)
  {
  }

  lemma OtherGroupLocal(s: State, i: nat)
    requires Pre(s, i)
    ensures DoOtherGroup(s, i) == s || Local(s, DoOtherGroup(s, i), i)
  {
  }

  lemma CallAssocLocal(s: State, i: nat)
    requires Pre(s, i)
    ensures DoCallAssoc(s, i) == s || Local(s, DoCallAssoc(s, i), i)
  {
  }

  lemma CallAssocObjLocal(s: State, i: nat)
    requires Pre(s, i)
    ensures DoCallAssocObj(s, i) == s || Local(s, DoCallAssocObj(s, i), i)
  {
  }

  lemma CallWaitLocal(s: State, i: nat)
    requires Pre(s, i)
    ensures DoCallWait(s, i) == s || Local(s, DoCallWait(s, i), i)
  {
  }

  lemma CallEpWaitLocal(s: State, i: nat, cm: bool)
    requires Pre(s, i)
    ensures DoCallEpWait(s, i, cm) == s || Local(s, DoCallEpWait(s, i, cm), i)
  {
  }

  lemma CallEpWakeLocal(s: State, i: nat)
    requires Pre(s, i)
    ensures DoCallEpWake(s, i) == s || Local(s, DoCallEpWake(s, i), i)
  {
  }

  lemma CallDissocLocal(s: State, i: nat)
    requires Pre(s, i)
    ensures DoCallDissoc(s, i) == s || Local(s, DoCallDissoc(s, i), i)
  {
  }

  lemma CallSetCvLocal(s: State, i: nat, n: int)
    requires Pre(s, i)
    ensures DoCallSetCv(s, i, n) == s || Local(s, DoCallSetCv(s, i, n), i)
  {
  }

  lemma CallAttachLocal(s: State, i: nat, o: Obj)
    requires Pre(s, i)
    ensures DoCallAttach(s, i, o) == s || Local(s, DoCallAttach(s, i, o), i)
  {
  }
}
