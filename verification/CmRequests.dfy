/**
  How long a request for a wakeup through epoll lives (fs/eventpoll.c, fs/cmgroup.c). All waiters share the
  one `action` word, so a request can be lost to another waiter; this module says exactly when.
*/
module CmRequests {
  import opened CmModel
  import opened CmInv
  import opened CmTheorems

  /** The steps that take a request back: it is served, a waiter leaves its sleep, or the epoll set goes away. */
  predicate Withdraws(s: State, m: Move) {
    || (m.TaskletStep? && s.g.tl.TlOne? && s.g.available > 0)
    || (m.Go? && m.i < |s.thr| && Exec(s.thr[m.i]) && (s.thr[m.i].pc.EcNeutral? || s.thr[m.i].pc.DtSet?))
  }

  lemma AssocKeepsAction(s: State, i: nat)
    requires i < |s.thr|
    ensures GoAssoc(s, i).g.action == s.g.action && GoSetCv(s, i).g.action == s.g.action
  {
    assert forall l: nat, o :: SetLk(s, l, o).g == s.g;
  }

  lemma AttachKeepsAction(s: State, i: nat)
    requires i < |s.thr|
    ensures GoAttach(s, i).g.action == s.g.action && GoLockout(s, i).g.action == s.g.action
  {
  }

  lemma WaitKeepsAction(s: State, i: nat, choice: bool)
    requires i < |s.thr|
    ensures GoWait(s, i, choice).g.action == s.g.action
  {
  }

  lemma EpollAction(s: State, i: nat, choice: bool)
    requires i < |s.thr| && s.g.action.ResetWakeOne?
    ensures GoEpWake(s, i).g.action == s.g.action
    ensures GoEpWait(s, i, choice).g.action.ResetWakeOne? <==> !s.thr[i].pc.EcNeutral?
    ensures GoDetach(s, i).g.action.ResetWakeOne? <==> !s.thr[i].pc.DtSet?
  {
  }

  lemma TaskKeepsRequest(s: State, i: nat, choice: bool)
    requires i < |s.thr| && s.g.action.ResetWakeOne?
    ensures DoGo(s, i, choice).g.action.ResetWakeOne? <==> !Withdraws(s, Go(i, choice))
  {
    AssocKeepsAction(s, i);
    AttachKeepsAction(s, i);
    WaitKeepsAction(s, i, choice);
    EpollAction(s, i, choice);
  }

  /** A pending request survives a step if and only if the step is none of those. */
  lemma RequestSurvives(s: State, m: Move)
    requires Inv(s) && s.g.action.ResetWakeOne?
    ensures Step(s, m).g.action.ResetWakeOne? <==> !Withdraws(s, m)
  {
    if m.Go? {
      if m.i < |s.thr| { TaskKeepsRequest(s, m.i, m.choice); }
    } else if m.TaskletStep? {
      TaskletKeepsRequest(s);
    } else {
      OthersKeepRequest(s, m);
    }
  }

  lemma TaskletKeepsRequest(s: State)
    requires s.g.action.ResetWakeOne?
    ensures DoTasklet(s).g.action.ResetWakeOne? <==> !Withdraws(s, TaskletStep)
  {
    if !s.g.tl.TlOne? { OnlyTlOneServes(s); }
  }

  lemma OnlyTlOneServes(s: State)
    requires !s.g.tl.TlOne?
    ensures DoTasklet(s).g.action == s.g.action
  {
    if s.g.tl.TlWake? || s.g.tl.TlOneWake? { WakeKeepsAction(s); }
    else if s.g.tl.TlLock? || s.g.tl.TlUnlock? || s.g.tl.TlUnlockRe? { LockKeepsAction(s); }
  }

  lemma WakeKeepsAction(s: State)
    requires s.g.tl.TlWake? || s.g.tl.TlOneWake?
    ensures DoTasklet(s).g.action == s.g.action
  {
  }

  lemma LockKeepsAction(s: State)
    requires s.g.tl.TlLock? || s.g.tl.TlUnlock? || s.g.tl.TlUnlockRe?
    ensures DoTasklet(s).g.action == s.g.action
  {
    assert forall l: nat, o :: SetLk(s, l, o).g == s.g;
  }

  lemma OthersKeepRequest(s: State, m: Move)
    requires !m.Go? && !m.TaskletStep?
    ensures Step(s, m).g.action == s.g.action
  {
  }

  ghost predicate NoneWithdraws(s: State, ms: seq<Move>)
    decreases |ms|
  {
    ms != [] ==> !Withdraws(s, ms[0]) && NoneWithdraws(Step(s, ms[0]), ms[1..])
  }

  /** The request is pending now and after every further step. */
  ghost predicate StaysPending(s: State, ms: seq<Move>)
    decreases |ms|
  {
    s.g.action.ResetWakeOne? && (ms != [] ==> StaysPending(Step(s, ms[0]), ms[1..]))
  }

  /** Over a whole run: a request stays pending exactly if no step takes it back. */
  lemma {:induction false} PendingExactly(s: State, ms: seq<Move>)
    requires Inv(s) && s.g.action.ResetWakeOne?
    ensures StaysPending(s, ms) <==> NoneWithdraws(s, ms)
    decreases |ms|
  {
    if ms != [] {
      StepKeeps(s, ms[0]);
      RequestSurvives(s, ms[0]);
      if !Withdraws(s, ms[0]) { PendingExactly(Step(s, ms[0]), ms[1..]); }
    }
  }

  lemma {:induction false} RequestPendingAlong(s: State, ms: seq<Move>)
    requires Inv(s) && s.g.action.ResetWakeOne? && NoneWithdraws(s, ms)
    ensures Inv(Run(s, ms)) && Run(s, ms).g.action.ResetWakeOne?
    decreases |ms|
  {
    if ms != [] {
      StepKeeps(s, ms[0]);
      RequestSurvives(s, ms[0]);
      RequestPendingAlong(Step(s, ms[0]), ms[1..]);
    }
  }

  /** Task i is at one of the two places that make a request, and makes it. */
  predicate Requests(s: State, i: nat) {
    i < |s.thr| && Exec(s.thr[i]) && (s.thr[i].pc.EcReq? || s.thr[i].pc.EkReq?)
  }

  /**
    From the moment task i makes its request, along every run without such a step, the request stays
    pending, and whenever there is an opening a tasklet run that will see it is owed.
  */
  lemma RequesterIsCovered(s: State, i: nat, ms: seq<Move>)
    requires Reachable(s) && Requests(s, i) && NoneWithdraws(Step(s, Go(i, false)), ms)
    ensures var s' := Run(Step(s, Go(i, false)), ms);
            s'.g.action.ResetWakeOne? && s'.g.attached.Ep? && (s'.g.available >= 1 ==> Owed(s'))
  {
    ReachableInv(s);
    StepKeeps(s, Go(i, false));
    RequestMade(s, i);
    RequestPendingAlong(Step(s, Go(i, false)), ms);
    RequestOwed(Run(Step(s, Go(i, false)), ms));
  }

  lemma RequestMade(s: State, i: nat)
    requires Requests(s, i)
    ensures Step(s, Go(i, false)).g.action.ResetWakeOne?
  {
  }

  lemma RequestOwed(s: State)
    requires Inv(s) && s.g.action.ResetWakeOne?
    ensures s.g.attached.Ep? && (s.g.available >= 1 ==> Owed(s))
  {
  }

  // ---- a waiter left behind -----------------------------------------------------------------

  /** Task i sleeps in ep_cmgroup_wait_available. */
  predicate AsleepForOpening(s: State, i: nat) {
    && i < |s.thr| && s.thr[i].pc.EcSleep? && s.thr[i].pc.cm && s.thr[i].st.Sleeping? && s.thr[i].rq.OffRq?
    && i in Q(s, s.thr[i].pc.e)
  }

  lemma {:induction false} RunSnoc(s: State, ms: seq<Move>, m: Move)
    ensures Run(s, ms + [m]) == Step(Run(s, ms), m)
    decreases |ms|
  {
    if ms == [] {
      assert ms + [m] == [m];
    } else {
      assert (ms + [m])[1..] == ms[1..] + [m];
      RunSnoc(Step(s, ms[0]), ms[1..], m);
    }
  }

  lemma ReachableStep(s: State, m: Move)
    requires Reachable(s)
    ensures Reachable(Step(s, m))
  {
    var n: nat, e: nat, a: nat, limit: nat, ms: seq<Move> :| s == Run(Init(n, e, a, limit), ms);
    RunSnoc(Init(n, e, a, limit), ms, m);
    assert Step(s, m) == Run(Init(n, e, a, limit), ms + [m]);
  }
}
