/**
  Which requests an AIO context turns away (fs/aio.c): what get_reqs_available's refusal says about the
  number of slots in use, and why ioctx_alloc doubles what the user asked for.
*/
module AioAdmission {
  import opened SeqSums
  import opened AioSizing
  import opened AioRing

  /** The next step of get_reqs_available on CPU c ends the call without a slot. */
  predicate Refuses(s: Ctx, c: nat) {
    && c < |s.cpu| && (s.cpu[c].pc.GetRead? || s.cpu[c].pc.GetCas?)
    && Step(s, Advance(c)).cpu[c].pc.Idle? && Step(s, Advance(c)).inflight == s.inflight
  }

  /** Slots that a put call in progress on this CPU has yet to hand on: what it holds above the per-CPU bound. */
  function Over(k: Cpu, batch: nat): int {
    if (k.pc.PutLoop? || k.pc.PutAdd?) && Held(k, batch) >= 2 * batch then Held(k, batch) - (2 * batch - 1) else 0
  }

  function Returning(batch: nat): Cpu -> int { (k: Cpu) => Over(k, batch) }

  /** Slots that hold a request or an unread event, or that are being given back. */
  function InUse(s: Ctx): int { s.inflight + Queued(s) + FreedSlots(s) + Sum(s.cpu, Returning(s.batch)) }

  function Spare(batch: nat): Cpu -> int { (k: Cpu) => Held(k, batch) - Over(k, batch) }

  /** They are never more than the calls were asked to give back. */
  lemma {:induction false} ReturningIsPut(cpu: seq<Cpu>, batch: nat)
    requires forall c :: 0 <= c < |cpu| ==> CpuOk(cpu[c], batch)
    ensures 0 <= Sum(cpu, Returning(batch)) <= Sum(cpu, Putting)
  {
    if cpu != [] {
      assert CpuOk(cpu[0], batch);
      ReturningIsPut(cpu[1..], batch);
    }
  }

  lemma {:induction false} SpareSplit(cpu: seq<Cpu>, batch: nat)
    ensures Sum(cpu, HeldBy(batch)) == Sum(cpu, Spare(batch)) + Sum(cpu, Returning(batch))
  {
    if cpu != [] { SpareSplit(cpu[1..], batch); }
  }

  lemma SpareBound(s: Ctx, c: nat)
    requires Inv(s) && Refuses(s, c)
    ensures Sum(s.cpu, Spare(s.batch)) <= (2 * s.batch - 1) * (|s.cpu| - 1)
  {
    var full := Cpu(2 * s.batch - 1, Idle);
    assert CpuOk(s.cpu[c], s.batch);
    assert Spare(s.batch)(s.cpu[c]) == 0 && Spare(s.batch)(full) == 2 * s.batch - 1;
    SumUpdate(s.cpu, c, full, Spare(s.batch));
    var cpu := s.cpu[c := full];
    forall k | 0 <= k < |cpu| ensures Spare(s.batch)(cpu[k]) <= 2 * s.batch - 1 {
      assert CpuOk(s.cpu[k], s.batch);
    }
    SumUpper(cpu, Spare(s.batch), 2 * s.batch - 1);
    Distribute(2 * s.batch - 1, |s.cpu|);
  }

  lemma Distribute(a: int, n: int)
    ensures a * (n - 1) == a * n - a
  {
  }

  /** A refusal leaves at most half the slots idle. */
  lemma RefusalMeansHalfUsed(s: Ctx, c: nat)
    requires Inv(s) && Refuses(s, c) && 4 * (|s.cpu| * s.batch) <= s.nr - 1
    ensures 2 * InUse(s) >= s.nr - 1
  {
    SpareSplit(s.cpu, s.batch);
    SpareBound(s, c);
    IdleSlots(s.batch, |s.cpu|);
  }

  lemma IdleSlots(batch: int, cpus: int)
    requires batch >= 1 && cpus >= 1
    ensures (2 * batch - 1) * (cpus - 1) + batch - 1 <= 2 * (cpus * batch) - 2
  {
    assert (2 * batch - 1) * (cpus - 1) == 2 * (cpus * batch) - cpus - 2 * batch + 1;
  }

  /** What doubling the request is for: only a context with n slots in use turns a request away. */
  ghost predicate Guarantee(n: nat, cpus: nat, nr: nat, batch: nat)
    requires nr >= 1
  {
    forall ms, c :: Refuses(Run(Init(cpus, nr, batch), ms), c) ==> InUse(Run(Init(cpus, nr, batch), ms)) >= n
  }

  predicate NoPuts(s: Ctx) { forall c :: 0 <= c < |s.cpu| ==> Putting(s.cpu[c]) == 0 }

  /** Submitting on one CPU alone runs the context dry and ends in a refusal. */
  lemma {:induction false} Drain(s: Ctx) returns (ms: seq<Move>)
    requires Inv(s) && NoPuts(s) && |s.cpu| >= 1 && s.cpu[0].pc.Idle?
    ensures Refuses(Run(s, ms), 0) && NoPuts(Run(s, ms))
    ensures Run(s, ms).reader == s.reader && Run(s, ms).writer == s.writer
    decreases s.global + s.cpu[0].avail
  {
    StepKeeps(s, Get(0));
    var s1 := Step(s, Get(0));
    if s.cpu[0].avail != 0 {
      ms := Drain(s1);
      RunTwo(s, [Get(0)], ms);
      ms := [Get(0)] + ms;
      assert Run(s, [Get(0)]) == s1;
    } else if s.global < s.batch {
      ms := [Get(0)];
      assert Run(s, ms) == s1;
    } else {
      var s2 := Step(s1, Advance(0));
      var s3 := Step(s2, Advance(0));
      var s4 := Step(s3, Advance(0));
      StepKeeps(s1, Advance(0));
      StepKeeps(s2, Advance(0));
      StepKeeps(s3, Advance(0));
      ms := Drain(s4);
      DrainFour(s, ms);
      ms := [Get(0), Advance(0), Advance(0), Advance(0)] + ms;
    }
  }

  lemma DrainFour(s: Ctx, ms: seq<Move>)
    ensures Run(s, [Get(0), Advance(0), Advance(0), Advance(0)] + ms)
         == Run(Step(Step(Step(Step(s, Get(0)), Advance(0)), Advance(0)), Advance(0)), ms)
  {
    var a := [Get(0), Advance(0), Advance(0), Advance(0)];
    RunTwo(s, [Get(0)], [Advance(0), Advance(0), Advance(0)] + ms);
    assert a + ms == [Get(0)] + ([Advance(0), Advance(0), Advance(0)] + ms);
    assert [Advance(0), Advance(0), Advance(0)] + ms == [Advance(0)] + ([Advance(0), Advance(0)] + ms);
    assert [Advance(0), Advance(0)] + ms == [Advance(0)] + ([Advance(0)] + ms);
    var s1 := Step(s, Get(0));
    RunTwo(s1, [Advance(0)], [Advance(0), Advance(0)] + ms);
    RunTwo(Step(s1, Advance(0)), [Advance(0)], [Advance(0)] + ms);
    RunTwo(Step(Step(s1, Advance(0)), Advance(0)), [Advance(0)], ms);
  }

  /**
    The admission guarantee holds of a successfully sized context exactly when doubling the request
    fits in 32 bits.
  */
  lemma AdmissionGuarantee(n: nat, cpus: nat, page: nat, kiocb: nat, quota: nat)
    requires n < U32 && 1 <= cpus && cpus * 4 < U32 / 2 && HEADER <= page < 0x1000_0000 && kiocb > 0
    requires IoctxAlloc(n, cpus, page, kiocb, quota).Ok?
    ensures var z := IoctxAlloc(n, cpus, page, kiocb, quota).sizes;
            z.nr >= 1 && (Guarantee(n, cpus, z.nr, z.batch) <==> n < U32 / 2)
  {
    var z := IoctxAlloc(n, cpus, page, kiocb, quota).sizes;
    var s0 := Init(cpus, z.nr, z.batch);
    InitInv(cpus, z.nr, z.batch);
    if n < U32 / 2 {
      UnwrappedSizes(n, cpus, page, kiocb, quota);
      forall ms, c | Refuses(Run(s0, ms), c) ensures InUse(Run(s0, ms)) >= n {
        RunKeeps(s0, ms);
        RefusalMeansHalfUsed(Run(s0, ms), c);
      }
    } else {
      WrappedSizes(n, cpus, page, kiocb, quota);
      var ms := Drain(s0);
      var s := Run(s0, ms);
      RunKeeps(s0, ms);
      HeldNonNegative(s);
      SumUpper(s.cpu, Putting, 0);
      ReturningIsPut(s.cpu, s.batch);
      assert InUse(s) < n;
    }
  }

  // ---- slots that hold something --------------------------------------------------------------

  /** Slots that hold a request in flight or an unread event. */
  function Busy(s: Ctx): int { s.inflight + Queued(s) }

  /** Nothing is on its way back: no reader is between storing the head and its put, and no put is running. */
  predicate Settled(s: Ctx) { NoPuts(s) && !s.reader.Freed? }

  /** A refusal in a settled state happens only with n slots busy. */
  ghost predicate SettledGuarantee(n: nat, cpus: nat, nr: nat, batch: nat)
    requires nr >= 1
  {
    forall ms, c ::
      Refuses(Run(Init(cpus, nr, batch), ms), c) && Settled(Run(Init(cpus, nr, batch), ms)) ==>
        Busy(Run(Init(cpus, nr, batch), ms)) >= n
  }

  /** The same without the condition. */
  ghost predicate StrictGuarantee(n: nat, cpus: nat, nr: nat, batch: nat)
    requires nr >= 1
  {
    forall ms, c :: Refuses(Run(Init(cpus, nr, batch), ms), c) ==> Busy(Run(Init(cpus, nr, batch), ms)) >= n
  }

  lemma SettledIsBusy(s: Ctx)
    requires Inv(s) && Settled(s)
    ensures InUse(s) == Busy(s) <= s.nr - 1
  {
    SumUpper(s.cpu, Putting, 0);
    ReturningIsPut(s.cpu, s.batch);
    HeldNonNegative(s);
  }

  /** In settled states the strict guarantee holds, again exactly when doubling the request fits in 32 bits. */
  lemma SettledAdmission(n: nat, cpus: nat, page: nat, kiocb: nat, quota: nat)
    requires n < U32 && 1 <= cpus && cpus * 4 < U32 / 2 && HEADER <= page < 0x1000_0000 && kiocb > 0
    requires IoctxAlloc(n, cpus, page, kiocb, quota).Ok?
    ensures var z := IoctxAlloc(n, cpus, page, kiocb, quota).sizes;
            z.nr >= 1 && (SettledGuarantee(n, cpus, z.nr, z.batch) <==> n < U32 / 2)
  {
    var z := IoctxAlloc(n, cpus, page, kiocb, quota).sizes;
    var s0 := Init(cpus, z.nr, z.batch);
    InitInv(cpus, z.nr, z.batch);
    AdmissionGuarantee(n, cpus, page, kiocb, quota);
    if n < U32 / 2 {
      forall ms, c | Refuses(Run(s0, ms), c) && Settled(Run(s0, ms)) ensures Busy(Run(s0, ms)) >= n {
        RunKeeps(s0, ms);
        SettledIsBusy(Run(s0, ms));
      }
    } else {
      WrappedSizes(n, cpus, page, kiocb, quota);
      var ms := Drain(s0);
      RunKeeps(s0, ms);
      SettledIsBusy(Run(s0, ms));
      assert Settled(Run(s0, ms));
    }
  }

  // ---- a refusal with nothing in use -----------------------------------------------------------

  /** What a refusal depends on. */
  predicate SameCredits(s: Ctx, s': Ctx) { s'.cpu == s.cpu && s'.global == s.global && s'.batch == s.batch }

  lemma RefusalStays(s: Ctx, s': Ctx, c: nat)
    requires Refuses(s, c) && SameCredits(s, s')
    ensures Refuses(s', c)
  {
  }

  /** Every request in flight can complete. */
  lemma {:induction false} CompleteAll(s: Ctx) returns (ms: seq<Move>)
    requires Inv(s) && s.writer.NoWriter?
    ensures var s' := Run(s, ms); SameCredits(s, s') && s'.inflight == 0 && s'.reader == s.reader
    decreases s.inflight
  {
    if s.inflight == 0 {
      ms := [];
    } else {
      var s1 := Step(s, Write(0));
      StepKeeps(s, Write(0));
      var s2 := Step(s1, Publish);
      StepKeeps(s1, Publish);
      ms := CompleteAll(s2);
      RunTwo(s, [Write(0)], [Publish] + ms);
      RunTwo(s1, [Publish], ms);
      assert Run(s, [Write(0)]) == s1 && Run(s1, [Publish]) == s2;
      ms := [Write(0)] + ([Publish] + ms);
    }
  }

  /** A reader with room for everything takes everything. */
  lemma {:induction false} CopyAll(s: Ctx) returns (ms: seq<Move>)
    requires Inv(s) && s.reader.Reading? && s.reader.want >= s.nr && s.reader.upto == s.tail
    ensures var s' := Run(s, ms); SameCredits(s, s') && s'.inflight == s.inflight && Queued(s') == 0 && s'.reader.Freed?
    decreases Dist(s.nr, s.reader.at, s.reader.upto)
  {
    if s.reader.at == s.reader.upto {
      ms := [Finish];
      assert Run(s, ms) == Step(s, Finish);
    } else {
      var s1 := Step(s, Copy);
      StepKeeps(s, Copy);
      ms := CopyAll(s1);
      RunTwo(s, [Copy], ms);
      assert Run(s, [Copy]) == s1;
      ms := [Copy] + ms;
    }
  }

  lemma ReadAll(s: Ctx) returns (ms: seq<Move>)
    requires Inv(s) && s.reader.NoReader?
    ensures var s' := Run(s, ms); SameCredits(s, s') && s'.inflight == s.inflight && Queued(s') == 0
  {
    if s.head == s.tail {
      ms := [];
    } else {
      var s1 := Step(s, BeginRead(s.nr));
      StepKeeps(s, BeginRead(s.nr));
      ms := CopyAll(s1);
      RunTwo(s, [BeginRead(s.nr)], ms);
      assert Run(s, [BeginRead(s.nr)]) == s1;
      ms := [BeginRead(s.nr)] + ms;
    }
  }

  /**
    Whatever the sizes, a context can refuse a request with nothing in flight and nothing unread: a
    reader has emptied the ring and not yet put the slots back.
  */
  lemma RefusalWithNothingInUse(cpus: nat, nr: nat, batch: nat) returns (ms: seq<Move>)
    requires cpus >= 1 && nr >= 1 && batch >= 1
    ensures var s := Run(Init(cpus, nr, batch), ms); Refuses(s, 0) && Busy(s) == 0
  {
    var s0 := Init(cpus, nr, batch);
    InitInv(cpus, nr, batch);
    var m0 := Drain(s0);
    var s1 := Run(s0, m0);
    RunKeeps(s0, m0);
    var m1 := CompleteAll(s1);
    var s2 := Run(s1, m1);
    RunKeeps(s1, m1);
    var m2 := ReadAll(s2);
    RunTwo(s1, m1, m2);
    RunTwo(s0, m0, m1 + m2);
    ms := m0 + (m1 + m2);
    RefusalStays(s1, Run(s0, ms), 0);
  }

  /** So the unconditional form holds of no context, unless nothing was asked for. */
  lemma StrictFails(n: nat, cpus: nat, nr: nat, batch: nat)
    requires cpus >= 1 && nr >= 1 && batch >= 1
    ensures StrictGuarantee(n, cpus, nr, batch) <==> n == 0
  {
    var s0 := Init(cpus, nr, batch);
    InitInv(cpus, nr, batch);
    if n == 0 {
      forall ms, c | Refuses(Run(s0, ms), c) ensures Busy(Run(s0, ms)) >= n { RunKeeps(s0, ms); }
    } else {
      var ms := RefusalWithNothingInUse(cpus, nr, batch);
    }
  }
}
