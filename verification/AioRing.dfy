/**
  The AIO completion ring (fs/aio.c) as a machine of atomic steps: submitters take slot credits from
  per-CPU counters backed by a global one, completions write and publish events, readers drain
  them and give the credits back. It implements a bounded first-in first-out queue.
*/
module AioRing {
  import opened SeqSums

  /**
    Where a CPU is inside get_reqs_available or put_reqs_available (preemption is off in both, so a CPU
    runs one at a time): about to read the global counter, about to compare-and-swap, about to add
    the batch it won; or in the loop of a put of n slots, before or after taking a batch out.
  */
  datatype CpuPc = Idle | GetRead | GetCas(seen: int) | GetAdd | PutLoop(n: nat) | PutAdd(n: nat)
  datatype Cpu = Cpu(avail: int, pc: CpuPc)

  /** A reader holds ring_lock: it is copying events up to a tail it saw, or has stored the new head. */
  datatype Reader = NoReader | Reading(want: int, upto: nat, at: nat, got: seq<int>) | Freed(n: nat)
  /** A completion holds completion_lock: its event is in its slot, the tail is not yet moved. */
  datatype Writer = NoWriter | Wrote(event: int)

  /**
    inflight counts granted requests whose completion is not yet published. `log` is the history of
    published events and `delivered` what readers have been given.
  */
  datatype Ctx = Ctx(nr: nat, batch: nat, global: int, cpu: seq<Cpu>, mem: seq<int>, head: nat, tail: nat,
                     reader: Reader, writer: Writer, inflight: int, log: seq<int>, delivered: seq<int>)

  datatype Move =
    | Get(c: nat) | Advance(c: nat) | Abort(c: nat)
    | Write(event: int) | Publish
    | BeginRead(want: int) | Copy | Fault | Finish | Put(c: nat)

  function Init(cpus: nat, nr: nat, batch: nat): Ctx
    requires nr >= 1
  {
    Ctx(nr, batch, nr - 1, seq(cpus, _ => Cpu(0, Idle)), seq(nr, _ => 0), 0, 0, NoReader, NoWriter, 0, [], [])
  }

  function Next(nr: nat, i: nat): nat { if i + 1 >= nr then 0 else i + 1 }

  function SetCpu(s: Ctx, c: nat, k: Cpu): Ctx
    requires c < |s.cpu|
  {
    s.(cpu := s.cpu[c := k])
  }

  /** The test shared by the first read of the global counter and each failed exchange. */
  function Seen(s: Ctx, c: nat): Ctx
    requires c < |s.cpu|
  {
    SetCpu(s, c, s.cpu[c].(pc := if s.global < s.batch then Idle else GetCas(s.global)))
  }

  function AdvanceCpu(s: Ctx, c: nat): Ctx
    requires c < |s.cpu|
  {
    var k := s.cpu[c];
    match k.pc
    case Idle => s
    case GetRead => Seen(s, c)
    case GetCas(seen) =>
      if s.global == seen then SetCpu(s, c, k.(pc := GetAdd)).(global := s.global - s.batch) else Seen(s, c)
    case GetAdd => SetCpu(s, c, Cpu(k.avail + s.batch - 1, Idle)).(inflight := s.inflight + 1)
    case PutLoop(n) =>
      if k.avail >= s.batch * 2 then SetCpu(s, c, Cpu(k.avail - s.batch, PutAdd(n)))
      else SetCpu(s, c, Cpu(k.avail, Idle))
    case PutAdd(n) => SetCpu(s, c, k.(pc := PutLoop(n))).(global := s.global + s.batch)
  }

  function Step(s: Ctx, m: Move): Ctx {
    match m
    case Get(c) =>
      if c < |s.cpu| && s.cpu[c].pc.Idle? then
        if s.cpu[c].avail != 0 then SetCpu(s, c, Cpu(s.cpu[c].avail - 1, Idle)).(inflight := s.inflight + 1)
        else SetCpu(s, c, s.cpu[c].(pc := GetRead))
      else s
    case Advance(c) => if c < |s.cpu| then AdvanceCpu(s, c) else s
    case Abort(c) =>
      if c < |s.cpu| && s.cpu[c].pc.Idle? && s.inflight > (if s.writer.Wrote? then 1 else 0) then
        SetCpu(s, c, Cpu(s.cpu[c].avail + 1, PutLoop(1))).(inflight := s.inflight - 1)
      else s
    case Write(event) =>
      if s.writer.NoWriter? && s.inflight >= 1 && s.tail < |s.mem| then
        s.(mem := s.mem[s.tail := event], writer := Wrote(event))
      else s
    case Publish =>
      if s.writer.Wrote? then
        s.(tail := Next(s.nr, s.tail), writer := NoWriter, inflight := s.inflight - 1, log := s.log + [s.writer.event])
      else s
    case BeginRead(want) =>
      if s.reader.NoReader? && s.head != s.tail then s.(reader := Reading(want, s.tail, s.head, [])) else s
    case Copy =>
      if s.reader.Reading? && |s.reader.got| < s.reader.want && s.reader.at != s.reader.upto
         && s.reader.at < |s.mem| then
        s.(reader := s.reader.(at := Next(s.nr, s.reader.at), got := s.reader.got + [s.mem[s.reader.at]]))
      else s
    case Fault => if s.reader.Reading? then s.(reader := NoReader) else s
    case Finish =>
      if s.reader.Reading? && (|s.reader.got| >= s.reader.want || s.reader.at == s.reader.upto) then
        s.(head := s.reader.at, delivered := s.delivered + s.reader.got, reader := Freed(|s.reader.got|))
      else s
    case Put(c) =>
      if c < |s.cpu| && s.cpu[c].pc.Idle? && s.reader.Freed? then
        SetCpu(s, c, Cpu(s.cpu[c].avail + s.reader.n, PutLoop(s.reader.n))).(reader := NoReader)
      else s
  }

  function Run(s: Ctx, ms: seq<Move>): Ctx
    decreases |ms|
  {
    if ms == [] then s else Run(Step(s, ms[0]), ms[1..])
  }

  // ---- the invariant ------------------------------------------------------------------------

  /** How far b lies ahead of a on the ring. */
  function Dist(nr: nat, a: int, b: int): int { if a <= b then b - a else b - a + nr }

  /** The index i places after a. */
  function Ahead(nr: nat, a: nat, i: nat): nat { if a + i < nr then a + i else a + i - nr }

  function Queued(s: Ctx): int { Dist(s.nr, s.head, s.tail) }

  predicate Shape(s: Ctx) {
    && s.nr >= 1 && s.batch >= 1 && |s.mem| == s.nr && s.head < s.nr && s.tail < s.nr
    && s.global >= 0 && s.inflight >= (if s.writer.Wrote? then 1 else 0)
  }

  /** The slots from head up to tail, going round the ring. */
  function Window(mem: seq<int>, head: nat, tail: nat): (q: seq<int>)
    requires head < |mem| && tail < |mem|
    ensures |q| == Dist(|mem|, head, tail)
    ensures forall i :: 0 <= i < |q| ==> q[i] == mem[Ahead(|mem|, head, i)]
  {
    if head <= tail then mem[head..tail] else mem[head..] + mem[..tail]
  }

  /** The abstract queue: the events published and not yet taken, oldest first. */
  function Unread(s: Ctx): (q: seq<int>)
    requires Shape(s)
  {
    Window(s.mem, s.head, s.tail)
  }

  /** The credits a CPU holds, with the batch it is moving to or from the global counter. */
  function Held(k: Cpu, batch: nat): int { k.avail + if k.pc.GetAdd? || k.pc.PutAdd? then batch else 0 }

  function HeldBy(batch: nat): Cpu -> int { (k: Cpu) => Held(k, batch) }

  function Putting(k: Cpu): int { if k.pc.PutLoop? || k.pc.PutAdd? then k.pc.n else 0 }

  /** Below two batches outside a put; inside one, above that by no more than is being put. */
  predicate CpuOk(k: Cpu, batch: nat) {
    && 0 <= k.avail
    && (k.pc.Idle? ==> k.avail < 2 * batch)
    && (k.pc.GetRead? || k.pc.GetCas? || k.pc.GetAdd? ==> k.avail == 0)
    && (k.pc.GetCas? ==> k.pc.seen >= batch) && (k.pc.PutAdd? ==> k.avail >= batch)
    && Held(k, batch) < 2 * batch + Putting(k)
  }

  predicate CpusOk(s: Ctx) { forall c :: 0 <= c < |s.cpu| ==> CpuOk(s.cpu[c], s.batch) }

  function FreedSlots(s: Ctx): nat { if s.reader.Freed? then s.reader.n else 0 }

  /** Every slot but one is a credit, a request in flight, an unread event, or freed and about to be put. */
  predicate Conserved(s: Ctx) {
    s.global + Sum(s.cpu, HeldBy(s.batch)) + s.inflight + Queued(s) + FreedSlots(s) == s.nr - 1
  }

  predicate LogOk(s: Ctx)
    requires Shape(s)
  {
    && s.log == s.delivered + Unread(s)
    && (s.writer.Wrote? ==> s.mem[s.tail] == s.writer.event)
  }

  /** A reader has copied a prefix of the queue and its tail snapshot is not past the real tail. */
  predicate ReaderOk(s: Ctx)
    requires Shape(s)
  {
    s.reader.Reading? ==>
      && s.reader.at < s.nr && s.reader.upto < s.nr
      && Dist(s.nr, s.head, s.reader.at) == |s.reader.got|
      && |s.reader.got| + Dist(s.nr, s.reader.at, s.reader.upto) == Dist(s.nr, s.head, s.reader.upto) <= Queued(s)
      && |s.reader.got| <= Queued(s) && s.reader.got == Unread(s)[..|s.reader.got|]
      && (|s.reader.got| <= s.reader.want || s.reader.got == [])
  }

  predicate Inv(s: Ctx) { Shape(s) && CpusOk(s) && Conserved(s) && LogOk(s) && ReaderOk(s) }

  ghost predicate Reachable(s: Ctx) {
    exists cpus: nat, nr: nat, batch: nat, ms :: nr >= 1 && batch >= 1 && s == Run(Init(cpus, nr, batch), ms)
  }

  /** The three things one step can do to the bounded queue. */
  ghost predicate QueueStep(s: Ctx, s': Ctx)
    requires Shape(s) && Shape(s')
  {
    || (Unread(s') == Unread(s) && s'.delivered == s.delivered)
    || (s.writer.Wrote? && Unread(s') == Unread(s) + [s.writer.event] && |Unread(s')| < s.nr
        && s'.delivered == s.delivered)
    || (exists k ::
          && 0 <= k <= |Unread(s)| && Unread(s') == Unread(s)[k..]
          && s'.delivered == s.delivered + Unread(s)[..k])
  }

  // ---- credits ------------------------------------------------------------------------------

  lemma HeldNonNegative(s: Ctx)
    requires CpusOk(s)
    ensures Sum(s.cpu, HeldBy(s.batch)) >= 0
  {
    SumNonNegative(s.cpu, HeldBy(s.batch));
  }

  /** What a request in flight buys: the slot at the tail is free, and so is the one after it. */
  lemma RoomForCompletion(s: Ctx)
    requires Inv(s) && s.inflight >= 1
    ensures Queued(s) <= s.nr - 2
    ensures forall i :: 0 <= i < Queued(s) ==> Ahead(s.nr, s.head, i) != s.tail
  {
    HeldNonNegative(s);
  }

  /** A move that only touches CPU c, the global counter and the amounts outside keeps the total. */
  lemma CpuMove(s: Ctx, s': Ctx, c: nat)
    requires Inv(s) && c < |s.cpu|
    requires s' == s.(cpu := s'.cpu, global := s'.global, inflight := s'.inflight, reader := s'.reader)
    requires |s'.cpu| == |s.cpu| && s'.cpu == s.cpu[c := s'.cpu[c]] && CpuOk(s'.cpu[c], s.batch)
    requires s'.global >= 0 && s'.inflight >= (if s.writer.Wrote? then 1 else 0)
    requires s'.reader == s.reader || s'.reader.NoReader?
    requires s.global + Held(s.cpu[c], s.batch) + s.inflight + FreedSlots(s)
          == s'.global + Held(s'.cpu[c], s.batch) + s'.inflight + FreedSlots(s')
    ensures Inv(s')
  {
    SumUpdate(s.cpu, c, s'.cpu[c], HeldBy(s.batch));
    assert Unread(s') == Unread(s);
  }

  lemma CreditsKeep(s: Ctx, m: Move)
    requires Inv(s) && (m.Get? || m.Advance? || m.Abort? || m.Put?)
    ensures Inv(Step(s, m))
  {
    if Step(s, m) != s {
      assert CpuOk(s.cpu[m.c], s.batch);
      CpuMove(s, Step(s, m), m.c);
    }
  }

  // ---- the ring -----------------------------------------------------------------------------

  lemma SameQueue(s: Ctx, s': Ctx)
    requires Shape(s) && Shape(s') && s'.mem == s.mem && s'.head == s.head && s'.tail == s.tail && s'.nr == s.nr
    ensures Unread(s') == Unread(s)
  {
  }

  lemma WindowDrop(mem: seq<int>, head: nat, tail: nat, ret: nat, h: nat)
    requires head < |mem| && tail < |mem| && ret <= |Window(mem, head, tail)| && h == Ahead(|mem|, head, ret)
    ensures h < |mem| && Window(mem, h, tail) == Window(mem, head, tail)[ret..]
  {
    var q := Window(mem, head, tail);
    var d := Window(mem, h, tail);
    assert |d| == |q| - ret;
    forall i | 0 <= i < |d| ensures d[i] == q[ret..][i] {
      assert q[ret..][i] == q[ret + i];
      assert Ahead(|mem|, h, i) == Ahead(|mem|, head, ret + i);
    }
  }

  lemma WriteKeeps(s: Ctx, event: int)
    requires Inv(s)
    ensures Inv(Step(s, Write(event))) && QueueStep(s, Step(s, Write(event)))
  {
    var s' := Step(s, Write(event));
    assert Unread(s') == Unread(s) by { if s' != s { RoomForCompletion(s); } }
  }

  lemma PublishKeeps(s: Ctx)
    requires Inv(s)
    ensures Inv(Step(s, Publish)) && QueueStep(s, Step(s, Publish))
  {
    var s' := Step(s, Publish);
    if s.writer.Wrote? {
      RoomForCompletion(s);
      assert Queued(s') == Queued(s) + 1;
      assert Ahead(s.nr, s.head, Queued(s)) == s.tail;
      assert Unread(s') == Unread(s) + [s.writer.event];
      assert s'.log == s'.delivered + Unread(s');
    } else { assert Unread(s') == Unread(s); }
  }

  lemma CopyKeeps(s: Ctx)
    requires Inv(s)
    ensures Inv(Step(s, Copy))
  {
    var s' := Step(s, Copy);
    if s' != s {
      assert Unread(s') == Unread(s);
      var k := |s.reader.got|;
      assert Ahead(s.nr, s.head, k) == s.reader.at;
      assert Unread(s)[..k + 1] == Unread(s)[..k] + [Unread(s)[k]];
    }
  }

  /** Storing the reader's position as the new head takes what it copied off the queue. */
  lemma FinishTakes(s: Ctx)
    requires Inv(s) && Step(s, Finish) != s
    ensures var s' := Step(s, Finish);
            var k := |s.reader.got|;
            && Shape(s') && Queued(s') == Queued(s) - k >= 0
            && Unread(s') == Unread(s)[k..] && s'.delivered == s.delivered + Unread(s)[..k]
  {
    WindowDrop(s.mem, s.head, s.tail, |s.reader.got|, s.reader.at);
  }

  lemma FinishKeeps(s: Ctx)
    requires Inv(s)
    ensures Inv(Step(s, Finish)) && QueueStep(s, Step(s, Finish))
  {
    var s' := Step(s, Finish);
    if s' != s {
      FinishTakes(s);
      Rejoin(s.delivered, Unread(s), |s.reader.got|);
      assert Conserved(s');
    }
  }

  lemma Rejoin(a: seq<int>, q: seq<int>, k: nat)
    requires k <= |q|
    ensures a + q == (a + q[..k]) + q[k..]
  {
  }

  lemma StepKeeps(s: Ctx, m: Move)
    requires Inv(s)
    ensures Inv(Step(s, m)) && Step(s, m).nr == s.nr && Step(s, m).batch == s.batch && |Step(s, m).cpu| == |s.cpu|
  {
    SameSizes(s, m);
    if m.Get? || m.Advance? || m.Abort? || m.Put? { CreditsKeep(s, m); } else { RingKeeps(s, m); }
  }

  lemma SameSizes(s: Ctx, m: Move)
    ensures Step(s, m).nr == s.nr && Step(s, m).batch == s.batch && |Step(s, m).cpu| == |s.cpu|
  {
  }

  lemma RingKeeps(s: Ctx, m: Move)
    requires Inv(s) && !m.Get? && !m.Advance? && !m.Abort? && !m.Put?
    ensures Inv(Step(s, m))
  {
    match m {
      case Write(event) => WriteKeeps(s, event);
      case Publish => PublishKeeps(s);
      case Copy => CopyKeeps(s);
      case Finish => FinishKeeps(s);
      case BeginRead(_) => SameQueue(s, Step(s, m));
      case Fault => SameQueue(s, Step(s, m));
    }
  }

  lemma {:induction false} RunKeeps(s: Ctx, ms: seq<Move>)
    requires Inv(s)
    ensures var s' := Run(s, ms); Inv(s') && s'.nr == s.nr && s'.batch == s.batch && |s'.cpu| == |s.cpu|
    decreases |ms|
  {
    if ms != [] {
      StepKeeps(s, ms[0]);
      RunKeeps(Step(s, ms[0]), ms[1..]);
    }
  }

  lemma InitInv(cpus: nat, nr: nat, batch: nat)
    requires nr >= 1 && batch >= 1
    ensures Inv(Init(cpus, nr, batch))
  {
    var s := Init(cpus, nr, batch);
    SumUpper(s.cpu, HeldBy(batch), 0);
    SumNonNegative(s.cpu, HeldBy(batch));
  }

  lemma ReachableInv(s: Ctx)
    requires Reachable(s)
    ensures Inv(s)
  {
    var cpus: nat, nr: nat, batch: nat, ms :| nr >= 1 && batch >= 1 && s == Run(Init(cpus, nr, batch), ms);
    InitInv(cpus, nr, batch);
    RunKeeps(Init(cpus, nr, batch), ms);
  }

  // ---- the bounded queue --------------------------------------------------------------------

  /** Slots are conserved, and what readers got followed by what is queued is the completion order. */
  lemma Conservation(s: Ctx)
    requires Reachable(s)
    ensures s.global + Sum(s.cpu, HeldBy(s.batch)) + s.inflight + Queued(s) + FreedSlots(s) == s.nr - 1
    ensures Shape(s) && s.log == s.delivered + Unread(s)
    ensures 0 <= |Unread(s)| <= s.nr - 1 - s.inflight - FreedSlots(s)
  {
    ReachableInv(s);
    HeldNonNegative(s);
  }

  /** A completion about to store its event never finds an unread one in its slot. */
  lemma NeverOverwrites(s: Ctx, event: int)
    requires Reachable(s)
    ensures Shape(s) && Shape(Step(s, Write(event)))
    ensures Unread(Step(s, Write(event))) == Unread(s)
    ensures s.inflight >= 1 ==> forall i :: 0 <= i < Queued(s) ==> Ahead(s.nr, s.head, i) != s.tail
  {
    ReachableInv(s);
    WriteKeeps(s, event);
    assert Unread(Step(s, Write(event))) == Unread(s) by { if s.inflight >= 1 { RoomForCompletion(s); } }
    if s.inflight >= 1 { RoomForCompletion(s); }
  }

  lemma {:induction false} RunTwo(s: Ctx, a: seq<Move>, b: seq<Move>)
    ensures Run(s, a + b) == Run(Run(s, a), b)
    decreases |a|
  {
    if a == [] {
      assert a + b == b;
    } else {
      assert (a + b)[0] == a[0] && (a + b)[1..] == a[1..] + b;
      RunTwo(Step(s, a[0]), a[1..], b);
    }
  }

  /** Every step of the ring is an enqueue with room, a dequeue of a prefix, or nothing. */
  lemma RefinesBoundedQueue(s: Ctx, m: Move)
    requires Reachable(s)
    ensures Shape(s) && Shape(Step(s, m)) && QueueStep(s, Step(s, m))
  {
    ReachableInv(s);
    if m.Write? { WriteKeeps(s, m.event); }
    else if m.Publish? { PublishKeeps(s); }
    else if m.Finish? { FinishKeeps(s); }
    else {
      StepKeeps(s, m);
      Quiet(s, m);
      SameQueue(s, Step(s, m));
    }
  }

  lemma Quiet(s: Ctx, m: Move)
    requires !m.Write? && !m.Publish? && !m.Finish?
    ensures var s' := Step(s, m);
            s'.mem == s.mem && s'.head == s.head && s'.tail == s.tail && s'.nr == s.nr && s'.delivered == s.delivered
  {
  }

  /**
    A read ends exactly when it has what was asked for or what was queued when it began, whichever is less; until
    then it copies the next unread event. Its end takes just that off the queue; a fault takes nothing.
  */
  lemma ReadsExactly(s: Ctx)
    requires Reachable(s) && s.reader.Reading?
    ensures Shape(s)
    ensures Step(s, Finish) != s ==>
      var k := |s.reader.got|;
      var queued := Dist(s.nr, s.head, s.reader.upto);
      && k == (if s.reader.want < 0 then 0 else if s.reader.want < queued then s.reader.want else queued)
      && k <= |Unread(s)| && Shape(Step(s, Finish)) && Unread(Step(s, Finish)) == Unread(s)[k..]
      && Step(s, Finish).delivered == s.delivered + Unread(s)[..k] && Step(s, Finish).reader == Freed(k)
    ensures Step(s, Finish) == s ==>
      && |s.reader.got| < s.reader.want && |s.reader.got| < |Unread(s)|
      && Step(s, Copy).reader == s.reader.(at := Next(s.nr, s.reader.at), got := Unread(s)[..|s.reader.got| + 1])
    ensures Step(s, Fault).delivered == s.delivered && Step(s, Fault).head == s.head && Step(s, Fault).reader.NoReader?
  {
    ReachableInv(s);
    if Step(s, Finish) != s { FinishTakes(s); }
  }

  /** A read begins with the events queued at that moment in view. */
  lemma ReadBegins(s: Ctx, want: int)
    requires Reachable(s) && s.reader.NoReader?
    ensures Queued(s) > 0 ==> Step(s, BeginRead(want)).reader == Reading(want, s.tail, s.head, [])
    ensures Queued(s) == 0 ==> Step(s, BeginRead(want)) == s
  {
    ReachableInv(s);
  }

  /** Between puts, no CPU hoards two batches; and a put that moves a batch on leaves the CPU another one. */
  lemma PerCpuBound(s: Ctx, c: nat)
    requires Reachable(s) && c < |s.cpu|
    ensures !s.cpu[c].pc.PutLoop? && !s.cpu[c].pc.PutAdd? ==> 0 <= s.cpu[c].avail < 2 * s.batch
    ensures s.cpu[c].pc.PutAdd? ==> s.cpu[c].avail >= s.batch
  {
    ReachableInv(s);
    assert CpuOk(s.cpu[c], s.batch);
  }
}
