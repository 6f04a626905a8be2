/**
  The ready list of an epoll set (fs/eventpoll.c): event transfer by ep_scan_ready_list, running
  without the spinlock against poll callbacks that divert to the overflow list.
*/
module EpollReady {
  import opened Lists

  /** How an item asked to be reported: EPOLLONESHOT wins over EPOLLET, otherwise level triggered. */
  datatype Mode = Level | Edge | OneShot

  /** Progress of the transfer. Taken is the gap between list_del_init and the poll of an item. */
  datatype Scan =
    | NoScan
    | Send(cnt: nat, max: nat) | Taken(x: nat, cnt: nat, max: nat) | Polled(x: nat, cnt: nat, max: nat, ready: bool)
    | Read | ReadPolled(x: nat)
    | Ending(sent: bool)

  /**
    rdl, tx and ov are rdllist, txlist and the chain behind ovflist (active exactly while a scan runs).
    An armed item has an event mask with poll bits.
  */
  datatype Ep = Ep(rdl: seq<nat>, tx: seq<nat>, ov: seq<nat>, scan: Scan, armed: set<nat>, mode: map<nat, Mode>)

  datatype Move =
    | Callback(x: nat, matches: bool)
    | BeginSend(max: nat) | Take | Poll(ready: bool) | Put(fault: bool) | Done
    | BeginRead | ReadPoll(ready: bool) | ReadDel
    | End
    | Arm(x: nat, mode: Mode, ready: bool) | Remove(x: nat)

  predicate Linked(s: Ep, x: nat) { x in s.rdl || x in s.tx }

  /** The items of the overflow chain that are not on a list go to the tail of the ready list. */
  function Requeue(rdl: seq<nat>, tx: seq<nat>, ov: seq<nat>): seq<nat>
    decreases |ov|
  {
    if ov == [] then rdl
    else if ov[0] in rdl || ov[0] in tx then Requeue(rdl, tx, ov[1..])
    else Requeue(rdl + [ov[0]], tx, ov[1..])
  }

  /** ep_poll_callback, for an item whose mask accepts the event. */
  function Accept(s: Ep, x: nat): Ep {
    if !s.scan.NoScan? then (if x in s.ov then s else s.(ov := [x] + s.ov))
    else if Linked(s, x) then s else s.(rdl := s.rdl + [x])
  }

  function Step(s: Ep, m: Move): Ep {
    match m
    case Callback(x, matches) => if x in s.armed && matches then Accept(s, x) else s
    case BeginSend(max) => if s.scan.NoScan? then s.(tx := s.rdl, rdl := [], ov := [], scan := Send(0, max)) else s
    case Take =>
      if s.scan.Send? && s.tx != [] && s.scan.cnt < s.scan.max then
        s.(tx := s.tx[1..], scan := Taken(s.tx[0], s.scan.cnt, s.scan.max))
      else s
    case Poll(ready) =>
      if s.scan.Taken? then
        s.(scan := Polled(s.scan.x, s.scan.cnt, s.scan.max, ready && s.scan.x in s.armed))
      else s
    case Put(fault) => if s.scan.Polled? then Deliver(s, s.scan, fault) else s
    case Done =>
      if s.scan.Send? && (s.tx == [] || s.scan.cnt >= s.scan.max) then s.(scan := Ending(true))
      else if s.scan.Read? && s.tx == [] then s.(scan := Ending(false)) else s
    case BeginRead => if s.scan.NoScan? then s.(tx := s.rdl, rdl := [], ov := [], scan := Read) else s
    case ReadPoll(ready) =>
      if s.scan.Read? && s.tx != [] then
        s.(scan := if ready && s.tx[0] in s.armed then Ending(false) else ReadPolled(s.tx[0]))
      else s
    case ReadDel => if s.scan.ReadPolled? && s.tx != [] then s.(tx := s.tx[1..], scan := Read) else s
    case End =>
      if s.scan.Ending? then s.(rdl := s.tx + Requeue(s.rdl, s.tx, s.ov), tx := [], ov := [], scan := NoScan) else s
    case Arm(x, mode, ready) =>
      if s.scan.NoScan? then
        var s1 := s.(armed := s.armed + {x}, mode := s.mode[x := mode]);
        if ready && x !in s.rdl then s1.(rdl := s.rdl + [x]) else s1
      else s
    case Remove(x) =>
      if s.scan.NoScan? then s.(rdl := Without(s.rdl, x), armed := s.armed - {x}) else s
  }

  /** After the poll: copy the event out, then disarm a one-shot item or requeue a level-triggered one. */
  function Deliver(s: Ep, c: Scan, fault: bool): Ep
    requires c.Polled?
  {
    if !c.ready then s.(scan := Send(c.cnt, c.max))
    else if fault then s.(tx := [c.x] + s.tx, scan := Ending(true))
    else
      var mode := if c.x in s.mode then s.mode[c.x] else Level;
      var s1 := s.(scan := Send(c.cnt + 1, c.max));
      match mode
      case OneShot => s1.(armed := s.armed - {c.x})
      case Edge => s1
      case Level => s1.(rdl := s.rdl + [c.x])
  }

  function Run(s: Ep, ms: seq<Move>): Ep
    decreases |ms|
  {
    if ms == [] then s else Run(Step(s, ms[0]), ms[1..])
  }

  const Empty := Ep([], [], [], NoScan, {}, map[])

  // ---- nothing is lost or duplicated --------------------------------------------------------

  predicate NoDup(q: seq<nat>) { forall i, j :: 0 <= i < j < |q| ==> q[i] != q[j] }

  predicate Apart(a: seq<nat>, b: seq<nat>) { forall x :: x in a ==> x !in b }

  ghost predicate Inv(s: Ep) {
    && NoDup(s.rdl) && NoDup(s.tx) && Apart(s.rdl, s.tx) && NoDup(s.ov)
    && (s.scan.NoScan? ==> s.tx == [] && s.ov == [])
    && (s.scan.Taken? || s.scan.Polled? ==> !Linked(s, s.scan.x))
    && (s.scan.Polled? && s.scan.ready ==> s.scan.x in s.armed)
    && (s.scan.ReadPolled? ==> s.tx != [] && s.tx[0] == s.scan.x)
    && (s.scan.Send? ==> s.scan.cnt <= s.scan.max) && (s.scan.Taken? || s.scan.Polled? ==> s.scan.cnt < s.scan.max)
  }

  /** The item is on the ready list, the private list or the overflow list, or is about to be polled. */
  predicate Kept(s: Ep, x: nat) { Linked(s, x) || x in s.ov || (s.scan.Taken? && s.scan.x == x) }

  lemma {:induction false} RequeueKeeps(rdl: seq<nat>, tx: seq<nat>, ov: seq<nat>)
    requires NoDup(rdl) && Apart(rdl, tx)
    ensures NoDup(Requeue(rdl, tx, ov)) && Apart(Requeue(rdl, tx, ov), tx)
    ensures forall x :: x in rdl || x in ov ==> x in Requeue(rdl, tx, ov) || x in tx
    ensures rdl <= Requeue(rdl, tx, ov)
    ensures forall x :: x in Requeue(rdl, tx, ov) ==> x in rdl || x in ov
    decreases |ov|
  {
    if ov != [] {
      RequeueKeeps(if ov[0] in rdl || ov[0] in tx then rdl else rdl + [ov[0]], tx, ov[1..]);
    }
  }

  lemma NoDupJoin(a: seq<nat>, b: seq<nat>)
    requires NoDup(a) && NoDup(b) && Apart(b, a)
    ensures NoDup(a + b)
  {
    forall i, j | 0 <= i < j < |a + b| ensures (a + b)[i] != (a + b)[j] {
      if i < |a| <= j { assert b[j - |a|] in b && a[i] in a; }
    }
  }

  lemma NoDupTail(q: seq<nat>)
    requires q != [] && NoDup(q)
    ensures NoDup(q[1..]) && forall y :: y in q[1..] <==> y in q && y != q[0]
  {
    forall y | y in q && y != q[0] ensures y in q[1..] {
      var i :| 0 <= i < |q| && q[i] == y;
      assert q[1..][i - 1] == y;
    }
  }

  lemma {:induction false} WithoutKeeps(q: seq<nat>, x: nat)
    requires NoDup(q)
    ensures NoDup(Without(q, x)) && forall y :: y in Without(q, x) <==> y in q && y != x
  {
    if q != [] {
      NoDupTail(q);
      WithoutKeeps(q[1..], x);
      if q[0] != x { NoDupJoin([q[0]], Without(q[1..], x)); }
    }
  }

  lemma EndKeeps(s: Ep)
    requires Inv(s) && s.scan.Ending?
    ensures Inv(Step(s, End))
  {
    RequeueKeeps(s.rdl, s.tx, s.ov);
    NoDupJoin(s.tx, Requeue(s.rdl, s.tx, s.ov));
  }

  lemma CallbackKeeps(s: Ep, x: nat)
    requires Inv(s)
    ensures Inv(Accept(s, x))
  {
    if s.scan.NoScan? { if !Linked(s, x) { NoDupJoin(s.rdl, [x]); } }
    else if x !in s.ov { NoDupJoin([x], s.ov); }
  }

  lemma DeliverKeeps(s: Ep, fault: bool)
    requires Inv(s) && s.scan.Polled?
    ensures Inv(Deliver(s, s.scan, fault))
  {
    NoDupJoin(s.rdl, [s.scan.x]);
    NoDupJoin([s.scan.x], s.tx);
  }

  lemma TakeKeeps(s: Ep, m: Move)
    requires Inv(s) && s.tx != [] && (m.Take? || m.ReadDel? || m.ReadPoll? || m.Poll?)
    ensures Inv(Step(s, m))
  {
    NoDupTail(s.tx);
  }

  lemma StepKeeps(s: Ep, m: Move)
    requires Inv(s)
    ensures Inv(Step(s, m))
  {
    match m {
      case Callback(x, matches) => CallbackKeeps(s, x);
      case Put(fault) => if s.scan.Polled? { DeliverKeeps(s, fault); }
      case Take | ReadDel | ReadPoll(_) | Poll(_) => if s.tx != [] { TakeKeeps(s, m); }
      case End => if s.scan.Ending? { EndKeeps(s); }
      case Arm(x, mode, ready) => if s.scan.NoScan? && x !in s.rdl { NoDupJoin(s.rdl, [x]); }
      case Remove(x) => WithoutKeeps(s.rdl, x);
      case BeginSend(_) | BeginRead | Done =>
    }
  }

  lemma {:induction false} RunKeeps(s: Ep, ms: seq<Move>)
    requires Inv(s)
    ensures Inv(Run(s, ms))
    decreases |ms|
  {
    if ms != [] {
      StepKeeps(s, ms[0]);
      RunKeeps(Step(s, ms[0]), ms[1..]);
    }
  }

  /** In every run no item is linked twice, and between transfers the private and overflow lists are empty. */
  lemma ListsAreSound(ms: seq<Move>)
    ensures var s := Run(Empty, ms); NoDup(s.rdl + s.tx) && NoDup(s.ov) && (s.scan.NoScan? ==> s.tx == [] && s.ov == [])
  {
    RunKeeps(Empty, ms);
    var s := Run(Empty, ms);
    forall i, j | 0 <= i < j < |s.rdl + s.tx| ensures (s.rdl + s.tx)[i] != (s.rdl + s.tx)[j] {
      if i < |s.rdl| <= j { assert s.rdl[i] in s.rdl && s.tx[j - |s.rdl|] in s.tx; }
    }
  }

  // ---- what puts an item on the lists and what takes it off ------------------------------------------

  /** The move hands an event of x to the caller. */
  predicate Reports(s: Ep, m: Move, x: nat) { m == Put(false) && s.scan.Polled? && s.scan.x == x && s.scan.ready }

  /** The move polls item x. */
  predicate Polls(s: Ep, m: Move, x: nat) {
    (m.Poll? && s.scan.Taken? && s.scan.x == x) || (m.ReadPoll? && s.scan.Read? && s.tx != [] && s.tx[0] == x)
  }

  predicate LevelTriggered(s: Ep, x: nat) { x !in s.mode || s.mode[x].Level? }

  /** There is something to look at: a callback, readiness when armed, a level-triggered or a failed report. */
  predicate Causes(s: Ep, m: Move, x: nat) {
    || (m == Callback(x, true) && x in s.armed)
    || (m.Arm? && m.x == x && m.ready && s.scan.NoScan?)
    || (Reports(s, m, x) && LevelTriggered(s, x))
    || (m == Put(true) && s.scan.Polled? && s.scan.x == x && s.scan.ready)
  }

  /** The item has been looked at, without a callback in the meantime, or is removed. */
  predicate Drops(s: Ep, m: Move, x: nat) {
    || (m.Poll? && s.scan.Taken? && s.scan.x == x && x !in s.ov)
    || (m.ReadDel? && s.scan.ReadPolled? && s.scan.x == x && x !in s.ov)
    || (m == Remove(x) && s.scan.NoScan?)
  }

  lemma EndMembers(s: Ep, x: nat)
    requires Inv(s) && s.scan.Ending?
    ensures Kept(Step(s, End), x) <==> Kept(s, x)
  {
    RequeueKeeps(s.rdl, s.tx, s.ov);
  }

  /** An item is listed after a step exactly if it was and the step does not drop it, or the step is a cause. */
  lemma ListedExactly(s: Ep, m: Move, x: nat)
    requires Inv(s)
    ensures Kept(Step(s, m), x) <==> (if Kept(s, x) then !Drops(s, m, x) else Causes(s, m, x))
  {
    match m {
      case Take => if s.tx != [] { NoDupTail(s.tx); }
      case ReadDel => if s.tx != [] { NoDupTail(s.tx); }
      case End => if s.scan.Ending? { EndMembers(s, x); }
      case Remove(y) => WithoutKeeps(s.rdl, y);
      case Callback(_, _) | BeginSend(_) | BeginRead | Poll(_) | Put(_) | Done | ReadPoll(_) | Arm(_, _, _) =>
    }
  }

  /** Listed, and not merely because a read has just found it idle and is about to take it off. */
  predicate Safe(s: Ep, x: nat) { Kept(s, x) && (s.scan.ReadPolled? && s.scan.x == x ==> x in s.ov) }

  /** No step of the run polls or removes x. */
  predicate Unseen(s: Ep, ms: seq<Move>, x: nat)
    decreases |ms|
  {
    ms != [] ==> !Polls(s, ms[0], x) && ms[0] != Remove(x) && Unseen(Step(s, ms[0]), ms[1..], x)
  }

  lemma {:induction false} SafeAlong(s: Ep, ms: seq<Move>, x: nat)
    requires Inv(s) && Safe(s, x) && Unseen(s, ms, x)
    ensures Safe(Run(s, ms), x)
    decreases |ms|
  {
    if ms != [] {
      ListedExactly(s, ms[0], x);
      StepKeeps(s, ms[0]);
      SafeAlong(Step(s, ms[0]), ms[1..], x);
    }
  }

  /** A poll of a reader finds x ready, so that it stays where it is. */
  predicate FoundReady(s: Ep, m: Move, x: nat) {
    m == ReadPoll(true) && s.scan.Read? && s.tx != [] && s.tx[0] == x && x in s.armed
  }

  /**
    No event is lost: from any cause (or from a read that found it ready) on, whatever callbacks and transfers are
    interleaved, an item stays on the ready list, the private list or the overflow list, or in hand, until it
    is polled again or removed.
  */
  lemma NoEventLost(before: seq<Move>, m: Move, ms: seq<Move>, x: nat)
    requires var s := Run(Empty, before); Causes(s, m, x) || FoundReady(s, m, x)
    requires Unseen(Step(Run(Empty, before), m), ms, x)
    ensures Kept(Run(Step(Run(Empty, before), m), ms), x)
  {
    var s := Run(Empty, before);
    RunKeeps(Empty, before);
    ListedExactly(s, m, x);
    StepKeeps(s, m);
    CauseIsSafe(s, m, x);
    SafeAlong(Step(s, m), ms, x);
  }

  lemma CauseIsSafe(s: Ep, m: Move, x: nat)
    requires Inv(s) && (Causes(s, m, x) || FoundReady(s, m, x))
    ensures Safe(Step(s, m), x)
  {
    ListedExactly(s, m, x);
  }

  /** No step of the run gives x a cause. */
  predicate NoCause(s: Ep, ms: seq<Move>, x: nat)
    decreases |ms|
  {
    ms != [] ==> !Causes(s, ms[0], x) && NoCause(Step(s, ms[0]), ms[1..], x)
  }

  /** And nothing comes onto the lists by itself: an item that is off stays off until there is a cause. */
  lemma {:induction false} OffUntilCause(s: Ep, ms: seq<Move>, x: nat)
    requires Inv(s) && !Kept(s, x) && NoCause(s, ms, x)
    ensures !Kept(Run(s, ms), x)
    decreases |ms|
  {
    if ms != [] {
      ListedExactly(s, ms[0], x);
      StepKeeps(s, ms[0]);
      OffUntilCause(Step(s, ms[0]), ms[1..], x);
    }
  }

  /** A callback for x is accepted somewhere in the run. */
  predicate CalledBackIn(s: Ep, ms: seq<Move>, x: nat)
    decreases |ms|
  {
    ms != [] && ((ms[0] == Callback(x, true) && x in s.armed) || CalledBackIn(Step(s, ms[0]), ms[1..], x))
  }

  /** The run stays inside the transfer, up to its last locked section. */
  predicate Inside(s: Ep, ms: seq<Move>)
    decreases |ms|
  {
    ms != [] ==> ms[0] != End && Inside(Step(s, ms[0]), ms[1..])
  }

  /** Not on a list of the transfer and not in hand: only the overflow list can bring x back. */
  predicate OutOfTransfer(s: Ep, x: nat) {
    !s.scan.NoScan? && !Linked(s, x) && !((s.scan.Taken? || s.scan.Polled?) && s.scan.x == x)
  }

  lemma {:induction false} OverflowAlone(s: Ep, ms: seq<Move>, x: nat)
    requires Inv(s) && OutOfTransfer(s, x) && Inside(s, ms)
    ensures var s' := Run(s, ms);
            Inv(s') && OutOfTransfer(s', x) && (x in s'.ov <==> x in s.ov || CalledBackIn(s, ms, x))
    decreases |ms|
  {
    if ms != [] {
      StepKeeps(s, ms[0]);
      OutStep(s, ms[0], x);
      OverflowAlone(Step(s, ms[0]), ms[1..], x);
    }
  }

  lemma OutStep(s: Ep, m: Move, x: nat)
    requires Inv(s) && OutOfTransfer(s, x) && m != End
    ensures var s' := Step(s, m);
            OutOfTransfer(s', x) && (x in s'.ov <==> x in s.ov || (m == Callback(x, true) && x in s.armed))
  {
  }

  /** The report, or the idle poll, of x ends what this transfer does with it. */
  predicate DoneWith(s: Ep, m: Move, x: nat) {
    m.Put? && s.scan.Polled? && s.scan.x == x && (!s.scan.ready || (m == Put(false) && !LevelTriggered(s, x)))
  }

  /**
    An edge-triggered or one-shot item that was reported, and any item that was polled and found idle, is on the ready
    list after the transfer exactly if a callback for it was accepted during the transfer.
  */
  lemma RequeuedOnlyByCallback(before: seq<Move>, m: Move, ms: seq<Move>, x: nat)
    requires var s := Run(Empty, before); DoneWith(s, m, x) && Inside(Step(s, m), ms)
    requires Run(Step(Run(Empty, before), m), ms).scan.Ending?
    ensures var s := Run(Empty, before);
            var s1 := Step(s, m);
            x in Step(Run(s1, ms), End).rdl <==> x in s.ov || CalledBackIn(s1, ms, x)
  {
    var s := Run(Empty, before);
    RunKeeps(Empty, before);
    StepKeeps(s, m);
    OverflowAlone(Step(s, m), ms, x);
    var s' := Run(Step(s, m), ms);
    RequeueKeeps(s'.rdl, s'.tx, s'.ov);
  }

  lemma RunOne(s: Ep, m: Move, ms: seq<Move>)
    ensures Run(s, [m] + ms) == Run(Step(s, m), ms)
  {
    assert ([m] + ms)[1..] == ms;
  }

  /** Even a callback that came before the poll brings an edge-triggered item back. */
  lemma EarlyCallbackRequeues() returns (before: seq<Move>)
    ensures var s := Run(Empty, before);
            && Reports(s, Put(false), 0) && 0 in s.mode && s.mode[0].Edge?
            && 0 in Step(Step(Step(s, Put(false)), Done), End).rdl
  {
    before := [Arm(0, Edge, true)] + ([BeginSend(1)] + ([Callback(0, true)] + ([Take] + ([Poll(true)] + []))));
    var mode: map<nat, Mode> := map[0 := Edge];
    var s1 := Ep([0], [], [], NoScan, {0}, mode);
    RunOne(Empty, Arm(0, Edge, true), [BeginSend(1)] + ([Callback(0, true)] + ([Take] + ([Poll(true)] + []))));
    assert Step(Empty, Arm(0, Edge, true)) == s1;
    var s2 := Ep([], [0], [], Send(0, 1), {0}, mode);
    RunOne(s1, BeginSend(1), [Callback(0, true)] + ([Take] + ([Poll(true)] + [])));
    assert Step(s1, BeginSend(1)) == s2;
    var s3 := Ep([], [0], [0], Send(0, 1), {0}, mode);
    RunOne(s2, Callback(0, true), [Take] + ([Poll(true)] + []));
    assert [0] + [] == [0] && Step(s2, Callback(0, true)) == s3;
    var s4 := Ep([], [], [0], Taken(0, 0, 1), {0}, mode);
    RunOne(s3, Take, [Poll(true)] + []);
    assert [0][1..] == [] && Step(s3, Take) == s4;
    RunOne(s4, Poll(true), []);
    EarlyCallbackEnds(Run(Empty, before), mode);
  }

  lemma EarlyCallbackEnds(s: Ep, mode: map<nat, Mode>)
    requires s == Ep([], [], [0], Polled(0, 0, 1, true), {0}, mode) && mode == map[0 := Edge]
    ensures 0 in Step(Step(Step(s, Put(false)), Done), End).rdl
  {
    var s6 := Step(Step(s, Put(false)), Done);
    assert s6 == Ep([], [], [0], Ending(true), {0}, mode);
    RequeueKeeps(s6.rdl, s6.tx, s6.ov);
  }

  // ---- no more events than there is room for -----------------------------------------------------------

  /** How many events a run hands to callers. */
  function ReportCount(s: Ep, ms: seq<Move>): nat
    decreases |ms|
  {
    if ms == [] then 0
    else (if ms[0] == Put(false) && s.scan.Polled? && s.scan.ready then 1 else 0) + ReportCount(Step(s, ms[0]), ms[1..])
  }

  /** Room left in the caller's buffer. */
  function Room(scan: Scan): int {
    if scan.Send? || scan.Taken? || scan.Polled? then scan.max - scan.cnt else 0
  }

  lemma {:induction false} ReportsFit(s: Ep, ms: seq<Move>)
    requires Inv(s) && !s.scan.NoScan? && Inside(s, ms)
    ensures ReportCount(s, ms) <= Room(s.scan)
    decreases |ms|
  {
    if ms != [] {
      StepKeeps(s, ms[0]);
      ReportsFit(Step(s, ms[0]), ms[1..]);
    }
  }

  predicate Sending(scan: Scan) { scan.Send? || scan.Taken? || scan.Polled? || scan == Ending(true) }

  /** A transfer to a caller stays one until it ends. */
  lemma {:induction false} SendingStays(s: Ep, ms: seq<Move>)
    requires Sending(s.scan) && Inside(s, ms)
    ensures Sending(Run(s, ms).scan)
    decreases |ms|
  {
    if ms != [] { SendingStays(Step(s, ms[0]), ms[1..]); }
  }

  /** A transfer with room for max events reports at most max of them, and counts as a transfer when it ends. */
  lemma AtMostMaxEvents(before: seq<Move>, max: nat, ms: seq<Move>)
    requires Run(Empty, before).scan.NoScan? && Inside(Step(Run(Empty, before), BeginSend(max)), ms)
    ensures ReportCount(Step(Run(Empty, before), BeginSend(max)), ms) <= max
    ensures var scan := Run(Step(Run(Empty, before), BeginSend(max)), ms).scan; scan.Ending? ==> scan.sent
  {
    SendingStays(Step(Run(Empty, before), BeginSend(max)), ms);
    RunKeeps(Empty, before);
    StepKeeps(Run(Empty, before), BeginSend(max));
    ReportsFit(Step(Run(Empty, before), BeginSend(max)), ms);
  }

  /** Inside a transfer that has stopped sending, nothing but callbacks happens. */
  lemma {:induction false} EndingStays(s: Ep, ms: seq<Move>)
    requires Inv(s) && s.scan.Ending? && Inside(s, ms)
    ensures var s' := Run(s, ms); Inv(s') && s'.scan == s.scan && s'.tx == s.tx && s'.rdl == s.rdl
    ensures ReportCount(s, ms) == 0
    decreases |ms|
  {
    if ms != [] {
      StepKeeps(s, ms[0]);
      EndingStays(Step(s, ms[0]), ms[1..]);
    }
  }

  lemma {:induction false} SendsUntilFull(s: Ep, ms: seq<Move>)
    requires Inv(s) && (s.scan.Send? || s.scan.Taken? || s.scan.Polled?) && Inside(s, ms) && Put(true) !in ms
    requires Run(s, ms).scan.Ending?
    ensures Run(s, ms).tx == [] || ReportCount(s, ms) == Room(s.scan)
    decreases |ms|
  {
    if ms != [] {
      var s1 := Step(s, ms[0]);
      StepKeeps(s, ms[0]);
      if s1.scan.Ending? { EndingStays(s1, ms[1..]); } else { SendsUntilFull(s1, ms[1..]); }
    }
  }

  /** A transfer without faults stops only when the list is empty or exactly max events were reported. */
  lemma FillsTheBuffer(before: seq<Move>, max: nat, ms: seq<Move>)
    requires Run(Empty, before).scan.NoScan? && Inside(Step(Run(Empty, before), BeginSend(max)), ms) && Put(true) !in ms
    requires Run(Step(Run(Empty, before), BeginSend(max)), ms).scan.Ending?
    ensures var s := Step(Run(Empty, before), BeginSend(max)); Run(s, ms).tx == [] || ReportCount(s, ms) == max
  {
    RunKeeps(Empty, before);
    StepKeeps(Run(Empty, before), BeginSend(max));
    SendsUntilFull(Step(Run(Empty, before), BeginSend(max)), ms);
  }

  /** An item whose report faulted is the first one of the next transfer. */
  lemma FaultedIsNext(before: seq<Move>, ms: seq<Move>)
    requires var s := Run(Empty, before); s.scan.Polled? && s.scan.ready && Inside(Step(s, Put(true)), ms)
    ensures var s := Run(Empty, before);
            var rdl := Step(Run(Step(s, Put(true)), ms), End).rdl;
            rdl != [] && rdl[0] == s.scan.x
  {
    var s := Run(Empty, before);
    RunKeeps(Empty, before);
    StepKeeps(s, Put(true));
    EndingStays(Step(s, Put(true)), ms);
  }

  /** Some poll of the run finds an armed item ready for a reader. */
  predicate FindsReady(s: Ep, ms: seq<Move>)
    decreases |ms|
  {
    ms != [] && ((s.tx != [] && FoundReady(s, ms[0], s.tx[0])) || FindsReady(Step(s, ms[0]), ms[1..]))
  }

  lemma {:induction false} ReadAlong(s: Ep, ms: seq<Move>)
    requires Inv(s) && (s.scan.Read? || s.scan.ReadPolled? || s.scan == Ending(false)) && Inside(s, ms)
    requires s.scan.Ending? ==> s.tx == []
    requires Run(s, ms).scan.Ending?
    ensures Run(s, ms).scan == Ending(false) && ReportCount(s, ms) == 0 && (Run(s, ms).tx != [] <==> FindsReady(s, ms))
    decreases |ms|
  {
    if ms != [] {
      var s1 := Step(s, ms[0]);
      StepKeeps(s, ms[0]);
      if s.tx != [] && FoundReady(s, ms[0], s.tx[0]) { EndingStays(s1, ms[1..]); } else { ReadAlong(s1, ms[1..]); }
    }
  }

  /**
    Polling the set itself: the walk is left with an item in front, which is what makes the set readable, exactly if
    it found an armed item ready; otherwise it has taken everything off. Nothing is reported by it.
  */
  lemma ReadableExactly(before: seq<Move>, ms: seq<Move>)
    requires Run(Empty, before).scan.NoScan? && Inside(Step(Run(Empty, before), BeginRead), ms)
    requires Run(Step(Run(Empty, before), BeginRead), ms).scan.Ending?
    ensures var s := Step(Run(Empty, before), BeginRead);
            && (Run(s, ms).tx != [] <==> FindsReady(s, ms))
            && ReportCount(s, ms) == 0 && !Run(s, ms).scan.sent
  {
    RunKeeps(Empty, before);
    StepKeeps(Run(Empty, before), BeginRead);
    ReadAlong(Step(Run(Empty, before), BeginRead), ms);
  }

  /** Nothing overtakes what is on the ready list: it grows at its tail, and a transfer puts its leftovers in front. */
  lemma NoOvertaking(s: Ep, m: Move)
    requires Inv(s)
    ensures !m.BeginSend? && !m.BeginRead? && !m.Remove? && !m.End? ==> s.rdl <= Step(s, m).rdl
    ensures m.End? && s.scan.Ending? ==> s.tx + s.rdl <= Step(s, m).rdl
    ensures (m.BeginSend? || m.BeginRead?) && s.scan.NoScan? ==> Step(s, m).tx == s.rdl
  {
    if m.End? { RequeueKeeps(s.rdl, s.tx, s.ov); }
  }

  // ---- transfers come to an end ---------------------------------------------------------------------

  /** The steps of the transfer itself, copies succeeding. */
  predicate OwnStep(m: Move) {
    m.Take? || m.Poll? || m == Put(false) || m.Done? || m.ReadPoll? || m.ReadDel? || m.End?
  }

  /** How many of them are left at most. */
  function Left(s: Ep): nat {
    match s.scan
    case NoScan => 0
    case Ending(_) => 1
    case Send(_, _) => 3 * |s.tx| + 2
    case Taken(_, _, _) => 3 * |s.tx| + 4
    case Polled(_, _, _, _) => 3 * |s.tx| + 3
    case Read => 2 * |s.tx| + 2
    case ReadPolled(_) => 2 * |s.tx| + 1
  }

  /** In every state of a transfer there is a step of its own to take, and it brings the end closer. */
  lemma NeverStuck(s: Ep) returns (m: Move)
    requires Inv(s) && !s.scan.NoScan?
    ensures OwnStep(m) && Left(Step(s, m)) < Left(s)
  {
    match s.scan {
      case Send(cnt, max) => m := if s.tx != [] && cnt < max then Take else Done;
      case Taken(_, _, _) => m := Poll(false);
      case Polled(_, _, _, _) => m := Put(false);
      case Read => m := if s.tx != [] then ReadPoll(false) else Done;
      case ReadPolled(_) => m := ReadDel;
      case Ending(_) => m := End;
    }
  }

  // ---- removed items -----------------------------------------------------------------------------------

  /** Off all lists, not in hand and not armed. */
  predicate Away(s: Ep, x: nat) {
    !Kept(s, x) && x !in s.armed && !(s.scan.Polled? && s.scan.x == x)
  }

  lemma {:induction false} StaysAway(s: Ep, ms: seq<Move>, x: nat)
    requires Inv(s) && Away(s, x) && NeverArmed(ms, x)
    ensures Away(Run(s, ms), x)
    decreases |ms|
  {
    if ms != [] {
      StepKeeps(s, ms[0]);
      ListedExactly(s, ms[0], x);
      StaysAway(Step(s, ms[0]), ms[1..], x);
    }
  }

  /** A removed item is never listed, polled or reported, whatever callbacks still come, until it is added anew. */
  lemma RemovedIsGone(before: seq<Move>, ms: seq<Move>, x: nat)
    requires Run(Empty, before).scan.NoScan? && NeverArmed(ms, x)
    ensures Away(Run(Step(Run(Empty, before), Remove(x)), ms), x)
  {
    RunKeeps(Empty, before);
    StepKeeps(Run(Empty, before), Remove(x));
    ListedExactly(Run(Empty, before), Remove(x), x);
    OffIsAway(Run(Empty, before), x);
    StaysAway(Step(Run(Empty, before), Remove(x)), ms, x);
  }

  lemma OffIsAway(s: Ep, x: nat)
    requires Inv(s) && s.scan.NoScan?
    ensures Away(Step(s, Remove(x)), x)
  {
    WithoutKeeps(s.rdl, x);
  }

  // ---- one-shot items -----------------------------------------------------------------------

  predicate ReportedIn(s: Ep, ms: seq<Move>, x: nat)
    decreases |ms|
  {
    ms != [] && (Reports(s, ms[0], x) || ReportedIn(Step(s, ms[0]), ms[1..], x))
  }

  predicate NeverArmed(ms: seq<Move>, x: nat) { forall i :: 0 <= i < |ms| ==> !(ms[i].Arm? && ms[i].x == x) }

  lemma {:induction false} DisarmedIsSilent(s: Ep, ms: seq<Move>, x: nat)
    requires Inv(s) && x !in s.armed && NeverArmed(ms, x)
    ensures !ReportedIn(s, ms, x)
    decreases |ms|
  {
    if ms != [] {
      StepKeeps(s, ms[0]);
      assert x !in Step(s, ms[0]).armed;
      DisarmedIsSilent(Step(s, ms[0]), ms[1..], x);
    }
  }

  /** Once a one-shot item was reported, nothing reports it again until it is armed anew. */
  lemma OneShotReportsOnce(before: seq<Move>, ms: seq<Move>, x: nat)
    requires var s := Run(Empty, before); Reports(s, Put(false), x) && x in s.mode && s.mode[x].OneShot?
    requires NeverArmed(ms, x)
    ensures !ReportedIn(Step(Run(Empty, before), Put(false)), ms, x)
  {
    RunKeeps(Empty, before);
    StepKeeps(Run(Empty, before), Put(false));
    DisarmedIsSilent(Step(Run(Empty, before), Put(false)), ms, x);
  }

  // ---- nothing starves ----------------------------------------------------------------------

  predicate PolledIn(s: Ep, ms: seq<Move>, x: nat)
    decreases |ms|
  {
    ms != [] && (Polls(s, ms[0], x) || PolledIn(Step(s, ms[0]), ms[1..], x))
  }

  /** How many event-sending transfers a run completes. */
  function Scans(s: Ep, ms: seq<Move>): nat
    decreases |ms|
  {
    if ms == [] then 0
    else (if ms[0].End? && s.scan == Ending(true) then 1 else 0) + Scans(Step(s, ms[0]), ms[1..])
  }

  /** Copies to the caller succeed, every caller offers room for m events, and x stays registered. */
  predicate FairMove(m: Move, x: nat, room: nat) {
    m != Put(true) && m != Remove(x) && (m.BeginSend? ==> m.max >= room)
  }

  predicate Fair(ms: seq<Move>, x: nat, room: nat) { forall i :: 0 <= i < |ms| ==> FairMove(ms[i], x, room) }

  /** x sits in q at an index of at most d. */
  predicate Within(q: seq<nat>, x: nat, d: int) { exists i :: 0 <= i < |q| && i <= d && q[i] == x }

  /** x waits with at most p places still to go before it, counting what the current transfer has sent. */
  predicate Waits(s: Ep, x: nat, p: nat, room: nat) {
    match s.scan
    case NoScan => Within(s.rdl, x, p)
    case Send(cnt, max) => max >= room && Within(s.tx, x, p - cnt)
    case Taken(y, cnt, max) => max >= room && (y == x || Within(s.tx, x, p - cnt - 1))
    case Polled(y, cnt, max, _) => max >= room && Within(s.tx, x, p - cnt - 1)
    case Read => Within(s.tx, x, p)
    case ReadPolled(y) => y != x && Within(s.tx, x, p)
    case Ending(sent) => Within(s.tx, x, if sent then p - room else p)
  }

  lemma WithinGrows(q: seq<nat>, r: seq<nat>, x: nat, d: int)
    requires Within(q, x, d)
    ensures Within(q + r, x, d)
  {
    var i :| 0 <= i < |q| && i <= d && q[i] == x;
    assert (q + r)[i] == x;
  }

  lemma WithinTail(q: seq<nat>, x: nat, d: int)
    requires Within(q, x, d) && q[0] != x
    ensures Within(q[1..], x, d - 1)
  {
    var i :| 0 <= i < |q| && i <= d && q[i] == x;
    assert q[1..][i - 1] == x;
  }

  lemma {:induction false} WithinWithout(q: seq<nat>, x: nat, y: nat, d: int)
    requires Within(q, x, d) && x != y
    ensures Within(Without(q, y), x, d)
  {
    if q[0] == x {
      assert Without(q, y)[0] == x;
    } else {
      WithinTail(q, x, d);
      WithinWithout(q[1..], x, y, d - 1);
      var i :| 0 <= i < |Without(q[1..], y)| && i <= d - 1 && Without(q[1..], y)[i] == x;
      if q[0] != y { assert Without(q, y)[i + 1] == x; } else { assert Without(q, y)[i] == x; }
    }
  }

  lemma WaitsStep(s: Ep, m: Move, x: nat, p: nat, room: nat)
    requires Inv(s) && Waits(s, x, p, room) && FairMove(m, x, room) && !Polls(s, m, x)
    ensures m.End? && s.scan == Ending(true) ==> p >= room && Waits(Step(s, m), x, p - room, room)
    ensures !(m.End? && s.scan == Ending(true)) ==> Waits(Step(s, m), x, p, room)
  {
    match m {
      case Callback(y, matches) => if s.scan.NoScan? { WithinGrows(s.rdl, [y], x, p); }
      case Arm(y, mode, ready) => if s.scan.NoScan? { WithinGrows(s.rdl, [y], x, p); }
      case Take =>
        if s.scan.Send? && s.tx != [] && s.tx[0] != x { WithinTail(s.tx, x, p - s.scan.cnt); }
      case ReadDel => if s.scan.ReadPolled? { WithinTail(s.tx, x, p); }
      case End =>
        if s.scan.Ending? {
          WithinGrows(s.tx, Requeue(s.rdl, s.tx, s.ov), x, if s.scan.sent then p - room else p);
        }
      case Remove(y) => if s.scan.NoScan? { WithinWithout(s.rdl, x, y, p); }
      case Poll(_) | Put(_) | Done | BeginSend(_) | BeginRead | ReadPoll(_) =>
    }
  }

  lemma {:induction false} UnpolledBoundsScans(s: Ep, ms: seq<Move>, x: nat, p: nat, room: nat)
    requires Inv(s) && Waits(s, x, p, room) && Fair(ms, x, room) && !PolledIn(s, ms, x)
    ensures Scans(s, ms) * room <= p
    decreases |ms|
  {
    if ms != [] {
      assert FairMove(ms[0], x, room);
      WaitsStep(s, ms[0], x, p, room);
      StepKeeps(s, ms[0]);
      assert Fair(ms[1..], x, room);
      var ended := ms[0].End? && s.scan == Ending(true);
      UnpolledBoundsScans(Step(s, ms[0]), ms[1..], x, if ended then p - room else p, room);
    }
  }

  lemma EnoughScans(n: nat, p: nat, room: nat)
    requires room >= 1 && n >= p / room + 1
    ensures n * room > p
  {
    assert (p / room + 1) * room > p;
    assert n * room >= (p / room + 1) * room;
  }

  /**
    No starvation: from any reachable idle state, whatever callbacks, reads and registrations are
    interleaved, an item at position p of the ready list is polled by the time p / room + 1 transfers
    have completed.
  */
  lemma NoStarvation(before: seq<Move>, ms: seq<Move>, p: nat, room: nat)
    requires room >= 1
    requires var s := Run(Empty, before); s.scan.NoScan? && p < |s.rdl| && Fair(ms, s.rdl[p], room)
    requires Scans(Run(Empty, before), ms) >= p / room + 1
    ensures PolledIn(Run(Empty, before), ms, Run(Empty, before).rdl[p])
  {
    var s := Run(Empty, before);
    RunKeeps(Empty, before);
    EnoughScans(Scans(s, ms), p, room);
    if !PolledIn(s, ms, s.rdl[p]) { UnpolledBoundsScans(s, ms, s.rdl[p], p, room); }
  }

  // ---- the linked representation ------------------------------------------------------------

  /** A link word: EP_UNACTIVE_PTR, NULL, or an item. */
  datatype Link = Unactive | Null | To(item: nat)

  /** Following `next` from l visits exactly the items of q, ending in NULL. */
  predicate Chain(next: map<nat, Link>, l: Link, q: seq<nat>)
    decreases |q|
  {
    if q == [] then l == Null
    else l == To(q[0]) && q[0] in next && Chain(next, next[q[0]], q[1..])
  }

  lemma {:induction false} ChainFrame(next: map<nat, Link>, l: Link, q: seq<nat>, x: nat, v: Link)
    requires Chain(next, l, q) && x !in q
    ensures Chain(next[x := v], l, q)
    decreases |q|
  {
    if q != [] { ChainFrame(next, next[q[0]], q[1..], x, v); }
  }

  /**
    The lists as the code holds them: rdllist, the scan's private txlist, the ovflist head and one
    `next` word per item. Abs gives the overflow chain (a ghost copy, tied to the links by Valid).
  */
  class EventPoll {
    var rdllist: seq<nat>
    var txlist: seq<nat>
    var ovflist: Link
    var next: map<nat, Link>
    ghost var chain: seq<nat>

    ghost predicate Valid()
      reads this
    {
      && (ovflist == Unactive ==> chain == [] && forall x :: x in next ==> next[x] == Unactive)
      && (ovflist != Unactive ==> Chained(next, ovflist, chain))
    }

    /** The object holds the lists of abstract state s. */
    ghost predicate Shows(s: Ep)
      reads this
    {
      rdllist == s.rdl && txlist == s.tx && chain == s.ov && (ovflist == Unactive <==> s.scan.NoScan?)
    }

    constructor ()
      ensures Shows(Empty)
      ensures Valid() && rdllist == [] && txlist == [] && ovflist == Unactive && next == map[] && chain == []
    {
      rdllist, txlist, ovflist, next, chain := [], [], Unactive, map[], [];
    }

    /** ep_insert: a new item starts with an inactive link. */
    method Insert(x: nat)
      requires Valid() && x !in next
      modifies this`next
      ensures Valid() && next == old(next)[x := Unactive]
    {
      next := next[x := Unactive];
      assert x !in chain by { if ovflist != Unactive { ChainKnown(old(next), ovflist, chain, x); } }
      if ovflist != Unactive { ChainFrame(old(next), ovflist, chain, x, Unactive); }
    }

    /** ep_poll_callback under ep->lock: the link word alone tells whether the item is already chained. */
    method Callback(x: nat, ghost s: Ep)
      requires Valid() && x in next && Shows(s)
      modifies this`rdllist, this`ovflist, this`next, this`chain
      ensures Valid() && next.Keys == old(next.Keys)
      ensures Shows(Accept(s, x)) && (ovflist == Unactive ==> next == old(next))
    {
      if ovflist != Unactive {
        if next[x] == Unactive {
          ChainFrame(next, ovflist, chain, x, ovflist);
          NoDupJoin([x], chain);
          next := next[x := ovflist];
          ovflist := To(x);
          chain := [x] + chain;
        }
      } else if x !in rdllist && x !in txlist {
        rdllist := rdllist + [x];
      }
    }

    /** The first locked section of ep_scan_ready_list: steal the ready list and divert callbacks. */
    method ScanBegin(ghost s: Ep, ghost max: nat)
      requires Valid() && Shows(s) && Inv(s) && s.scan.NoScan?
      modifies this`rdllist, this`txlist, this`ovflist
      ensures Valid() && Shows(Step(s, BeginSend(max))) && Shows(Step(s, BeginRead))
    {
      txlist := rdllist;
      rdllist := [];
      ovflist := Null;
    }

    /**
      The last locked section: walk the overflow chain, resetting each link as it is passed, then
      splice the leftovers in front. Every link is inactive afterwards.
    */
    method ScanEnd(ghost s: Ep)
      requires Valid() && Shows(s) && s.scan.Ending?
      modifies this
      ensures Valid() && Shows(Step(s, End))
      ensures next.Keys == old(next.Keys) && forall x :: x in next ==> next[x] == Unactive
    {
      var nepi := ovflist;
      while nepi != Null
        invariant Chained(next, nepi, chain)
        invariant txlist == old(txlist) && next.Keys == old(next.Keys)
        invariant Requeue(rdllist, txlist, chain) == Requeue(old(rdllist), old(txlist), old(chain))
        decreases |chain|
      {
        var epi := nepi.item;
        if epi !in rdllist && epi !in txlist {
          rdllist := rdllist + [epi];
        }
        PassLink(next, nepi, chain);
        nepi := next[epi];
        next := next[epi := Unactive];
        chain := chain[1..];
      }
      assert chain == [];
      ovflist := Unactive;
      rdllist := txlist + rdllist;
      txlist := [];
    }
  }

  /** A chain without repetition whose members are exactly the items with an active link. */
  predicate Chained(next: map<nat, Link>, l: Link, q: seq<nat>) {
    && l != Unactive && Chain(next, l, q) && NoDup(q)
    && (forall x :: x in next ==> (next[x] == Unactive <==> x !in q))
  }

  /** Taking the first item off and resetting its link. */
  lemma PassLink(next: map<nat, Link>, l: Link, q: seq<nat>)
    requires Chained(next, l, q) && l != Null
    ensures q != [] && l == To(q[0]) && q[0] in next && Chained(next[q[0] := Unactive], next[q[0]], q[1..])
  {
    NoDupTail(q);
    ChainFrame(next, next[q[0]], q[1..], q[0], Unactive);
  }

  lemma {:induction false} ChainKnown(next: map<nat, Link>, l: Link, q: seq<nat>, x: nat)
    requires Chain(next, l, q) && x !in next
    ensures x !in q
    decreases |q|
  {
    if q != [] { ChainKnown(next, next[q[0]], q[1..], x); }
  }
}
