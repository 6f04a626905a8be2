/**
  The ring as it lies in pages (fs/aio.c): completions store at a page and slot computed from the
  tail, and aio_read_events_ring copies in chunks that stop at page ends and at the wrap point.
*/
module AioPaged {
  import opened Arith
  import opened AioSizing
  import opened AioRing

  const EFAULT := 14

  function Min(a: int, b: int): int { if a < b then a else b }

  /** How many events the next copy_to_user takes. */
  function ChunkLen(head: nat, tail: nat, nr: nat, want: int, perPage: nat, offset: nat): int
    requires perPage >= 1
  {
    Min(Min((if head <= tail then tail else nr) - head, want), perPage - (head + offset) % perPage)
  }

  /** A chunk is never empty, never passes the tail, the wrap point or the end of its page. */
  lemma ChunkStays(head: nat, tail: nat, nr: nat, want: int, perPage: nat, offset: nat, k: nat)
    requires perPage >= 1 && head < nr && tail < nr && head != tail && want >= 1
    requires k < ChunkLen(head, tail, nr, want, perPage, offset)
    ensures 1 <= ChunkLen(head, tail, nr, want, perPage, offset) <= Min(want, Dist(nr, head, tail))
    ensures head + k < nr
    ensures (head + k + offset) / perPage == (head + offset) / perPage
    ensures (head + k + offset) % perPage == (head + offset) % perPage + k < perPage
  {
    Quotient(head + offset, perPage);
    DivIs(head + k + offset, perPage, (head + offset) / perPage, (head + offset) % perPage + k);
  }

  class Kioctx {
    const perPage: nat
    const offset: nat
    const nr: nat
    const ring: array2<int>
    var head: nat
    var tail: nat

    ghost predicate Valid()
      reads this
    {
      && perPage >= 1 && ring.Length1 == perPage && nr >= 1 && nr + offset == ring.Length0 * perPage
      && head < nr && tail < nr
    }

    /** The pages and sizes aio_setup_ring chooses, for an architecture's page size. */
    constructor (pages: nat, page: nat)
      requires page > 0 && page % EVENT == 0 && pages >= 1 && RingEvents(pages, page, EVENT, HEADER) >= 1
      ensures Valid() && Queue() == [] && fresh(ring) && ring.Length0 == pages
      ensures nr == RingEvents(pages, page, EVENT, HEADER) && offset == 1 && perPage == PerPage(page, EVENT)
    {
      RingFillsPages(pages, page, EVENT, HEADER);
      HeaderTakesOneSlot(page);
      perPage := PerPage(page, EVENT);
      offset := 1;
      nr := RingEvents(pages, page, EVENT, HEADER);
      ring := new int[pages, PerPage(page, EVENT)];
      head, tail := 0, 0;
    }

    lemma InPages(i: nat)
      requires Valid() && i < nr
      ensures 0 <= (i + offset) / perPage < ring.Length0 && 0 <= (i + offset) % perPage < perPage
    {
      Quotient(i + offset, perPage);
      if (i + offset) / perPage >= ring.Length0 { Grows(ring.Length0, (i + offset) / perPage, perPage); }
      if (i + offset) / perPage < 0 { Grows((i + offset) / perPage, -1, perPage); }
    }

    /** The event stored for ring index i. */
    function Slot(i: nat): int
      requires Valid() && i < nr
      reads this, ring
    {
      InPages(i);
      ring[(i + offset) / perPage, (i + offset) % perPage]
    }

    /** The ring read off its pages in index order. */
    ghost function Flat(): (mem: seq<int>)
      requires Valid()
      reads this, ring
      ensures |mem| == nr && forall i :: 0 <= i < nr ==> mem[i] == Slot(i)
    {
      seq(nr, i requires 0 <= i < nr && Valid() reads this, ring => Slot(i))
    }

    ghost function Queue(): seq<int>
      requires Valid()
      reads this, ring
    {
      Window(Flat(), head, tail)
    }

    lemma OwnPlaces(i: nat, j: nat)
      requires Valid() && i < nr && j < nr && i != j
      ensures (i + offset) / perPage != (j + offset) / perPage || (i + offset) % perPage != (j + offset) % perPage
    {
      Quotient(i + offset, perPage);
      Quotient(j + offset, perPage);
    }

    /** Storing at the place of one index changes that index alone. */
    method Store(i: nat, event: int)
      requires Valid() && i < nr
      modifies ring
      ensures Flat() == old(Flat())[i := event]
    {
      InPages(i);
      ring[(i + offset) / perPage, (i + offset) % perPage] := event;
      forall j: nat | j < nr && j != i ensures Slot(j) == old(Slot(j)) { OwnPlaces(j, i); InPages(j); }
      assert Slot(i) == event;
    }

    /**
      The locked part of aio_complete. There is room, because a request in flight reserves a slot
      (AioRing.Conservation).
    */
    method Complete(event: int)
      requires Valid() && |Queue()| + 1 < nr
      modifies this`tail, ring
      ensures Valid() && Queue() == old(Queue()) + [event]
    {
      var t := tail;
      Store(t, event);
      t := t + 1;
      if t >= nr { t := 0; }
      WindowPush(old(Flat()), head, tail, event);
      tail := t;
    }

    /**
      aio_read_events_ring for a caller asking for `want` events into `user`; faults(c) says whether the
      c-th copy_to_user fails. It delivers exactly the first min(want, queued) events, or leaves the queue as
      it was.
    */
    method ReadEvents(user: array<int>, want: int, faults: nat -> bool) returns (ret: int)
      requires Valid() && want <= user.Length
      modifies this`head, user
      ensures Valid() && tail == old(tail)
      ensures ret == -14 || 0 <= ret <= user.Length
      ensures ret >= 0 ==> ret == Min(if want < 0 then 0 else want, |old(Queue())|)
      ensures ret >= 0 ==> user[..ret] == old(Queue())[..ret] && user[ret..] == old(user[..])[ret..]
      ensures ret >= 0 ==> Queue() == old(Queue())[ret..]
      ensures ret < 0 ==> Queue() == old(Queue()) && exists c :: faults(c)
    {
      ret := 0;
      var h, t := head, tail;
      if h == t { return; }
      ghost var mem, q, user0 := Flat(), Queue(), user[..];
      var chunk := 0;
      while ret < want
        invariant Valid() && head == old(head) && tail == t == old(tail) && h < nr && Flat() == mem
        invariant 0 <= ret <= |q| && (ret <= want || ret == 0)
        invariant ret + Dist(nr, h, t) == |q| && h == Ahead(nr, head, ret)
        invariant ret <= user.Length && user[..] == q[..ret] + user0[ret..]
        decreases want - ret
      {
        if h == t { break; }
        if faults(chunk) { return -EFAULT; }
        ghost var was, k := user[..], ret;
        ret, h := NextChunk(user, want, ret, h, t);
        Splice(q, user0, was, k, ret);
        chunk := chunk + 1;
      }
      head := h;
      WindowDrop(mem, old(head), t, ret, h);
    }

    /** The body of the read loop: copy one chunk, step the count and the head. */
    method NextChunk(user: array<int>, want: int, ret: nat, h: nat, t: nat) returns (ret': nat, h': nat)
      requires Valid() && ret < want <= user.Length && h < nr && t == tail && h != t
      requires ret + Dist(nr, h, t) == |Queue()| && h == Ahead(nr, head, ret)
      modifies user
      ensures ret < ret' <= want && h' < nr && ret' + Dist(nr, h', t) == |Queue()| && h' == Ahead(nr, head, ret')
      ensures ret' <= |Queue()| && user[..] == old(user[..])[..ret] + Queue()[ret..ret'] + old(user[..])[ret'..]
    {
      var avail, page, slot := Chunk(h, t, want - ret);
      CopyChunk(user, ret, h, page, slot, avail);
      WindowTake(Flat(), head, t, ret, h, avail);
      Wraps(h, avail, nr);
      ret' := ret + avail;
      h' := (h + avail) % nr;
    }

    /** How many events the next copy takes, and from where. */
    method Chunk(h: nat, t: nat, want: int) returns (avail: nat, page: nat, slot: nat)
      requires Valid() && h < nr && t < nr && h != t && want >= 1
      ensures 1 <= avail <= want && avail <= Dist(nr, h, t) && h + avail <= nr
      ensures page < ring.Length0 && slot + avail <= perPage
      ensures forall i :: h <= i < h + avail ==> Slot(i) == ring[page, slot + i - h]
    {
      avail := ChunkLen(h, t, nr, want, perPage, offset);
      ChunkStays(h, t, nr, want, perPage, offset, 0);
      SamePage(h, avail);
      page, slot := (h + offset) / perPage, (h + offset) % perPage;
    }

    /** One copy_to_user of n events from a slot of a page, which are the ring's events from index h. */
    method CopyChunk(user: array<int>, at: nat, h: nat, page: nat, slot: nat, n: nat)
      requires Valid() && h + n <= nr && at + n <= user.Length && page < ring.Length0 && slot + n <= perPage
      requires forall i :: h <= i < h + n ==> Slot(i) == ring[page, slot + i - h]
      modifies user
      ensures user[..] == Overlaid(old(user[..]), at, Flat(), h, n)
    {
      ghost var user0, mem := user[..], Flat();
      var k := 0;
      while k < n
        invariant 0 <= k <= n
        invariant user[..] == Overlaid(user0, at, mem, h, k)
      {
        assert Slot(h + k) == ring[page, slot + k];
        ghost var was := user[..];
        user[at + k] := ring[page, slot + k];
        assert user[..] == was[at + k := mem[h + k]];
        OverlayOne(user0, at, mem, h, k);
        k := k + 1;
      }
    }

    lemma SamePage(h: nat, n: nat)
      requires Valid() && 1 <= n && h + n <= nr && (h + offset) % perPage + n <= perPage
      ensures 0 <= (h + offset) / perPage < ring.Length0
      ensures forall i :: h <= i < h + n ==> Slot(i) == ring[(h + offset) / perPage, (h + offset) % perPage + i - h]
    {
      InPages(h);
      Quotient(h + offset, perPage);
      forall i | h <= i < h + n ensures Slot(i) == ring[(h + offset) / perPage, (h + offset) % perPage + i - h] {
        DivIs(i + offset, perPage, (h + offset) / perPage, (h + offset) % perPage + i - h);
      }
    }
  }

  /** A buffer with n events of the ring, from index h, laid over it at position at. */
  function Overlaid(user: seq<int>, at: nat, mem: seq<int>, h: nat, n: nat): seq<int>
    requires at + n <= |user| && h + n <= |mem|
  {
    user[..at] + mem[h..h + n] + user[at + n..]
  }

  lemma OverlayOne(user: seq<int>, at: nat, mem: seq<int>, h: nat, k: nat)
    requires at + k < |user| && h + k < |mem|
    ensures Overlaid(user, at, mem, h, k)[at + k := mem[h + k]] == Overlaid(user, at, mem, h, k + 1)
  {
  }

  /** A copied chunk extends the prefix already delivered. */
  lemma Splice(q: seq<int>, user: seq<int>, was: seq<int>, k: nat, n: nat)
    requires k <= n <= |q| && n <= |user| && was == q[..k] + user[k..]
    ensures was[..k] + q[k..n] + was[n..] == q[..n] + user[n..]
  {
    assert was[..k] == q[..k];
    assert was[n..] == user[n..];
    assert q[..k] + q[k..n] == q[..n];
  }

  lemma WindowPush(mem: seq<int>, head: nat, tail: nat, event: int)
    requires head < |mem| && tail < |mem| && |Window(mem, head, tail)| + 1 < |mem|
    ensures Window(mem[tail := event], head, Next(|mem|, tail)) == Window(mem, head, tail) + [event]
  {
  }

  lemma WindowTake(mem: seq<int>, head: nat, tail: nat, ret: nat, h: nat, n: nat)
    requires head < |mem| && tail < |mem| && h < |mem| && h == Ahead(|mem|, head, ret)
    requires ret + n <= |Window(mem, head, tail)| && h + n <= |mem|
    ensures Window(mem, head, tail)[ret..ret + n] == mem[h..h + n]
  {
  }

  lemma Wraps(h: nat, n: nat, nr: nat)
    requires h < nr && h + n <= nr
    ensures (h + n) % nr == if h + n == nr then 0 else h + n
  {
    if h + n == nr { DivIs(h + n, nr, 1, 0); } else { DivIs(h + n, nr, 0, h + n); }
  }
}
