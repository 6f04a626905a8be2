/**
  Sizes of an AIO context (fs/aio.c): how many slots io_setup's request turns into, and where in the
  ring's pages each slot lies.
*/
module AioSizing {
  import opened Arith

  const U32 := 0x1_0000_0000
  /** sizeof(struct io_event): four 64-bit words. */
  const EVENT := 32
  /** sizeof(struct aio_ring): eight 32-bit words. */
  const HEADER := 32

  // ---- where a slot lies --------------------------------------------------------------------

  /** AIO_EVENTS_PER_PAGE, AIO_EVENTS_FIRST_PAGE and AIO_EVENTS_OFFSET, for any event and header size. */
  function PerPage(page: nat, event: nat): nat
    requires event > 0
  {
    page / event
  }

  function Offset(page: nat, event: nat, header: nat): int
    requires event > 0 && header <= page
  {
    PerPage(page, event) - (page - header) / event
  }

  /** PFN_UP(size). */
  function PagesFor(size: nat, page: nat): nat
    requires page > 0
  {
    (size + page - 1) / page
  }

  /** The ring size aio_setup_ring derives from a page count. */
  function RingEvents(pages: nat, page: nat, event: nat, header: nat): nat
    requires event > 0 && header <= page && pages >= 1
  {
    assert page * pages >= page * 1;
    (page * pages - header) / event
  }

  /** The page and the slot within that page where ring index i is stored. */
  function Place(i: nat, page: nat, event: nat, header: nat): (int, int)
    requires event > 0 && header <= page && PerPage(page, event) > 0
  {
    var pos := i + Offset(page, event, header);
    (pos / PerPage(page, event), pos % PerPage(page, event))
  }

  /** Taking h bytes off n whole events costs the events that h bytes touch. */
  lemma WholeEvents(n: nat, event: nat, h: nat)
    requires event > 0 && h <= n * event
    ensures (n * event - h) / event == n - (h + event - 1) / event
  {
    var k := (h + event - 1) / event;
    var r := (h + event - 1) % event;
    assert h + event - 1 == k * event + r;
    assert n * event - h == (n - k) * event + (event - 1 - r) by { assert (n - k) * event == n * event - k * event; }
    DivIs(n * event - h, event, n - k, event - 1 - r);
  }

  lemma Divides(page: nat, event: nat)
    requires event > 0 && page % event == 0
    ensures page == PerPage(page, event) * event
  {
  }

  /** When events tile pages, the ring and the slots before it fill the pages exactly. */
  lemma RingFillsPages(pages: nat, page: nat, event: nat, header: nat)
    requires event > 0 && page % event == 0 && header <= page && pages >= 1 && page > 0
    ensures RingEvents(pages, page, event, header) + Offset(page, event, header) == pages * PerPage(page, event)
    ensures Offset(page, event, header) == (header + event - 1) / event >= 0 && PerPage(page, event) > 0
    ensures header <= Offset(page, event, header) * event
  {
    var q := PerPage(page, event);
    Divides(page, event);
    WholeEvents(q, event, header);
    assert page * pages == (pages * q) * event;
    assert page * pages >= page;
    WholeEvents(pages * q, event, header);
    var k := (header + event - 1) / event;
    assert header + event - 1 == k * event + (header + event - 1) % event;
  }

  /**
    Every ring index has its own place: inside the allocated pages, not straddling a page end, and
    clear of the ring header.
  */
  lemma PlacesAreSound(pages: nat, page: nat, event: nat, header: nat, i: nat, j: nat)
    requires event > 0 && page % event == 0 && header <= page && pages >= 1 && page > 0
    requires i < RingEvents(pages, page, event, header) && j < RingEvents(pages, page, event, header)
    ensures PerPage(page, event) > 0
    ensures var (p, s) := Place(i, page, event, header);
            && 0 <= p < pages && 0 <= s && s * event + event <= page
            && (p == 0 ==> header <= s * event)
    ensures Place(i, page, event, header) == Place(j, page, event, header) ==> i == j
  {
    RingFillsPages(pages, page, event, header);
    Divides(page, event);
    var q := PerPage(page, event);
    var off := Offset(page, event, header);
    var pos := i + off;
    var (p, s) := Place(i, page, event, header);
    Quotient(pos, q);
    Quotient(j + off, q);
    if p >= pages { Grows(pages, p, q); }
    if p < 0 { Grows(p, -1, q); }
    Grows(s + 1, q, event);
    assert (s + 1) * event == s * event + event;
    if p == 0 { Grows(off, s, event); }
  }

  /** The mapping of the sizes used here: one slot's worth of header. */
  lemma HeaderTakesOneSlot(page: nat)
    requires page % EVENT == 0 && page > 0
    ensures Offset(page, EVENT, HEADER) == 1
  {
    RingFillsPages(1, page, EVENT, HEADER);
  }

  // ---- how many slots -----------------------------------------------------------------------

  datatype Error = EINVAL | EAGAIN
  datatype Sizes = Sizes(maxReqs: nat, pages: nat, nr: nat, batch: nat)
  datatype Result = Ok(sizes: Sizes) | Err(error: Error)

  function Max(a: int, b: int): int { if a > b then a else b }

  /** The pages and ring size of aio_setup_ring for a context of maxReqs requests. */
  function SetupRing(maxReqs: nat, page: nat): (nat, nat)
    requires page >= HEADER
  {
    var size := HEADER + EVENT * ((maxReqs + 2) % U32);
    var pages := PagesFor(size, page);
    assert pages >= 1 by { assert (size + page - 1) / page >= page / page; }
    (pages, RingEvents(pages, page, EVENT, HEADER))
  }

  /**
    The sizing part of ioctx_alloc: 32-bit doubling, the overflow and quota tests, the ring and the
    batch. `kiocb` is sizeof(struct kiocb), `quota` is aio_max_nr; allocation failures are not modelled.
  */
  function IoctxAlloc(n: nat, cpus: nat, page: nat, kiocb: nat, quota: nat): Result
    requires n < U32 && 1 <= cpus && cpus * 4 < U32 && page >= HEADER && kiocb > 0
  {
    var nr := Max(n, cpus * 4) * 2 % U32;
    if nr > 0x1000_0000 / EVENT || nr > 0x1000_0000 / kiocb then Err(EINVAL)
    else if nr == 0 || nr > quota * 2 then Err(EAGAIN)
    else
      var (pages, events) := SetupRing(nr, page);
      if events < 1 then Err(EINVAL)
      else
        var batch := (events - 1) / (cpus * 4);
        Ok(Sizes(nr, pages, events, if batch < 1 then 1 else batch))
  }

  /** PFN_UP rounds up by less than a page. */
  lemma PagesCover(size: nat, page: nat)
    requires page > 0
    ensures size <= page * PagesFor(size, page) < size + page
  {
    Quotient(size + page - 1, page);
    assert page * PagesFor(size, page) == PagesFor(size, page) * page;
  }

  lemma EventsIn(bytes: int, n: int, page: int)
    requires EVENT * n <= bytes - HEADER < EVENT * n + page
    ensures n <= (bytes - HEADER) / EVENT && (bytes - HEADER) / EVENT * EVENT < EVENT * n + page
  {
  }

  /** The ring always holds the two extra entries asked for: rounding to pages only adds slots. */
  lemma RingIsBigEnough(maxReqs: nat, page: nat)
    requires page >= HEADER && maxReqs + 2 < U32
    ensures SetupRing(maxReqs, page).1 >= maxReqs + 2
  {
    var size := HEADER + EVENT * (maxReqs + 2);
    PagesCover(size, page);
    EventsIn(page * PagesFor(size, page), maxReqs + 2, page);
  }

  /** Rounding to pages adds less than one page of slots. */
  lemma RingIsNotMuchBigger(maxReqs: nat, page: nat)
    requires page >= HEADER && maxReqs + 2 < U32
    ensures SetupRing(maxReqs, page).1 * EVENT < EVENT * (maxReqs + 2) + page
  {
    var size := HEADER + EVENT * (maxReqs + 2);
    PagesCover(size, page);
    EventsIn(page * PagesFor(size, page), maxReqs + 2, page);
  }

  lemma BatchSize(slots: nat, cpus: nat)
    requires cpus >= 1 && slots >= 8 * cpus
    ensures slots / (cpus * 4) >= 2 && 4 * (cpus * (slots / (cpus * 4))) <= slots
  {
    var b := slots / (cpus * 4);
    Quotient(slots, cpus * 4);
    if b < 2 { Grows(b, 1, cpus * 4); }
    assert b * (cpus * 4) == 4 * (cpus * b);
  }

  lemma Doubled(n: nat, cpus: nat, maxReqs: nat, nr: nat)
    requires 1 <= cpus && cpus * 4 < U32 / 2 && n < U32 / 2
    requires maxReqs == Max(n, cpus * 4) * 2 % U32 && nr >= maxReqs + 2
    ensures nr - 1 >= 2 * n + 1 && nr - 1 >= 8 * cpus + 1
    ensures (nr - 1) / (cpus * 4) >= 2 && 4 * (cpus * ((nr - 1) / (cpus * 4))) <= nr - 1
  {
    BatchSize(nr - 1, cpus);
  }

  /** What a successful sizing provides when doubling the request did not wrap: twice the request and a spare. */
  lemma UnwrappedSizes(n: nat, cpus: nat, page: nat, kiocb: nat, quota: nat)
    requires n < U32 && 1 <= cpus && cpus * 4 < U32 / 2 && page >= HEADER && kiocb > 0
    requires n < U32 / 2 && IoctxAlloc(n, cpus, page, kiocb, quota).Ok?
    ensures var z := IoctxAlloc(n, cpus, page, kiocb, quota).sizes;
            && z.nr - 1 >= 2 * n + 1 && z.nr - 1 >= 8 * cpus + 1
            && z.batch >= 2 && 4 * (cpus * z.batch) <= z.nr - 1
  {
    var z := IoctxAlloc(n, cpus, page, kiocb, quota).sizes;
    RingIsBigEnough(z.maxReqs, page);
    Doubled(n, cpus, z.maxReqs, z.nr);
  }

  /**
    Which requests are accepted, in numbers: after the 32-bit doubling, between one and 2^23 events, no more than
    2^28 bytes of requests, and within twice the quota. Only the quota (or a doubling to zero) says "try again".
  */
  lemma AcceptedExactly(n: nat, cpus: nat, page: nat, kiocb: nat, quota: nat)
    requires n < U32 && 1 <= cpus && cpus * 4 < U32 / 2 && page >= HEADER && kiocb > 0
    ensures var m := (2 * if n > 4 * cpus then n else 4 * cpus) % 4294967296;
            var r := IoctxAlloc(n, cpus, page, kiocb, quota);
            && (r.Ok? <==> 1 <= m <= 8388608 && m <= 268435456 / kiocb && m <= 2 * quota)
            && (r == Err(EINVAL) <==> m > 8388608 || m > 268435456 / kiocb)
            && (r.Ok? ==> r.sizes.maxReqs == m)
  {
    var m := Max(n, cpus * 4) * 2 % U32;
    if m <= 8388608 { RingIsBigEnough(m, page); }
  }

  /** An ordinary io_setup(128) on four CPUs gets its ring. */
  lemma OrdinaryRequest()
    ensures IoctxAlloc(128, 4, 4096, 256, 0x10000).Ok?
  {
    AcceptedExactly(128, 4, 4096, 256, 0x10000);
  }

  /** The ring is no bigger than rounding to pages makes it, and the batch the largest quarter share per CPU. */
  lemma SizesAreTight(n: nat, cpus: nat, page: nat, kiocb: nat, quota: nat)
    requires n < U32 && 1 <= cpus && cpus * 4 < U32 / 2 && page >= HEADER && kiocb > 0
    requires IoctxAlloc(n, cpus, page, kiocb, quota).Ok?
    ensures var z := IoctxAlloc(n, cpus, page, kiocb, quota).sizes;
            && z.maxReqs + 2 <= z.nr && z.nr * EVENT < EVENT * (z.maxReqs + 2) + page
            && z.nr - 1 < (z.batch + 1) * (cpus * 4)
            && (z.batch > 1 ==> z.batch * (cpus * 4) <= z.nr - 1)
  {
    var z := IoctxAlloc(n, cpus, page, kiocb, quota).sizes;
    RingIsBigEnough(z.maxReqs, page);
    RingIsNotMuchBigger(z.maxReqs, page);
    LargestBatch(z.nr - 1, cpus * 4);
  }

  lemma LargestBatch(slots: int, share: int)
    requires share >= 1 && slots >= 0
    ensures var b := if slots / share < 1 then 1 else slots / share;
            slots < (b + 1) * share && (b > 1 ==> b * share <= slots)
  {
    Quotient(slots, share);
    var q := slots / share;
    assert (q + 1) * share == q * share + share;
    if q < 1 { Grows(q, 0, share); }
  }

  /** And when it did wrap, the ring is smaller than the request. */
  lemma WrappedSizes(n: nat, cpus: nat, page: nat, kiocb: nat, quota: nat)
    requires n < U32 && 1 <= cpus && cpus * 4 < U32 / 2 && HEADER <= page < 0x1000_0000 && kiocb > 0
    requires n >= U32 / 2 && IoctxAlloc(n, cpus, page, kiocb, quota).Ok?
    ensures IoctxAlloc(n, cpus, page, kiocb, quota).sizes.nr <= n
  {
    var z := IoctxAlloc(n, cpus, page, kiocb, quota).sizes;
    RingIsNotMuchBigger(z.maxReqs, page);
  }

  /** Such a request does succeed. */
  lemma WrappingRequestExists()
    ensures IoctxAlloc(0x8000_0001, 4, 4096, 256, 0x10000).Ok?
  {
    RingIsBigEnough(2, 4096);
  }
}
