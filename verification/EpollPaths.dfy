/**
  The wakeup-path limit of epoll (fs/eventpoll.c, reverse_path_check): a depth-bounded walk up the
  watchers of a file that counts maximal paths by length and gives up when a limit is passed.
*/
module EpollPaths {
  import EpollLoop

  /** up[v] lists the epoll sets that watch v, one entry for each epitem. */
  type Watchers = seq<seq<nat>>

  const PATH_ARR_SIZE := 5

  function Limit(n: nat): int
    requires n < PATH_ARR_SIZE
  {
    [1000, 500, 100, 50, 10][n]
  }

  predicate WellFormed(up: Watchers) {
    forall v, k :: 0 <= v < |up| && 0 <= k < |up[v]| ==> up[v][k] < |up|
  }

  // ---- paths --------------------------------------------------------------------------------

  /** p names a maximal upward path from v: a choice of watcher at each step, ending unwatched. */
  predicate IsPath(up: Watchers, v: nat, p: seq<nat>)
    requires WellFormed(up) && v < |up|
    decreases |p|
  {
    if p == [] then up[v] == [] else p[0] < |up[v]| && IsPath(up, up[v][p[0]], p[1..])
  }

  /** The number of maximal paths of n links from v. */
  function Paths(up: Watchers, v: nat, n: nat): nat
    requires WellFormed(up) && v < |up|
    decreases n, 0
  {
    if n == 0 then (if up[v] == [] then 1 else 0) else PathsVia(up, v, |up[v]|, n)
  }

  /** Those among them whose first link is one of the first k watchers. */
  function PathsVia(up: Watchers, v: nat, k: nat, n: nat): nat
    requires WellFormed(up) && v < |up| && k <= |up[v]| && n > 0
    decreases n - 1, k + 1
  {
    if k == 0 then 0 else PathsVia(up, v, k - 1, n) + Paths(up, up[v][k - 1], n - 1)
  }

  /** All of them, written out. */
  function List(up: Watchers, v: nat, n: nat): seq<seq<nat>>
    requires WellFormed(up) && v < |up|
    decreases n, 0
  {
    if n == 0 then (if up[v] == [] then [[]] else []) else ListVia(up, v, |up[v]|, n)
  }

  function ListVia(up: Watchers, v: nat, k: nat, n: nat): seq<seq<nat>>
    requires WellFormed(up) && v < |up| && k <= |up[v]| && n > 0
    decreases n - 1, k + 1
  {
    if k == 0 then [] else ListVia(up, v, k - 1, n) + Prefix(k - 1, List(up, up[v][k - 1], n - 1))
  }

  function Prefix(k: nat, ps: seq<seq<nat>>): (r: seq<seq<nat>>)
    ensures |r| == |ps| && forall i :: 0 <= i < |ps| ==> r[i] == [k] + ps[i]
  {
    seq(|ps|, i requires 0 <= i < |ps| => [k] + ps[i])
  }

  predicate Distinct(ps: seq<seq<nat>>) { forall i, j :: 0 <= i < j < |ps| ==> ps[i] != ps[j] }

  /** ps holds exactly the maximal paths of n links from v. */
  ghost predicate Exactly(up: Watchers, v: nat, n: nat, ps: seq<seq<nat>>)
    requires WellFormed(up) && v < |up|
  {
    Distinct(ps) && forall p :: p in ps <==> |p| == n && IsPath(up, v, p)
  }

  predicate Via(up: Watchers, v: nat, lo: nat, hi: nat, n: nat, p: seq<nat>)
    requires WellFormed(up) && v < |up| && n > 0
  {
    |p| == n && lo <= p[0] < hi && IsPath(up, v, p)
  }

  /** ps holds exactly those whose first choice is in lo..hi. */
  ghost predicate ExactlyVia(up: Watchers, v: nat, lo: nat, hi: nat, n: nat, ps: seq<seq<nat>>)
    requires WellFormed(up) && v < |up| && n > 0
  {
    Distinct(ps) && forall p :: p in ps <==> Via(up, v, lo, hi, n, p)
  }

  /** The count is the number of distinct maximal paths of that length. */
  lemma PathsCounts(up: Watchers, v: nat, n: nat)
    requires WellFormed(up) && v < |up|
    ensures |List(up, v, n)| == Paths(up, v, n) && Exactly(up, v, n, List(up, v, n))
  {
    ListLength(up, v, n);
    ListExact(up, v, n);
  }

  lemma {:induction false} ListLength(up: Watchers, v: nat, n: nat)
    requires WellFormed(up) && v < |up|
    ensures |List(up, v, n)| == Paths(up, v, n)
    decreases n, 0
  {
    if n > 0 { ListViaLength(up, v, |up[v]|, n); }
  }

  lemma {:induction false} ListViaLength(up: Watchers, v: nat, k: nat, n: nat)
    requires WellFormed(up) && v < |up| && k <= |up[v]| && n > 0
    ensures |ListVia(up, v, k, n)| == PathsVia(up, v, k, n)
    decreases n - 1, k + 1
  {
    if k > 0 {
      ListViaLength(up, v, k - 1, n);
      ListLength(up, up[v][k - 1], n - 1);
    }
  }

  lemma {:induction false} ListExact(up: Watchers, v: nat, n: nat)
    requires WellFormed(up) && v < |up|
    ensures Exactly(up, v, n, List(up, v, n))
    decreases n, 0
  {
    if n > 0 {
      ListViaExact(up, v, |up[v]|, n);
      assert forall p :: Via(up, v, 0, |up[v]|, n, p) <==> |p| == n && IsPath(up, v, p);
    } else {
      forall p | p in List(up, v, 0) ensures p == [] && up[v] == [] {}
    }
  }

  lemma {:induction false} ListViaExact(up: Watchers, v: nat, k: nat, n: nat)
    requires WellFormed(up) && v < |up| && k <= |up[v]| && n > 0
    ensures ExactlyVia(up, v, 0, k, n, ListVia(up, v, k, n))
    decreases n - 1, k + 1
  {
    if k == 0 {
      NoWatchers(up, v, n);
    } else {
      var before, last := ListVia(up, v, k - 1, n), List(up, up[v][k - 1], n - 1);
      assert ListVia(up, v, k, n) == before + Prefix(k - 1, last);
      assert ExactlyVia(up, v, 0, k, n, before + Prefix(k - 1, last)) by {
        ListViaExact(up, v, k - 1, n);
        ListExact(up, up[v][k - 1], n - 1);
        OneMoreWatcher(up, v, k - 1, n, before, last);
      }
    }
  }

  lemma NoWatchers(up: Watchers, v: nat, n: nat)
    requires WellFormed(up) && v < |up| && n > 0
    ensures ExactlyVia(up, v, 0, 0, n, [])
  {
  }

  lemma OneMoreWatcher(up: Watchers, v: nat, k: nat, n: nat, a: seq<seq<nat>>, tail: seq<seq<nat>>)
    requires WellFormed(up) && v < |up| && k < |up[v]| && n > 0
    requires ExactlyVia(up, v, 0, k, n, a) && Exactly(up, up[v][k], n - 1, tail)
    ensures ExactlyVia(up, v, 0, k + 1, n, a + Prefix(k, tail))
  {
    PrefixPaths(up, v, k, n, tail);
    JoinPaths(up, v, k, n, a, Prefix(k, tail));
  }

  lemma JoinPaths(up: Watchers, v: nat, k: nat, n: nat, a: seq<seq<nat>>, b: seq<seq<nat>>)
    requires WellFormed(up) && v < |up| && n > 0 && ExactlyVia(up, v, 0, k, n, a) && ExactlyVia(up, v, k, k + 1, n, b)
    ensures ExactlyVia(up, v, 0, k + 1, n, a + b)
  {
    forall i, j | 0 <= i < j < |a + b| ensures (a + b)[i] != (a + b)[j] {
      if i < |a| <= j { assert a[i] in a && b[j - |a|] in b; }
    }
    assert forall p :: Via(up, v, 0, k + 1, n, p) <==> Via(up, v, 0, k, n, p) || Via(up, v, k, k + 1, n, p);
  }

  /** Putting one choice in front keeps a list of paths complete and free of repetition. */
  lemma PrefixPaths(up: Watchers, v: nat, k: nat, n: nat, tail: seq<seq<nat>>)
    requires WellFormed(up) && v < |up| && k < |up[v]| && n > 0 && Exactly(up, up[v][k], n - 1, tail)
    ensures ExactlyVia(up, v, k, k + 1, n, Prefix(k, tail))
  {
    var b := Prefix(k, tail);
    forall i, j | 0 <= i < j < |b| ensures b[i] != b[j] {
      assert b[i][1..] == tail[i] && b[j][1..] == tail[j];
    }
    forall p ensures p in b <==> Via(up, v, k, k + 1, n, p) {
      if p in b {
        var i :| 0 <= i < |b| && b[i] == p;
        assert p[1..] == tail[i] && tail[i] in tail;
      }
      if |p| == n && p[0] == k && IsPath(up, v, p) {
        var i :| 0 <= i < |tail| && tail[i] == p[1..];
        assert b[i] == p;
      }
    }
  }

  /** Some chain of n watchers leads up from v, maximal or not. */
  ghost predicate Climbs(up: Watchers, v: nat, n: nat)
    requires WellFormed(up) && v < |up|
    decreases n
  {
    n == 0 || exists k :: 0 <= k < |up[v]| && Climbs(up, up[v][k], n - 1)
  }

  ghost predicate Walk(up: Watchers, a: nat, b: nat, n: nat)
    requires WellFormed(up) && a < |up|
    decreases n
  {
    if n == 0 then a == b else exists k :: 0 <= k < |up[a]| && Walk(up, up[a][k], b, n - 1)
  }

  ghost predicate Acyclic(up: Watchers)
    requires WellFormed(up)
  {
    forall v, n: nat :: 0 <= v < |up| && n >= 1 ==> !Walk(up, v, v, n)
  }

  lemma {:induction false} WalkStep(up: Watchers, a: nat, b: nat, k: nat, n: nat)
    requires WellFormed(up) && a < |up| && b < |up| && Walk(up, a, b, n) && k < |up[b]|
    ensures Walk(up, a, up[b][k], n + 1)
    decreases n
  {
    if n == 0 {
      assert Walk(up, up[b][k], up[b][k], 0);
    } else {
      var c :| 0 <= c < |up[a]| && Walk(up, up[a][c], b, n - 1);
      WalkStep(up, up[a][c], b, k, n - 1);
    }
  }

  // ---- what the check decides ---------------------------------------------------------------

  /** File v is within the limits: no chain of more than five links, and few enough paths of each length 2..5. */
  ghost predicate WithinLimits(up: Watchers, v: nat)
    requires WellFormed(up) && v < |up|
  {
    !Climbs(up, v, PATH_ARR_SIZE + 1) && forall n :: 1 <= n < PATH_ARR_SIZE ==> Paths(up, v, n + 1) <= Limit(n)
  }

  /** The limits in numbers: lengths two to five, and nothing longer. */
  lemma LimitsInNumbers(up: Watchers, v: nat)
    requires WellFormed(up) && v < |up|
    ensures WithinLimits(up, v) <==>
            && Paths(up, v, 2) <= 500 && Paths(up, v, 3) <= 100 && Paths(up, v, 4) <= 50 && Paths(up, v, 5) <= 10
            && !Climbs(up, v, 6)
  {
    assert Limit(1) == 500 && Limit(2) == 100 && Limit(3) == 50 && Limit(4) == 10;
    if WithinLimits(up, v) {
      assert Paths(up, v, 1 + 1) <= Limit(1) && Paths(up, v, 2 + 1) <= Limit(2);
      assert Paths(up, v, 3 + 1) <= Limit(3) && Paths(up, v, 4 + 1) <= Limit(4);
    }
  }

  /** The same for a call at nesting level d that starts with the counts c. */
  ghost predicate Fits(up: Watchers, v: nat, d: nat, c: seq<int>)
    requires WellFormed(up) && v < |up| && d < PATH_ARR_SIZE == |c|
  {
    !Climbs(up, v, PATH_ARR_SIZE + 1 - d)
    && forall n :: 1 <= n < PATH_ARR_SIZE && d <= n ==> c[n] + Paths(up, v, n + 1 - d) <= Limit(n)
  }

  /** Counts after the first k watchers of v, at nesting level d. */
  ghost predicate CountedVia(up: Watchers, v: nat, k: nat, d: nat, before: seq<int>, after: seq<int>)
    requires WellFormed(up) && v < |up| && k <= |up[v]| && d < PATH_ARR_SIZE == |before| == |after|
  {
    forall n :: 0 <= n < PATH_ARR_SIZE ==>
      after[n] == before[n] + if n >= 1 && d <= n then PathsVia(up, v, k, n + 1 - d) else 0
  }

  ghost predicate UnderLimits(c: seq<int>)
    requires |c| == PATH_ARR_SIZE
  {
    forall n :: 1 <= n < PATH_ARR_SIZE ==> c[n] <= Limit(n)
  }

  lemma {:induction false} PathsViaMono(up: Watchers, v: nat, j: nat, k: nat, n: nat)
    requires WellFormed(up) && v < |up| && j <= k <= |up[v]| && n > 0
    ensures PathsVia(up, v, j, n) <= PathsVia(up, v, k, n)
    decreases k
  {
    if j < k { PathsViaMono(up, v, j, k - 1, n); }
  }

  // ---- one watcher at a time ----------------------------------------------------------------

  /** Counts after one more watcher c of v has been climbed (or counted as an end). */
  ghost predicate CountedOne(up: Watchers, c: nat, d: nat, before: seq<int>, after: seq<int>)
    requires WellFormed(up) && c < |up| && d < PATH_ARR_SIZE == |before| == |after|
  {
    forall n :: 0 <= n < PATH_ARR_SIZE ==> after[n] == before[n] + if n >= 1 && d <= n then Paths(up, c, n - d) else 0
  }

  lemma CountedNext(up: Watchers, v: nat, i: nat, d: nat, before: seq<int>, mid: seq<int>, after: seq<int>)
    requires WellFormed(up) && v < |up| && i < |up[v]| && d < PATH_ARR_SIZE == |before| == |mid| == |after|
    requires CountedVia(up, v, i, d, before, mid) && CountedOne(up, up[v][i], d, mid, after)
    ensures CountedVia(up, v, i + 1, d, before, after)
  {
  }

  /** A watcher that is itself unwatched ends one path, of length d + 1, and climbs nowhere. */
  lemma EndCounts(up: Watchers, c: nat, d: nat, before: seq<int>, after: seq<int>)
    requires WellFormed(up) && c < |up| && up[c] == [] && d < PATH_ARR_SIZE == |before|
    requires after == if d == 0 then before else before[d := before[d] + 1]
    ensures CountedOne(up, c, d, before, after) && !Climbs(up, c, PATH_ARR_SIZE - d)
  {
    assert forall m: nat :: m > 0 ==> Paths(up, c, m) == 0;
  }

  /** A watcher that is watched contributes what the nested walk counted. */
  lemma NestedCounts(up: Watchers, c: nat, d: nat, before: seq<int>, after: seq<int>)
    requires WellFormed(up) && c < |up| && up[c] != [] && d + 1 < PATH_ARR_SIZE == |before| == |after|
    requires CountedVia(up, c, |up[c]|, d + 1, before, after)
    ensures CountedOne(up, c, d, before, after)
  {
  }

  /** If one watcher already breaks a limit, so does the whole walk from v. */
  lemma Breaks(up: Watchers, v: nat, i: nat, d: nat, before: seq<int>, mid: seq<int>, n: nat)
    requires WellFormed(up) && v < |up| && i < |up[v]| && 1 <= n < PATH_ARR_SIZE == |before| == |mid| && d <= n
    requires CountedVia(up, v, i, d, before, mid) && mid[n] + Paths(up, up[v][i], n - d) > Limit(n)
    ensures !Fits(up, v, d, before)
  {
    PathsViaMono(up, v, i + 1, |up[v]|, n + 1 - d);
    assert PathsVia(up, v, i + 1, n + 1 - d) == PathsVia(up, v, i, n + 1 - d) + Paths(up, up[v][i], n - d);
    assert Paths(up, v, n + 1 - d) == PathsVia(up, v, |up[v]|, n + 1 - d);
  }

  lemma BreaksNested(up: Watchers, v: nat, i: nat, d: nat, before: seq<int>, mid: seq<int>)
    requires WellFormed(up) && v < |up| && i < |up[v]| && d + 1 < PATH_ARR_SIZE == |before| == |mid|
    requires CountedVia(up, v, i, d, before, mid) && !Fits(up, up[v][i], d + 1, mid)
    ensures !Fits(up, v, d, before)
  {
    if !Climbs(up, up[v][i], PATH_ARR_SIZE - d) {
      var n :| 1 <= n < PATH_ARR_SIZE && d + 1 <= n && mid[n] + Paths(up, up[v][i], n - d) > Limit(n);
      Breaks(up, v, i, d, before, mid, n);
    }
  }

  /** When every watcher has been climbed within the limits, v fits. */
  lemma AllFit(up: Watchers, v: nat, d: nat, before: seq<int>, after: seq<int>)
    requires WellFormed(up) && v < |up| && d < PATH_ARR_SIZE == |before| == |after|
    requires CountedVia(up, v, |up[v]|, d, before, after) && UnderLimits(after)
    requires forall j :: 0 <= j < |up[v]| ==> !Climbs(up, up[v][j], PATH_ARR_SIZE - d)
    ensures Fits(up, v, d, before)
  {
    forall n | 1 <= n < PATH_ARR_SIZE && d <= n ensures before[n] + Paths(up, v, n + 1 - d) <= Limit(n) {
      assert Paths(up, v, n + 1 - d) == PathsVia(up, v, |up[v]|, n + 1 - d);
      assert after[n] <= Limit(n);
    }
  }

  // ---- the walk -----------------------------------------------------------------------------

  /** path_count, and the current task's entries of poll_loop_ncalls. */
  class PathCheck {
    const up: Watchers
    const pathCount: array<int>
    var calls: seq<nat>

    ghost predicate Valid() {
      WellFormed(up) && Acyclic(up) && pathCount.Length == PATH_ARR_SIZE
    }

    constructor (watchers: Watchers)
      requires WellFormed(watchers) && Acyclic(watchers)
      ensures Valid() && up == watchers && calls == [] && fresh(pathCount)
    {
      up := watchers;
      pathCount := new int[PATH_ARR_SIZE];
      calls := [];
    }

    /** path_count_inc: paths of one link are not limited. */
    method Inc(nests: nat) returns (error: int)
      requires Valid() && nests < PATH_ARR_SIZE
      modifies pathCount
      ensures pathCount[..]
           == if nests == 0 then old(pathCount[..]) else old(pathCount[..])[nests := old(pathCount[nests]) + 1]
      ensures error == if nests > 0 && pathCount[nests] > Limit(nests) then -1 else 0
    {
      if nests == 0 { return 0; }
      pathCount[nests] := pathCount[nests] + 1;
      return if pathCount[nests] > Limit(nests) then -1 else 0;
    }

    /** Each nested call is one link further down the chain that leads to v. */
    ghost predicate Leads(v: nat, gap: nat)
      requires Valid()
      reads this
    {
      forall k :: 0 <= k < |calls| ==> calls[k] < |up| && Walk(up, calls[k], v, k + gap)
    }

    /** ep_call_nested for the upward walk: refuses a repeated cookie and a sixth level. */
    method CallNested(v: nat) returns (error: int)
      requires Valid() && v < |up| && |calls| <= PATH_ARR_SIZE && Leads(v, 1) && UnderLimits(pathCount[..])
      modifies this`calls, pathCount
      ensures calls == old(calls)
      ensures |calls| == PATH_ARR_SIZE ==> error != 0
      ensures |calls| < PATH_ARR_SIZE ==> (error == 0 <==> Fits(up, v, |calls|, old(pathCount[..])))
      ensures error == 0 && |calls| < PATH_ARR_SIZE ==>
                CountedVia(up, v, |up[v]|, |calls|, old(pathCount[..]), pathCount[..]) && UnderLimits(pathCount[..])
      decreases PATH_ARR_SIZE - |calls|, 0, 0
    {
      assert v !in calls by {
        forall k | 0 <= k < |calls| ensures calls[k] != v { assert Walk(up, calls[k], v, k + 1); }
      }
      if v in calls || |calls| > EpollLoop.EP_MAX_NESTS { return -1; }
      ghost var was := calls;
      calls := [v] + calls;
      error := Proc(v, |calls| - 1);
      calls := calls[1..];
      assert calls == was;
    }

    /** reverse_path_check_proc: end a path at each unwatched watcher, climb on at each watched one. */
    method Proc(v: nat, nests: nat) returns (error: int)
      requires Valid() && v < |up| && nests + 1 == |calls| <= PATH_ARR_SIZE && Leads(v, 0) && UnderLimits(pathCount[..])
      modifies this`calls, pathCount
      ensures calls == old(calls)
      ensures error == 0 <==> Fits(up, v, nests, old(pathCount[..]))
      ensures error == 0 ==>
        CountedVia(up, v, |up[v]|, nests, old(pathCount[..]), pathCount[..]) && UnderLimits(pathCount[..])
      decreases PATH_ARR_SIZE - |calls|, 1
    {
      ghost var before := pathCount[..];
      error := 0;
      var i := 0;
      while i < |up[v]|
        invariant 0 <= i <= |up[v]| && error == 0 && calls == old(calls) && UnderLimits(pathCount[..])
        invariant CountedVia(up, v, i, nests, before, pathCount[..])
        invariant forall j :: 0 <= j < i ==> !Climbs(up, up[v][j], PATH_ARR_SIZE - nests)
      {
        error := Item(v, i, nests, before);
        if error != 0 { return error; }
        i := i + 1;
      }
      AllFit(up, v, nests, before, pathCount[..]);
    }

    /** One watcher in the loop of reverse_path_check_proc. */
    method Item(v: nat, i: nat, nests: nat, ghost before: seq<int>) returns (error: int)
      requires Valid() && v < |up| && i < |up[v]| && nests + 1 == |calls| <= PATH_ARR_SIZE && |before| == PATH_ARR_SIZE
      requires Leads(v, 0) && UnderLimits(pathCount[..]) && CountedVia(up, v, i, nests, before, pathCount[..])
      modifies this`calls, pathCount
      ensures calls == old(calls)
      ensures error == 0 ==> CountedVia(up, v, i + 1, nests, before, pathCount[..]) && UnderLimits(pathCount[..])
      ensures error == 0 ==> !Climbs(up, up[v][i], PATH_ARR_SIZE - nests)
      ensures error != 0 ==> !Fits(up, v, nests, before)
      decreases PATH_ARR_SIZE - |calls|, 0, 1
    {
      var c := up[v][i];
      ghost var mid := pathCount[..];
      if |up[c]| == 0 {
        error := Inc(nests);
        EndCounts(up, c, nests, mid, pathCount[..]);
        CountedNext(up, v, i, nests, before, mid, pathCount[..]);
        if error != 0 { Breaks(up, v, i, nests, before, mid, nests); }
      } else {
        forall k | 0 <= k < |calls| ensures Walk(up, calls[k], c, k + 1) { WalkStep(up, calls[k], v, i, k); }
        error := CallNested(c);
        if |calls| == PATH_ARR_SIZE {
          assert Climbs(up, up[c][0], 0) && Climbs(up, c, 1) && Climbs(up, v, 2);
        } else if error != 0 {
          BreaksNested(up, v, i, nests, before, mid);
        } else {
          NestedCounts(up, c, nests, mid, pathCount[..]);
          CountedNext(up, v, i, nests, before, mid, pathCount[..]);
        }
      }
    }

    /** path_count_init */
    method Reset()
      requires Valid()
      modifies pathCount
      ensures forall n :: 0 <= n < PATH_ARR_SIZE ==> pathCount[n] == 0
    {
      for j := 0 to PATH_ARR_SIZE
        invariant forall n :: 0 <= n < j ==> pathCount[n] == 0
      {
        pathCount[j] := 0;
      }
    }

    /** reverse_path_check: zero exactly when every file on the check list is within the limits. */
    method Check(files: seq<nat>) returns (error: int)
      requires Valid() && calls == [] && forall k :: 0 <= k < |files| ==> files[k] < |up|
      modifies this`calls, pathCount
      ensures calls == []
      ensures error == 0 <==> forall k :: 0 <= k < |files| ==> WithinLimits(up, files[k])
    {
      error := 0;
      var i := 0;
      while i < |files|
        invariant 0 <= i <= |files| && error == 0 && calls == []
        invariant forall k :: 0 <= k < i ==> WithinLimits(up, files[k])
      {
        Reset();
        ghost var zero := pathCount[..];
        error := CallNested(files[i]);
        assert Fits(up, files[i], 0, zero) <==> WithinLimits(up, files[i]);
        if error != 0 { return error; }
        i := i + 1;
      }
    }
  }
}
