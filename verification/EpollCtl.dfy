/**
  epoll_ctl's two checks together (fs/eventpoll.c): the search below the target collects the files whose wakeup paths
  an addition can change, and the path counter is run on them. Items are kept twice, as in the code: in the
  tree of the watching set (links) and in the list of the watched file (up).
*/
module EpollCtl {
  import L = EpollLoop
  import P = EpollPaths

  // ---- two views of the same items --------------------------------------------------------------

  /** Files are numbered after the n epoll sets. */
  function Node(n: nat, t: L.Target): nat { match t case Set(w) => w case File(f) => n + f }

  function TargetOf(n: nat, v: nat): L.Target { if v < n then L.Set(v) else L.File(v - n) }

  /** Set p watches node v as often as it is on the list of v. */
  predicate Agree(links: L.Links, up: P.Watchers, p: nat, v: nat)
    requires p < |links| && v < |up|
  {
    multiset(links[p])[TargetOf(|links|, v)] == multiset(up[v])[p]
  }

  predicate Mirror(links: L.Links, up: P.Watchers) {
    && |links| <= |up| && L.WellFormed(links) && P.WellFormed(up)
    && (forall v, k :: 0 <= v < |up| && 0 <= k < |up[v]| ==> up[v][k] < |links|)
    && (forall p, k :: 0 <= p < |links| && 0 <= k < |links[p]| ==> Node(|links|, links[p][k]) < |up|)
    && (forall p, v :: 0 <= p < |links| && 0 <= v < |up| ==> Agree(links, up, p, v))
  }

  lemma UpIsDown(links: L.Links, up: P.Watchers, v: nat, k: nat)
    requires Mirror(links, up) && v < |up| && k < |up[v]|
    ensures up[v][k] < |links| && TargetOf(|links|, v) in links[up[v][k]]
  {
    assert up[v][k] in up[v];
    assert Agree(links, up, up[v][k], v);
  }

  /** Climbing from set a to b is a chain of watches from b down to a. */
  lemma {:induction false} ClimbIsWalk(links: L.Links, up: P.Watchers, a: nat, b: nat, n: nat)
    requires Mirror(links, up) && a < |links| && P.Walk(up, a, b, n)
    ensures b < |links| && L.Walk(links, b, a, n)
    decreases n
  {
    if n > 0 {
      var k :| 0 <= k < |up[a]| && P.Walk(up, up[a][k], b, n - 1);
      UpIsDown(links, up, a, k);
      ClimbIsWalk(links, up, up[a][k], b, n - 1);
      assert L.Edge(links, up[a][k], a);
      L.StepWalk(links, b, up[a][k], a, n - 1);
    }
  }

  /** Nothing is watched by a file, so climbing never comes to one. */
  lemma {:induction false} ClimbsEndInSets(links: L.Links, up: P.Watchers, a: nat, b: nat, n: nat)
    requires Mirror(links, up) && a < |up| && P.Walk(up, a, b, n) && n >= 1
    ensures b < |links|
    decreases n
  {
    var k :| 0 <= k < |up[a]| && P.Walk(up, up[a][k], b, n - 1);
    if n > 1 { ClimbsEndInSets(links, up, up[a][k], b, n - 1); }
  }

  lemma UpIsAcyclic(links: L.Links, up: P.Watchers)
    requires Mirror(links, up) && L.Acyclic(links)
    ensures P.Acyclic(up)
  {
    forall v, n: nat | 0 <= v < |up| && n >= 1 && P.Walk(up, v, v, n) ensures false {
      ClimbsEndInSets(links, up, v, v, n);
      ClimbIsWalk(links, up, v, v, n);
    }
  }

  // ---- what a change at one node does to paths from another ----------------------------------------

  ghost predicate CanClimb(up: P.Watchers, v: nat, u: nat)
    requires P.WellFormed(up) && v < |up|
  {
    exists n: nat :: P.Walk(up, v, u, n)
  }

  lemma CannotClimbOn(up: P.Watchers, v: nat, u: nat, k: nat)
    requires P.WellFormed(up) && v < |up| && k < |up[v]| && !CanClimb(up, v, u)
    ensures !CanClimb(up, up[v][k], u)
  {
    if CanClimb(up, up[v][k], u) {
      var n: nat :| P.Walk(up, up[v][k], u, n);
      assert P.Walk(up, v, u, n + 1);
    }
  }

  /** The two graphs differ at most in the watchers of u. */
  predicate OnlyAt(up: P.Watchers, up': P.Watchers, u: nat) {
    u < |up| == |up'| && forall v :: 0 <= v < |up| && v != u ==> up'[v] == up[v]
  }

  /** Paths from v do not depend on the watchers of a node that v cannot climb to. */
  lemma {:induction false} PathsUnaffected(up: P.Watchers, up': P.Watchers, v: nat, u: nat, n: nat)
    requires P.WellFormed(up) && P.WellFormed(up') && OnlyAt(up, up', u) && v < |up|
    requires !CanClimb(up, v, u)
    ensures P.Paths(up', v, n) == P.Paths(up, v, n)
    decreases n, 0
  {
    assert v != u by { if v == u { assert P.Walk(up, v, u, 0); } }
    if n > 0 { PathsViaUnaffected(up, up', v, u, |up[v]|, n); }
  }

  lemma {:induction false} PathsViaUnaffected(up: P.Watchers, up': P.Watchers, v: nat, u: nat, k: nat, n: nat)
    requires P.WellFormed(up) && P.WellFormed(up') && OnlyAt(up, up', u) && v < |up| && v != u
    requires !CanClimb(up, v, u) && k <= |up[v]| && n > 0
    ensures P.PathsVia(up', v, k, n) == P.PathsVia(up, v, k, n)
    decreases n - 1, k + 1
  {
    if k > 0 {
      PathsViaUnaffected(up, up', v, u, k - 1, n);
      CannotClimbOn(up, v, u, k - 1);
      PathsUnaffected(up, up', up[v][k - 1], u, n - 1);
    }
  }

  lemma {:induction false} ClimbsUnaffected(up: P.Watchers, up': P.Watchers, v: nat, u: nat, n: nat)
    requires P.WellFormed(up) && P.WellFormed(up') && OnlyAt(up, up', u) && v < |up|
    requires !CanClimb(up, v, u) && P.Climbs(up', v, n)
    ensures P.Climbs(up, v, n)
    decreases n
  {
    assert v != u by { if v == u { assert P.Walk(up, v, u, 0); } }
    if n > 0 {
      var k :| 0 <= k < |up'[v]| && P.Climbs(up', up'[v][k], n - 1);
      CannotClimbOn(up, v, u, k);
      ClimbsUnaffected(up, up', up[v][k], u, n - 1);
    }
  }

  lemma LimitsUnaffected(up: P.Watchers, up': P.Watchers, v: nat, u: nat)
    requires P.WellFormed(up) && P.WellFormed(up') && OnlyAt(up, up', u) && v < |up|
    requires !CanClimb(up, v, u) && P.WithinLimits(up, v)
    ensures P.WithinLimits(up', v)
  {
    if P.Climbs(up', v, P.PATH_ARR_SIZE + 1) { ClimbsUnaffected(up, up', v, u, P.PATH_ARR_SIZE + 1); }
    forall n | 1 <= n < P.PATH_ARR_SIZE ensures P.Paths(up', v, n + 1) <= P.Limit(n) {
      PathsUnaffected(up, up', v, u, n + 1);
    }
  }

  /** All ordinary files are within the path limits. */
  ghost predicate AllWithin(up: P.Watchers, n: nat)
    requires P.WellFormed(up)
  {
    forall v :: n <= v < |up| ==> P.WithinLimits(up, v)
  }

  // ---- an addition ------------------------------------------------------------------------------

  function AddWatcher(up: P.Watchers, u: nat, p: nat): P.Watchers
    requires u < |up|
  {
    up[u := up[u] + [p]]
  }

  lemma AddKeepsMirror(links: L.Links, up: P.Watchers, p: nat, t: L.Target)
    requires Mirror(links, up) && p < |links| && Node(|links|, t) < |up| && (t.Set? ==> t.ep < |links|)
    ensures Mirror(L.AddLink(links, p, t), AddWatcher(up, Node(|links|, t), p))
  {
    var links', up' := L.AddLink(links, p, t), AddWatcher(up, Node(|links|, t), p);
    forall q, v | 0 <= q < |links| && 0 <= v < |up| ensures Agree(links', up', q, v) {
      assert Agree(links, up, q, v);
    }
  }

  /** A file that can climb to the target set is on the list that the search made. */
  lemma AffectedIsListed(links: L.Links, up: P.Watchers, v: nat, w: nat, tfiles: seq<nat>)
    requires Mirror(links, up) && |links| <= v < |up| && w < |links| && L.AllListed(links, w, tfiles)
    requires CanClimb(up, v, w)
    ensures v - |links| in tfiles
  {
    var n: nat :| P.Walk(up, v, w, n);
    var k :| 0 <= k < |up[v]| && P.Walk(up, up[v][k], w, n - 1);
    UpIsDown(links, up, v, k);
    ClimbIsWalk(links, up, up[v][k], w, n - 1);
    assert L.Reaches(links, w, up[v][k]);
  }

  /** A new watcher that nobody watches adds one path of one link, which is not limited. */
  lemma TopWatcherIsFree(up: P.Watchers, u: nat, p: nat)
    requires P.WellFormed(up) && P.Acyclic(up) && u < |up| && p < |up| && p != u && up[p] == [] && P.WithinLimits(up, u)
    ensures P.WellFormed(AddWatcher(up, u, p)) && P.WithinLimits(AddWatcher(up, u, p), u)
  {
    var up' := AddWatcher(up, u, p);
    if P.Climbs(up', u, P.PATH_ARR_SIZE + 1) { TopClimbs(up, u, p, P.PATH_ARR_SIZE); }
    forall n | 1 <= n < P.PATH_ARR_SIZE ensures P.Paths(up', u, n + 1) <= P.Limit(n) {
      OldWatchersSame(up, up', u, |up[u]|, n + 1);
      assert P.Paths(up', u, n + 1) == P.PathsVia(up', u, |up[u]| + 1, n + 1);
      assert P.Paths(up', p, n) == P.PathsVia(up', p, 0, n) == 0;
    }
  }

  lemma TopClimbs(up: P.Watchers, u: nat, p: nat, n: nat)
    requires P.WellFormed(up) && P.Acyclic(up) && u < |up| && p < |up| && p != u && up[p] == [] && n >= 1
    requires P.Climbs(AddWatcher(up, u, p), u, n + 1)
    ensures P.Climbs(up, u, n + 1)
  {
    var up' := AddWatcher(up, u, p);
    var k :| 0 <= k < |up'[u]| && P.Climbs(up', up'[u][k], n);
    assert up'[p] == [];
    NoWayBack(up, u, k);
    ClimbsUnaffected(up, up', up[u][k], u, n);
  }

  lemma NoWayBack(up: P.Watchers, u: nat, k: nat)
    requires P.WellFormed(up) && P.Acyclic(up) && u < |up| && k < |up[u]|
    ensures !CanClimb(up, up[u][k], u)
  {
    if CanClimb(up, up[u][k], u) {
      var n: nat :| P.Walk(up, up[u][k], u, n);
      assert P.Walk(up, u, u, n + 1);
    }
  }

  lemma {:induction false} OldWatchersSame(up: P.Watchers, up': P.Watchers, u: nat, k: nat, n: nat)
    requires P.WellFormed(up) && P.WellFormed(up') && P.Acyclic(up) && OnlyAt(up, up', u)
    requires k <= |up[u]| && up[u][..k] <= up'[u] && n > 0
    ensures P.PathsVia(up', u, k, n) == P.PathsVia(up, u, k, n)
    decreases k
  {
    if k > 0 {
      OldWatchersSame(up, up', u, k - 1, n);
      NoWayBack(up, u, k - 1);
      PathsUnaffected(up, up', up[u][k - 1], u, n - 1);
    }
  }

  // ---- a deletion -------------------------------------------------------------------------------

  /** Watcher j of u gone. */
  function DropWatcher(up: P.Watchers, u: nat, j: nat): P.Watchers
    requires u < |up| && j < |up[u]|
  {
    up[u := up[u][..j] + up[u][j + 1..]]
  }

  lemma DropCount<T>(s: seq<T>, k: nat, x: T)
    requires k < |s|
    ensures multiset(s[..k] + s[k + 1..])[x] == multiset(s)[x] - if x == s[k] then 1 else 0
  {
    assert s == s[..k] + [s[k]] + s[k + 1..];
  }

  lemma DropAgrees(links: L.Links, up: P.Watchers, p: nat, k: nat, j: nat, q: nat, v: nat)
    requires Mirror(links, up) && p < |links| && k < |links[p]| && q < |links| && v < |up|
    requires var u := Node(|links|, links[p][k]); j < |up[u]| && up[u][j] == p
    ensures Agree(L.DropLink(links, p, k), DropWatcher(up, Node(|links|, links[p][k]), j), q, v)
  {
    var u, x := Node(|links|, links[p][k]), TargetOf(|links|, v);
    assert Agree(links, up, q, v);
    assert x == links[p][k] <==> v == u;
    DropCount(links[p], k, x);
    DropCount(up[u], j, q);
  }

  lemma DropIsSubset(up: P.Watchers, u: nat, j: nat)
    requires u < |up| && j < |up[u]|
    ensures var up' := DropWatcher(up, u, j);
            forall v, m :: 0 <= v < |up| && 0 <= m < |up'[v]| ==> up'[v][m] in up[v]
  {
    var up' := DropWatcher(up, u, j);
    forall v, m | 0 <= v < |up| && 0 <= m < |up'[v]| ensures up'[v][m] in up[v] {
      assert up'[v][m] == up[v][if v != u || m < j then m else m + 1];
    }
  }

  lemma DropKeepsMirror(links: L.Links, up: P.Watchers, p: nat, k: nat, j: nat)
    requires Mirror(links, up) && p < |links| && k < |links[p]|
    requires var u := Node(|links|, links[p][k]); j < |up[u]| && up[u][j] == p
    ensures Mirror(L.DropLink(links, p, k), DropWatcher(up, Node(|links|, links[p][k]), j))
  {
    var u := Node(|links|, links[p][k]);
    var links', up' := L.DropLink(links, p, k), DropWatcher(up, u, j);
    forall q, v | 0 <= q < |links'| && 0 <= v < |up'| ensures Agree(links', up', q, v) {
      DropAgrees(links, up, p, k, j, q, v);
    }
    DropIsSubset(up, u, j);
    L.DropShrinks(links, p, k);
    L.ShrunkIsWithin(links', links);
    forall v, m | 0 <= v < |up'| && 0 <= m < |up'[v]| ensures up'[v][m] < |links'| {
      var x :| 0 <= x < |up[v]| && up[v][x] == up'[v][m];
    }
    forall q, m | 0 <= q < |links'| && 0 <= m < |links'[q]| ensures Node(|links'|, links'[q][m]) < |up'| {
      assert links'[q][m] in links[q];
      var x :| 0 <= x < |links[q]| && links[q][x] == links'[q][m];
    }
  }

  /** Any graph with some watchers left out, but none of them the last one of a node. */
  predicate Fewer(up: P.Watchers, up': P.Watchers, u: nat, j: nat) {
    u < |up| && j < |up[u]| && up' == DropWatcher(up, u, j) && up'[u] != []
  }

  lemma {:induction false} FewerPaths(up: P.Watchers, up': P.Watchers, u: nat, j: nat, v: nat, n: nat)
    requires P.WellFormed(up) && P.WellFormed(up') && Fewer(up, up', u, j) && v < |up|
    ensures P.Paths(up', v, n) <= P.Paths(up, v, n)
    decreases n, 0
  {
    if n > 0 { FewerPathsVia(up, up', u, j, v, |up'[v]|, n); }
  }

  /** Index k of the shorter list is index k or k + 1 of the longer one. */
  function Original(u: nat, j: nat, v: nat, k: nat): nat { if v == u && k > j then k + 1 else k }

  lemma {:induction false} FewerPathsVia(up: P.Watchers, up': P.Watchers, u: nat, j: nat, v: nat, k: nat, n: nat)
    requires P.WellFormed(up) && P.WellFormed(up') && Fewer(up, up', u, j) && v < |up| && k <= |up'[v]| && n > 0
    ensures Original(u, j, v, k) <= |up[v]|
    ensures P.PathsVia(up', v, k, n) <= P.PathsVia(up, v, Original(u, j, v, k), n)
    decreases n - 1, k + 1
  {
    if k > 0 {
      FewerPathsVia(up, up', u, j, v, k - 1, n);
      var c := if v == u && k - 1 >= j then k else k - 1;
      assert up'[v][k - 1] == up[v][c];
      FewerPaths(up, up', u, j, up[v][c], n - 1);
      P.PathsViaMono(up, v, Original(u, j, v, k - 1), c, n);
      P.PathsViaMono(up, v, c + 1, Original(u, j, v, k), n);
    }
  }

  lemma {:induction false} FewerClimbs(up: P.Watchers, up': P.Watchers, v: nat, n: nat)
    requires P.WellFormed(up) && P.WellFormed(up') && |up| == |up'| && v < |up| && P.Climbs(up', v, n)
    requires forall w, k :: 0 <= w < |up| && 0 <= k < |up'[w]| ==> up'[w][k] in up[w]
    ensures P.Climbs(up, v, n)
    decreases n
  {
    if n > 0 {
      var k :| 0 <= k < |up'[v]| && P.Climbs(up', up'[v][k], n - 1);
      var m :| 0 <= m < |up[v]| && up[v][m] == up'[v][k];
      FewerClimbs(up, up', up'[v][k], n - 1);
    }
  }

  lemma DropWellFormed(up: P.Watchers, u: nat, j: nat)
    requires P.WellFormed(up) && u < |up| && j < |up[u]|
    ensures P.WellFormed(DropWatcher(up, u, j))
  {
    var up' := DropWatcher(up, u, j);
    DropIsSubset(up, u, j);
    forall v, m | 0 <= v < |up'| && 0 <= m < |up'[v]| ensures up'[v][m] < |up'| {
      var x :| 0 <= x < |up[v]| && up[v][x] == up'[v][m];
    }
  }

  /** Deleting a watch keeps all limits as long as what was watched is still watched. */
  lemma DropKeepsLimits(up: P.Watchers, u: nat, j: nat, n: nat)
    requires P.WellFormed(up) && u < |up| && j < |up[u]|
    requires DropWatcher(up, u, j)[u] != [] && AllWithin(up, n)
    ensures P.WellFormed(DropWatcher(up, u, j)) && AllWithin(DropWatcher(up, u, j), n)
  {
    var up' := DropWatcher(up, u, j);
    DropIsSubset(up, u, j);
    DropWellFormed(up, u, j);
    forall v | n <= v < |up'| ensures P.WithinLimits(up', v) {
      assert P.WithinLimits(up, v);
      if P.Climbs(up', v, P.PATH_ARR_SIZE + 1) { FewerClimbs(up, up', v, P.PATH_ARR_SIZE + 1); }
      forall m | 1 <= m < P.PATH_ARR_SIZE ensures P.Paths(up', v, m + 1) <= P.Limit(m) {
        FewerPaths(up, up', u, j, v, m + 1);
      }
    }
  }

  /** Paths of n links from v that end at an unwatched set or at u, whatever watches u. */
  function PathsTo(up: P.Watchers, u: nat, v: nat, n: nat): nat
    requires P.WellFormed(up) && v < |up|
    decreases n, 0
  {
    if n == 0 then (if up[v] == [] || v == u then 1 else 0)
    else if v == u then 0
    else PathsToVia(up, u, v, |up[v]|, n)
  }

  function PathsToVia(up: P.Watchers, u: nat, v: nat, k: nat, n: nat): nat
    requires P.WellFormed(up) && v < |up| && k <= |up[v]| && n > 0
    decreases n - 1, k + 1
  {
    if k == 0 then 0 else PathsToVia(up, u, v, k - 1, n) + PathsTo(up, u, up[v][k - 1], n - 1)
  }

  lemma {:induction false} CutPaths(up: P.Watchers, up': P.Watchers, u: nat, v: nat, n: nat)
    requires P.WellFormed(up) && P.WellFormed(up') && OnlyAt(up, up', u) && up'[u] == [] && v < |up|
    ensures P.Paths(up', v, n) == PathsTo(up, u, v, n)
    decreases n, 0
  {
    if n > 0 && v != u { CutPathsVia(up, up', u, v, |up[v]|, n); }
  }

  lemma {:induction false} CutPathsVia(up: P.Watchers, up': P.Watchers, u: nat, v: nat, k: nat, n: nat)
    requires P.WellFormed(up) && P.WellFormed(up') && OnlyAt(up, up', u) && up'[u] == [] && v < |up| && v != u
    requires k <= |up[v]| && n > 0
    ensures P.PathsVia(up', v, k, n) == PathsToVia(up, u, v, k, n)
    decreases n - 1, k + 1
  {
    if k > 0 {
      CutPathsVia(up, up', u, v, k - 1, n);
      CutPaths(up, up', u, up[v][k - 1], n - 1);
    }
  }

  ghost predicate FitsWithTop(up: P.Watchers, u: nat, v: nat)
    requires P.WellFormed(up) && v < |up|
  {
    forall m :: 1 <= m < P.PATH_ARR_SIZE ==> PathsTo(up, u, v, m + 1) <= P.Limit(m)
  }

  /**
    Deleting the last watch of u keeps all limits exactly if, before the deletion, no file has more paths of one
    length ending at the top or at u than that length allows: paths through u become shorter ones.
  */
  lemma LastDropKeepsLimits(up: P.Watchers, u: nat, n: nat)
    requires P.WellFormed(up) && u < |up| && |up[u]| == 1 && AllWithin(up, n)
    ensures P.WellFormed(DropWatcher(up, u, 0))
    ensures AllWithin(DropWatcher(up, u, 0), n) <==> forall v :: n <= v < |up| ==> FitsWithTop(up, u, v)
  {
    var up' := DropWatcher(up, u, 0);
    forall v | n <= v < |up| ensures P.WithinLimits(up', v) <==> FitsWithTop(up, u, v) {
      assert P.WithinLimits(up, v);
      CutLimits(up, u, v);
    }
    assert forall v :: n <= v < |up| ==> (P.WithinLimits(up', v) <==> FitsWithTop(up, u, v));
  }

  lemma CutLimits(up: P.Watchers, u: nat, v: nat)
    requires P.WellFormed(up) && u < |up| && |up[u]| == 1 && v < |up| && P.WithinLimits(up, v)
    ensures P.WellFormed(DropWatcher(up, u, 0))
    ensures P.WithinLimits(DropWatcher(up, u, 0), v) <==> FitsWithTop(up, u, v)
  {
    var up' := DropWatcher(up, u, 0);
    if P.Climbs(up', v, P.PATH_ARR_SIZE + 1) { FewerClimbs(up, up', v, P.PATH_ARR_SIZE + 1); }
    forall m: nat ensures P.Paths(up', v, m) == PathsTo(up, u, v, m) { CutPaths(up, up', u, v, m); }
    assert FitsWithTop(up, u, v) <==> forall m :: 1 <= m < P.PATH_ARR_SIZE ==> P.Paths(up', v, m + 1) <= P.Limit(m);
  }

  /** A file is watched, never climbed to, so even its last watch can go. */
  lemma LastDropOfFile(links: L.Links, up: P.Watchers, u: nat)
    requires Mirror(links, up) && |links| <= u < |up| && |up[u]| == 1 && AllWithin(up, |links|)
    ensures P.WellFormed(DropWatcher(up, u, 0)) && AllWithin(DropWatcher(up, u, 0), |links|)
  {
    var up' := DropWatcher(up, u, 0);
    forall v | |links| <= v < |up'| ensures P.WithinLimits(up', v) {
      assert P.WithinLimits(up, v);
      if v == u {
        CutLimits(up, u, v);
      } else {
        if CanClimb(up, v, u) {
          var m: nat :| P.Walk(up, v, u, m);
          ClimbsEndInSets(links, up, v, u, m);
        }
        LimitsUnaffected(up, up', v, u);
      }
    }
  }

  // ---- epoll_ctl --------------------------------------------------------------------------------

  /** The listed files, as nodes. */
  function Nodes(n: nat, tfiles: seq<nat>): seq<nat> { seq(|tfiles|, i requires 0 <= i < |tfiles| => n + tfiles[i]) }

  /** All that the addition of u's watcher can push over a limit has been checked. */
  lemma CheckedIsEnough(links: L.Links, up: P.Watchers, p: nat, t: L.Target, tfiles: seq<nat>)
    requires Mirror(links, up) && p < |links| && Node(|links|, t) < |up| && AllWithin(up, |links|)
    requires t.Set? ==> t.ep < |links| && L.AllListed(links, t.ep, tfiles)
    requires t.File? ==> t.f in tfiles
    requires var up' := AddWatcher(up, Node(|links|, t), p);
             P.WellFormed(up') && forall f :: f in tfiles ==> |links| + f < |up| && P.WithinLimits(up', |links| + f)
    ensures AllWithin(AddWatcher(up, Node(|links|, t), p), |links|)
  {
    var u := Node(|links|, t);
    var up' := AddWatcher(up, u, p);
    forall v | |links| <= v < |up'| ensures P.WithinLimits(up', v) {
      assert P.WithinLimits(up, v);
      if CanClimb(up, v, u) {
        ClimberIsListed(links, up, v, t, tfiles);
        assert P.WithinLimits(up', |links| + (v - |links|));
      } else {
        LimitsUnaffected(up, up', v, u);
      }
    }
  }

  lemma ClimberIsListed(links: L.Links, up: P.Watchers, v: nat, t: L.Target, tfiles: seq<nat>)
    requires Mirror(links, up) && |links| <= v < |up| && Node(|links|, t) < |up| && CanClimb(up, v, Node(|links|, t))
    requires t.Set? ==> t.ep < |links| && L.AllListed(links, t.ep, tfiles)
    requires t.File? ==> t.f in tfiles
    ensures v - |links| in tfiles
  {
    var u := Node(|links|, t);
    match t {
      case Set(w) => AffectedIsListed(links, up, v, w, tfiles);
      case File(f) =>
        var m: nat :| P.Walk(up, v, u, m);
        if m >= 1 { ClimbsEndInSets(links, up, v, u, m); }
    }
  }

  /** An addition without a check: an ordinary file, watched by a set that nobody watches. */
  lemma UncheckedIsFine(links: L.Links, up: P.Watchers, p: nat, f: nat)
    requires Mirror(links, up) && L.Acyclic(links) && p < |links| && |links| + f < |up| && up[p] == []
    requires AllWithin(up, |links|)
    ensures P.WellFormed(AddWatcher(up, |links| + f, p)) && AllWithin(AddWatcher(up, |links| + f, p), |links|)
  {
    var u := |links| + f;
    var up' := AddWatcher(up, u, p);
    UpIsAcyclic(links, up);
    assert P.WithinLimits(up, u);
    TopWatcherIsFree(up, u, p);
    forall v | |links| <= v < |up'| ensures P.WithinLimits(up', v) {
      assert P.WithinLimits(up, v);
      if v != u {
        if CanClimb(up, v, u) {
          var m: nat :| P.Walk(up, v, u, m);
          ClimbsEndInSets(links, up, v, u, m);
        }
        LimitsUnaffected(up, up', v, u);
      }
    }
  }

  /** The search below the target does not come to p or too deep. */
  predicate Accepted(links: L.Links, p: nat, t: L.Target) {
    t.Set? ==> L.Search(links, L.Unmarked(|links|), t.ep, 0, p).ok
  }

  /** File f is the target, or watched by a set at or below it. */
  ghost predicate Affected(links: L.Links, t: L.Target, f: nat) {
    t == L.File(f) || (t.Set? && L.Below(links, t.ep, f))
  }

  /** With the new watch, every affected file is within the path limits. */
  ghost predicate Fitting(links: L.Links, up: P.Watchers, p: nat, t: L.Target)
    requires Node(|links|, t) < |up| && P.WellFormed(up) && p < |up|
  {
    var up' := AddWatcher(up, Node(|links|, t), p);
    forall f :: Affected(links, t, f) && |links| + f < |up| ==> P.WithinLimits(up', |links| + f)
  }

  /** Checking the list is checking every affected file. */
  lemma ListFits(links: L.Links, up: P.Watchers, p: nat, t: L.Target, tfiles: seq<nat>)
    requires Node(|links|, t) < |up| && P.WellFormed(up) && p < |up|
    requires forall f :: f in tfiles <==> Affected(links, t, f)
    requires forall f :: f in tfiles ==> |links| + f < |up|
    ensures var up' := AddWatcher(up, Node(|links|, t), p);
            Fitting(links, up, p, t) <==> forall f :: f in tfiles ==> P.WithinLimits(up', |links| + f)
  {
    var up' := AddWatcher(up, Node(|links|, t), p);
    if Fitting(links, up, p, t) {
      forall f | f in tfiles ensures P.WithinLimits(up', |links| + f) { assert Affected(links, t, f); }
    }
    if forall f :: f in tfiles ==> P.WithinLimits(up', |links| + f) {
      forall f | Affected(links, t, f) && |links| + f < |up| ensures P.WithinLimits(up', |links| + f) {
        assert f in tfiles;
      }
    }
  }

  class Control {
    const nest: L.Nesting
    var up: P.Watchers

    ghost predicate Valid()
      reads this, nest
    {
      && nest.Clean() && nest.tfiles == [] && nest.others == [] && L.Acyclic(nest.links) && Mirror(nest.links, up)
    }

    constructor (sets: nat, files: nat)
      ensures Valid() && fresh(nest) && |nest.links| == sets && |up| == sets + files && AllWithin(up, sets)
    {
      nest := new L.Nesting(sets);
      up := seq(sets + files, _ => []);
      new;
      forall v | sets <= v < |up| ensures P.WithinLimits(up, v) {
        assert forall m: nat :: m > 0 ==> P.Paths(up, v, m) == P.PathsVia(up, v, 0, m) == 0;
      }
    }

    /** reverse_path_check over the check list. */
    method PathsFit() returns (ok: bool)
      requires P.WellFormed(up) && P.Acyclic(up)
      requires forall f :: f in nest.tfiles ==> |nest.links| + f < |up|
      ensures ok <==> forall f :: f in nest.tfiles ==> P.WithinLimits(up, |nest.links| + f)
    {
      var check := new P.PathCheck(up);
      var files := Nodes(|nest.links|, nest.tfiles);
      forall k | 0 <= k < |files| ensures files[k] < |up| { assert nest.tfiles[k] in nest.tfiles; }
      var error := check.Check(files);
      ok := error == 0;
      if ok {
        forall f | f in nest.tfiles ensures P.WithinLimits(up, |nest.links| + f) {
          var k :| 0 <= k < |nest.tfiles| && nest.tfiles[k] == f;
          assert files[k] == |nest.links| + f;
        }
      } else {
        ghost var k :| 0 <= k < |files| && !P.WithinLimits(up, files[k]);
        assert nest.tfiles[k] in nest.tfiles;
      }
    }

    /**
      EPOLL_CTL_ADD with both checks. The full check is made when the target is an epoll set or p is itself
      watched; it keeps every ordinary file within the path limits, and so does skipping it otherwise.
    */
    method CtlAdd(p: nat, t: L.Target, present: bool) returns (error: L.Errno)
      requires Valid() && p < |nest.links| && Node(|nest.links|, t) < |up| && (t.Set? ==> t.ep < |nest.links|)
      modifies this, nest
      ensures Valid() && |nest.links| == |old(nest.links)|
      ensures error.Ok? ==>
        nest.links == L.AddLink(old(nest.links), p, t) && up == AddWatcher(old(up), Node(|nest.links|, t), p)
      ensures !error.Ok? ==> nest.links == old(nest.links) && up == old(up)
      ensures AllWithin(old(up), |nest.links|) ==> AllWithin(up, |nest.links|)
      ensures error.Eloop? <==> t != L.Set(p) && !Accepted(old(nest.links), p, t)
      ensures error.Eexist? <==> present && t != L.Set(p) && Accepted(old(nest.links), p, t)
      ensures error.Ok? <==>
        && !present && t != L.Set(p) && Accepted(old(nest.links), p, t)
        && (t.Set? || old(up)[p] != [] ==> Fitting(old(nest.links), old(up), p, t))
      ensures t.Set? && t.ep != p && L.Reaches(old(nest.links), t.ep, p) ==> error.Eloop?
      ensures t.File? && !present && old(up)[p] == [] ==> error.Ok?
    {
      if t == L.Set(p) { return L.Einval; }
      var full := up[p] != [] || t.Set?;
      error := ListFiles(p, t, full);
      if !error.Ok? { return; }
      if present { nest.tfiles := []; return L.Eexist; }
      var ok := InsertChecked(p, t, full);
      nest.tfiles := [];
      if !ok { return L.Einval; }
    }

    /** ep_insert: put the item on both structures, and take it off again if the full check fails. */
    method InsertChecked(p: nat, t: L.Target, full: bool) returns (ok: bool)
      requires nest.Clean() && nest.others == [] && L.Acyclic(nest.links) && Mirror(nest.links, up)
      requires p < |nest.links| && Node(|nest.links|, t) < |up| && (full <==> up[p] != [] || t.Set?)
      requires t.Set? ==> t.ep < |nest.links| && !L.Reaches(nest.links, t.ep, p)
      requires full && t.Set? ==> L.AllListed(nest.links, t.ep, nest.tfiles)
      requires full ==> forall f :: f in nest.tfiles <==> Affected(nest.links, t, f)
      requires forall f :: f in nest.tfiles ==> |nest.links| + f < |up|
      modifies this`up, nest`links
      ensures nest.Clean() && L.Acyclic(nest.links) && Mirror(nest.links, up) && |nest.links| == |old(nest.links)|
      ensures ok <==> (full ==> Fitting(old(nest.links), old(up), p, t))
      ensures ok ==>
        nest.links == L.AddLink(old(nest.links), p, t) && up == AddWatcher(old(up), Node(|nest.links|, t), p)
      ensures !ok ==> nest.links == old(nest.links) && up == old(up)
      ensures AllWithin(old(up), |nest.links|) ==> AllWithin(up, |nest.links|)
    {
      ok := true;
      ghost var links0, up0 := nest.links, up;
      AddKeepsMirror(nest.links, up, p, t);
      L.LegalStep(nest.links, L.Add(p, t, nest.links));
      Insert(p, t);
      UpIsAcyclic(nest.links, up);
      if full {
        ok := PathsFit();
        ListFits(links0, up0, p, t, nest.tfiles);
        if !ok {
          Undo(p, t, links0, up0);
          return;
        }
        if AllWithin(up0, |links0|) { CheckedIsEnough(links0, up0, p, t, nest.tfiles); }
      } else if AllWithin(up0, |links0|) {
        UncheckedIsFine(links0, up0, p, t.f);
      }
    }

    /** The checks before the insertion: refuse a loop, list the files to be checked. */
    method ListFiles(p: nat, t: L.Target, full: bool) returns (error: L.Errno)
      requires Valid() && p < |nest.links| && Node(|nest.links|, t) < |up| && t != L.Set(p)
      requires t.Set? ==> t.ep < |nest.links| && full
      modifies nest
      ensures nest.Clean() && nest.links == old(nest.links) && nest.others == []
      ensures error == if Accepted(nest.links, p, t) then L.Ok else L.Eloop
      ensures error.Eloop? ==> nest.tfiles == []
      ensures t.Set? && L.Reaches(nest.links, t.ep, p) ==> error.Eloop?
      ensures error.Ok? && full ==>
        && (t.Set? ==> !L.Reaches(nest.links, t.ep, p) && L.AllListed(nest.links, t.ep, nest.tfiles))
        && (forall f :: f in nest.tfiles <==> Affected(nest.links, t, f))
      ensures forall f :: f in nest.tfiles ==> |nest.links| + f < |up|
    {
      error := L.Ok;
      if full {
        match t {
          case Set(w) =>
            var ret := nest.LoopCheck(p, w);
            forall f | f in nest.tfiles ensures |nest.links| + f < |up| { ListedIsFile(nest.links, up, w, f); }
            if ret != 0 { nest.tfiles := []; return L.Eloop; }
          case File(f) => nest.tfiles := [f];
        }
      }
    }

    method Insert(p: nat, t: L.Target)
      requires p < |nest.links| && Node(|nest.links|, t) < |up|
      modifies this`up, nest`links
      ensures nest.links == L.AddLink(old(nest.links), p, t)
      ensures up == AddWatcher(old(up), Node(|old(nest.links)|, t), p)
    {
      var u := Node(|nest.links|, t);
      nest.links := nest.links[p := nest.links[p] + [t]];
      up := up[u := up[u] + [p]];
    }

    /** error_remove_epi: take the new item off both structures again. */
    method Undo(p: nat, t: L.Target, ghost links0: L.Links, ghost up0: P.Watchers)
      requires p < |links0| && Node(|links0|, t) < |up0|
      requires nest.links == L.AddLink(links0, p, t) && up == AddWatcher(up0, Node(|links0|, t), p)
      modifies this`up, nest`links
      ensures nest.links == links0 && up == up0
    {
      var u := Node(|nest.links|, t);
      nest.links := nest.links[p := nest.links[p][..|nest.links[p]| - 1]];
      up := up[u := up[u][..|up[u]| - 1]];
    }

    /**
      EPOLL_CTL_DEL of item k of set p, which is entry j on the list of what it watches. The limits are kept when
      that is still watched or is an ordinary file, and otherwise exactly if paths ending there fit too.
    */
    method CtlDel(p: nat, k: nat, j: nat)
      requires Valid() && p < |nest.links| && k < |nest.links[p]|
      requires var u := Node(|nest.links|, nest.links[p][k]); j < |up[u]| && up[u][j] == p
      modifies this, nest
      ensures Valid() && nest.links == L.DropLink(old(nest.links), p, k)
      ensures up == DropWatcher(old(up), Node(|old(nest.links)|, old(nest.links)[p][k]), j)
      ensures var n, t := |nest.links|, old(nest.links)[p][k];
              && (AllWithin(old(up), n) && (t.File? || up[Node(n, t)] != []) ==> AllWithin(up, n))
              && (AllWithin(old(up), n) && up[Node(n, t)] == [] ==>
                  (AllWithin(up, n) <==> forall v :: n <= v < |up| ==> FitsWithTop(old(up), Node(n, t), v)))
    {
      ghost var links0, up0 := nest.links, up;
      var u := Node(|nest.links|, nest.links[p][k]);
      DropKeepsMirror(nest.links, up, p, k, j);
      L.LegalStep(nest.links, L.Del(p, k));
      nest.links := L.DropLink(nest.links, p, k);
      up := DropWatcher(up, u, j);
      if AllWithin(up0, |links0|) {
        if up[u] != [] {
          DropKeepsLimits(up0, u, j, |links0|);
        } else {
          LastDropKeepsLimits(up0, u, |links0|);
          if u >= |links0| { LastDropOfFile(links0, up0, u); }
        }
      }
    }
  }

  lemma ListedIsFile(links: L.Links, up: P.Watchers, root: nat, f: nat)
    requires Mirror(links, up) && L.Below(links, root, f)
    ensures |links| + f < |up|
  {
    var w: nat :| w < |links| && L.Reaches(links, root, w) && L.File(f) in links[w];
    var k :| 0 <= k < |links[w]| && links[w][k] == L.File(f);
    assert Node(|links|, links[w][k]) < |up|;
  }

  // ---- a deletion that breaks a limit -------------------------------------------------------------

  /** All maximal paths from v have len links, and there are c of them; no chain is longer. */
  ghost predicate Only(up: P.Watchers, v: nat, len: nat, c: nat)
    requires P.WellFormed(up) && v < |up|
  {
    && (forall m: nat :: P.Paths(up, v, m) == if m == len then c else 0)
    && (forall m: nat :: P.Climbs(up, v, m) ==> m <= len)
  }

  lemma Top(up: P.Watchers, v: nat)
    requires P.WellFormed(up) && v < |up| && up[v] == []
    ensures Only(up, v, 0, 1)
  {
    assert forall m: nat :: m > 0 ==> P.Paths(up, v, m) == P.PathsVia(up, v, 0, m) == 0;
  }

  lemma {:induction false} ViaOne(up: P.Watchers, v: nat, w: nat, k: nat, n: nat)
    requires P.WellFormed(up) && v < |up| && w < |up| && k <= |up[v]| && n > 0
    requires forall i :: 0 <= i < k ==> up[v][i] == w
    ensures P.PathsVia(up, v, k, n) == k * P.Paths(up, w, n - 1)
  {
    if k > 0 {
      ViaOne(up, v, w, k - 1, n);
      assert k * P.Paths(up, w, n - 1) == (k - 1) * P.Paths(up, w, n - 1) + P.Paths(up, w, n - 1);
    }
  }

  /** k watches of v by the same set multiply its paths by k. */
  lemma Parallel(up: P.Watchers, v: nat, w: nat, len: nat, c: nat)
    requires P.WellFormed(up) && v < |up| && w < |up| && up[v] != [] && Only(up, w, len, c)
    requires forall i :: 0 <= i < |up[v]| ==> up[v][i] == w
    ensures Only(up, v, len + 1, |up[v]| * c)
  {
    forall m: nat ensures P.Paths(up, v, m) == if m == len + 1 then |up[v]| * c else 0 {
      if m > 0 { ViaOne(up, v, w, |up[v]|, m); }
    }
    forall m: nat | P.Climbs(up, v, m) ensures m <= len + 1 {
      if m > 0 { assert P.Climbs(up, w, m - 1); }
    }
  }

  /**
    File 9 has fifty paths of four links, through sets 0 to 3, and one of five, through 4 to 8:
    both as many as are allowed or fewer.
  */
  predicate Fan(up: P.Watchers, last: seq<nat>) {
    && |up| == 10 && up[9] == [0, 0, 0, 0, 0, 4] && up[0] == [1, 1, 1, 1, 1] && up[1] == [2, 2] && up[2] == [3]
    && up[3] == [] && up[4] == [5] && up[5] == [6] && up[6] == [7] && up[7] == last && up[8] == []
  }

  lemma FanLeft(up: P.Watchers, last: seq<nat>)
    requires P.WellFormed(up) && Fan(up, last)
    ensures Only(up, 0, 3, 10)
  {
    Top(up, 3);
    Parallel(up, 2, 3, 0, 1);
    Parallel(up, 1, 2, 1, 1);
    Parallel(up, 0, 1, 2, 2);
  }

  /** The other branch, above a set 7 whose paths have `len` links. */
  lemma FanRight(up: P.Watchers, last: seq<nat>, len: nat)
    requires P.WellFormed(up) && Fan(up, last) && Only(up, 7, len, 1)
    ensures Only(up, 4, len + 3, 1)
  {
    Parallel(up, 6, 7, len, 1);
    Parallel(up, 5, 6, len + 1, 1);
    Parallel(up, 4, 5, len + 2, 1);
  }

  lemma FanPaths(up: P.Watchers, last: seq<nat>, len: nat, m: nat)
    requires P.WellFormed(up) && Fan(up, last) && Only(up, 7, len, 1)
    ensures P.Paths(up, 9, m + 1) == (if m == 3 then 50 else 0) + if m == len + 3 then 1 else 0
    ensures P.Climbs(up, 9, m + 1) ==> m <= 3 || m <= len + 3
  {
    FanLeft(up, last);
    FanRight(up, last, len);
    ViaOne(up, 9, 0, 5, m + 1);
    assert P.Paths(up, 9, m + 1) == P.PathsVia(up, 9, 5, m + 1) + P.Paths(up, 4, m);
    if P.Climbs(up, 9, m + 1) {
      var k :| 0 <= k < |up[9]| && P.Climbs(up, up[9][k], m);
    }
  }

  lemma FanWithin(up: P.Watchers)
    requires P.WellFormed(up) && Fan(up, [8])
    ensures P.WithinLimits(up, 9)
  {
    Top(up, 8);
    Parallel(up, 7, 8, 0, 1);
    FanPaths(up, [8], 1, P.PATH_ARR_SIZE);
    forall n | 1 <= n < P.PATH_ARR_SIZE ensures P.Paths(up, 9, n + 1) <= P.Limit(n) { FanPaths(up, [8], 1, n); }
  }

  lemma FanBroken(up: P.Watchers)
    requires P.WellFormed(up) && Fan(up, [])
    ensures !P.WithinLimits(up, 9)
  {
    Top(up, 7);
    FanPaths(up, [], 0, 3);
    assert P.Paths(up, 9, 3 + 1) > P.Limit(3);
  }

  /** Deleting a watch can push a file over a limit: the path of five links becomes the fifty-first of four. */
  lemma DeletionBreaksLimits(up: P.Watchers)
    requires P.WellFormed(up) && Fan(up, [8])
    ensures AllWithin(up, 9)
    ensures P.WellFormed(DropWatcher(up, 7, 0)) && !AllWithin(DropWatcher(up, 7, 0), 9)
  {
    FanWithin(up);
    FanBroken(DropWatcher(up, 7, 0));
  }
}
