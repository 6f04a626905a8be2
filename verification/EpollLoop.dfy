/**
  Nesting of epoll sets (fs/eventpoll.c): the depth-bounded search that epoll_ctl runs before it
  lets one epoll set watch another, and the acyclicity it protects.
*/
module EpollLoop {

  /** What an epitem watches: another epoll set or an ordinary file. */
  datatype Target = Set(ep: nat) | File(f: nat)

  datatype Errno = Ok | Einval | Eloop | Eexist

  const EP_MAX_NESTS := 4

  type Links = seq<seq<Target>>

  predicate WellFormed(links: Links) {
    forall v, k :: 0 <= v < |links| && 0 <= k < |links[v]| && links[v][k].Set? ==> links[v][k].ep < |links|
  }

  predicate Edge(links: Links, a: nat, b: nat) { a < |links| && Set(b) in links[a] }

  /** A watch chain of exactly n links from a to b. */
  ghost predicate Walk(links: Links, a: nat, b: nat, n: nat)
    decreases n
  {
    if n == 0 then a == b else exists c: nat :: Edge(links, a, c) && Walk(links, c, b, n - 1)
  }

  ghost predicate Reaches(links: Links, a: nat, b: nat) { exists n: nat :: Walk(links, a, b, n) }

  /** Some chain of n links starts at a. */
  ghost predicate Deep(links: Links, a: nat, n: nat) { exists b: nat :: Walk(links, a, b, n) }

  ghost predicate Acyclic(links: Links) { forall v: nat, n: nat :: n >= 1 ==> !Walk(links, v, v, n) }

  // ---- walks --------------------------------------------------------------------------------

  lemma {:induction false} WalkJoin(links: Links, a: nat, b: nat, c: nat, m: nat, n: nat)
    requires Walk(links, a, b, m) && Walk(links, b, c, n)
    ensures Walk(links, a, c, m + n)
    decreases m
  {
    if m > 0 {
      var d: nat :| Edge(links, a, d) && Walk(links, d, b, m - 1);
      WalkJoin(links, d, b, c, m - 1, n);
    }
  }

  /** A set closed under watching contains everything reachable from its members. */
  lemma {:induction false} ClosedContains(links: Links, inside: seq<bool>, a: nat, b: nat, n: nat)
    requires |inside| == |links| && a < |links| && inside[a] && Walk(links, a, b, n)
    requires forall v: nat, w: nat :: v < |links| && inside[v] && Edge(links, v, w) ==> w < |links| && inside[w]
    ensures b < |links| && inside[b]
    decreases n
  {
    if n > 0 {
      var c: nat :| Edge(links, a, c) && Walk(links, c, b, n - 1);
      ClosedContains(links, inside, c, b, n - 1);
    }
  }

  /** Fewer links, fewer walks. */
  lemma {:induction false} WalkMono(less: Links, more: Links, a: nat, b: nat, n: nat)
    requires Within(less, more) && Walk(less, a, b, n)
    ensures Walk(more, a, b, n)
    decreases n
  {
    if n > 0 {
      var c: nat :| Edge(less, a, c) && Walk(less, c, b, n - 1);
      WalkMono(less, more, c, b, n - 1);
      assert Edge(more, a, c);
    }
  }

  ghost predicate Within(less: Links, more: Links) { forall a: nat, b: nat :: Edge(less, a, b) ==> Edge(more, a, b) }

  /** The same sets, with items removed. */
  predicate Shrunk(less: Links, more: Links) {
    |less| == |more| && forall v, x :: 0 <= v < |less| && x in less[v] ==> x in more[v]
  }

  lemma ShrunkIsWithin(less: Links, more: Links)
    requires Shrunk(less, more)
    ensures Within(less, more) && (WellFormed(more) ==> WellFormed(less))
  {
    if WellFormed(more) {
      forall v, k | 0 <= v < |less| && 0 <= k < |less[v]| && less[v][k].Set? ensures less[v][k].ep < |less| {
        assert less[v][k] in more[v];
        var j :| 0 <= j < |more[v]| && more[v][j] == less[v][k];
      }
    }
  }

  lemma DropShrinks(links: Links, p: nat, k: nat)
    requires p < |links| && k < |links[p]|
    ensures Shrunk(DropLink(links, p, k), links)
  {
  }

  /** The graph after epoll set p starts to watch t. */
  function AddLink(links: Links, p: nat, t: Target): Links
    requires p < |links|
  {
    links[p := links[p] + [t]]
  }

  function DropLink(links: Links, p: nat, k: nat): Links
    requires p < |links| && k < |links[p]|
  {
    links[p := links[p][..k] + links[p][k + 1..]]
  }

  lemma EdgeAdd(links: Links, p: nat, t: Target)
    requires p < |links|
    ensures forall a: nat, b: nat :: Edge(AddLink(links, p, t), a, b) <==> Edge(links, a, b) || (a == p && t == Set(b))
  {
  }

  /** A walk in the extended graph avoids the new link, or reaches p and goes on from t. */
  lemma {:induction false} WalkSplit(links: Links, p: nat, t: nat, a: nat, b: nat, n: nat)
    requires p < |links| && Walk(AddLink(links, p, Set(t)), a, b, n)
    ensures Walk(links, a, b, n) || (Reaches(links, a, p) && Reaches(links, t, b))
    decreases n
  {
    if n > 0 {
      var g := AddLink(links, p, Set(t));
      var c: nat :| Edge(g, a, c) && Walk(g, c, b, n - 1);
      EdgeAdd(links, p, Set(t));
      WalkSplit(links, p, t, c, b, n - 1);
      if Edge(links, a, c) {
        if !Walk(links, c, b, n - 1) {
          var k: nat :| Walk(links, c, p, k);
          assert Walk(links, a, p, k + 1);
        }
      } else {
        assert a == p && c == t;
        assert Walk(links, a, p, 0);
        if Walk(links, c, b, n - 1) { assert Reaches(links, t, b); }
      }
    }
  }

  /** Adding p -> t keeps the nesting acyclic exactly when p cannot be reached from t. */
  lemma AddKeepsAcyclic(links: Links, p: nat, t: nat)
    requires p < |links| && Acyclic(links)
    ensures Acyclic(AddLink(links, p, Set(t))) <==> !Reaches(links, t, p)
  {
    var g := AddLink(links, p, Set(t));
    EdgeAdd(links, p, Set(t));
    if Reaches(links, t, p) {
      var n: nat :| Walk(links, t, p, n);
      WalkMono(links, g, t, p, n);
      assert Edge(g, p, t) && Walk(g, p, p, n + 1);
    } else {
      forall v: nat, n: nat | n >= 1 && Walk(g, v, v, n) ensures false {
        WalkSplit(links, p, t, v, v, n);
        var i: nat :| Walk(links, v, p, i);
        var j: nat :| Walk(links, t, v, j);
        WalkJoin(links, t, v, p, j, i);
      }
    }
  }

  lemma SubgraphAcyclic(less: Links, more: Links)
    requires Within(less, more) && Acyclic(more)
    ensures Acyclic(less)
  {
    forall v: nat, n: nat | n >= 1 && Walk(less, v, v, n) ensures false { WalkMono(less, more, v, v, n); }
  }

  lemma AddFileKeeps(links: Links, p: nat, t: Target)
    requires p < |links| && Acyclic(links) && t.File?
    ensures Acyclic(AddLink(links, p, t))
  {
    EdgeAdd(links, p, t);
    SubgraphAcyclic(AddLink(links, p, t), links);
  }

  // ---- runs of epoll_ctl with deletions in between -------------------------------------------

  /**
    Deletions do not take epmutex, so links may vanish between the search (which ended in `seen`) and the
    insertion; links between epoll sets are only ever added under epmutex. That an addition is legal is what
    Nesting.CtlAdd below ensures when it succeeds.
  */
  datatype Ctl = Add(p: nat, t: Target, seen: Links) | Del(p: nat, k: nat)

  ghost predicate Legal(links: Links, c: Ctl) {
    match c
    case Add(p, t, seen) =>
      p < |links| && (t.Set? ==> Within(links, seen) && !Reaches(seen, t.ep, p))
    case Del(p, k) => p < |links| && k < |links[p]|
  }

  function Apply(links: Links, c: Ctl): Links {
    match c
    case Add(p, t, _) => if p < |links| then AddLink(links, p, t) else links
    case Del(p, k) => if p < |links| && k < |links[p]| then DropLink(links, p, k) else links
  }

  function Replay(links: Links, cs: seq<Ctl>): Links
    decreases |cs|
  {
    if cs == [] then links else Replay(Apply(links, cs[0]), cs[1..])
  }

  ghost predicate AllLegal(links: Links, cs: seq<Ctl>)
    decreases |cs|
  {
    cs != [] ==> Legal(links, cs[0]) && AllLegal(Apply(links, cs[0]), cs[1..])
  }

  lemma LegalStep(links: Links, c: Ctl)
    requires Acyclic(links) && Legal(links, c)
    ensures Acyclic(Apply(links, c))
  {
    match c {
      case Add(p, t, seen) =>
        if t.Set? {
          if Reaches(links, t.ep, p) {
            var n: nat :| Walk(links, t.ep, p, n);
            WalkMono(links, seen, t.ep, p, n);
          }
          AddKeepsAcyclic(links, p, t.ep);
        } else {
          AddFileKeeps(links, p, t);
        }
      case Del(p, k) =>
        DropShrinks(links, p, k);
        ShrunkIsWithin(DropLink(links, p, k), links);
        SubgraphAcyclic(DropLink(links, p, k), links);
    }
  }

  /** Every run of additions (each accepted by a search that ended in some larger graph) and deletions stays acyclic. */
  lemma {:induction false} RunsStayAcyclic(links: Links, cs: seq<Ctl>)
    requires Acyclic(links) && AllLegal(links, cs)
    ensures Acyclic(Replay(links, cs))
    decreases |cs|
  {
    if cs != [] {
      LegalStep(links, cs[0]);
      RunsStayAcyclic(Apply(links, cs[0]), cs[1..]);
    }
  }

  // ---- what a search has covered ------------------------------------------------------------

  /** A watched set is marked, or a watched file is on the check list. */
  predicate Covered(visited: seq<bool>, tfiles: seq<nat>, t: Target) {
    match t
    case Set(w) => w < |visited| && visited[w]
    case File(f) => f in tfiles
  }

  predicate CoveredUpTo(items: seq<Target>, n: nat, visited: seq<bool>, tfiles: seq<nat>) {
    forall k :: 0 <= k < n && k < |items| ==> Covered(visited, tfiles, items[k])
  }

  /** Everything watched by a set marked since `before` is covered, leaving out set `but`. */
  predicate ClosedSince(links: Links, before: seq<bool>, visited: seq<bool>, tfiles: seq<nat>, but: int)
    requires |before| == |visited| == |links|
  {
    forall v :: 0 <= v < |links| && visited[v] && !before[v] && v != but ==>
      CoveredUpTo(links[v], |links[v]|, visited, tfiles)
  }

  /** Nothing was unmarked or unlisted. */
  predicate Grows(v0: seq<bool>, t0: seq<nat>, v1: seq<bool>, t1: seq<nat>) {
    |v0| == |v1| && (forall v :: 0 <= v < |v0| && v0[v] ==> v1[v]) && (forall f :: f in t0 ==> f in t1)
  }

  lemma ClosedCompose(links: Links, before: seq<bool>, v0: seq<bool>, t0: seq<nat>,
                      v1: seq<bool>, t1: seq<nat>, but: int)
    requires |before| == |v0| == |links| && Grows(v0, t0, v1, t1)
    requires ClosedSince(links, before, v0, t0, but) && ClosedSince(links, v0, v1, t1, -1)
    ensures ClosedSince(links, before, v1, t1, but)
  {
    forall v | 0 <= v < |links| && v1[v] && !before[v] && v != but ensures CoveredUpTo(links[v], |links[v]|, v1, t1) {
      if v0[v] { CoveredGrows(links[v], |links[v]|, v0, t0, v1, t1); }
    }
  }

  lemma CoveredGrows(items: seq<Target>, n: nat, v0: seq<bool>, t0: seq<nat>, v1: seq<bool>, t1: seq<nat>)
    requires CoveredUpTo(items, n, v0, t0) && Grows(v0, t0, v1, t1)
    ensures CoveredUpTo(items, n, v1, t1)
  {
    forall k | 0 <= k < n && k < |items| ensures Covered(v1, t1, items[k]) { assert Covered(v0, t0, items[k]); }
  }

  /** What was covered stays covered when items go away. */
  lemma ClosedShrinks(less: Links, more: Links, before: seq<bool>, visited: seq<bool>, tfiles: seq<nat>, but: int)
    requires Shrunk(less, more) && |before| == |visited| == |less| && ClosedSince(more, before, visited, tfiles, but)
    ensures ClosedSince(less, before, visited, tfiles, but)
  {
    forall v | 0 <= v < |less| && visited[v] && !before[v] && v != but
      ensures CoveredUpTo(less[v], |less[v]|, visited, tfiles)
    {
      forall k | 0 <= k < |less[v]| ensures Covered(visited, tfiles, less[v][k]) {
        assert less[v][k] in more[v];
        var j :| 0 <= j < |more[v]| && more[v][j] == less[v][k];
      }
    }
  }

  /** Set v is at most EP_MAX_NESTS links below a. */
  ghost predicate Near(links: Links, a: nat, v: nat) { exists m: nat :: m <= EP_MAX_NESTS && Walk(links, a, v, m) }

  /** Every set marked since `before` is near the root. */
  ghost predicate NearSince(links: Links, root: nat, before: seq<bool>, visited: seq<bool>)
    requires |before| == |visited|
  {
    forall v :: 0 <= v < |visited| && visited[v] && !before[v] ==> Near(links, root, v)
  }

  /** A set below root watches file f. */
  ghost predicate Below(links: Links, root: nat, f: nat) {
    exists w: nat :: w < |links| && Reaches(links, root, w) && File(f) in links[w]
  }

  /** Files are listed only because some set below root watches them. */
  ghost predicate OnlyBelow(links: Links, root: nat, before: seq<nat>, tfiles: seq<nat>) {
    forall f :: f in tfiles ==> f in before || Below(links, root, f)
  }

  // ---- the search as a function, when nobody interferes ----------------------------------------

  /** Whether the search below set n, at a nesting level, runs through, and the marks it leaves. */
  datatype Found = Found(ok: bool, visited: seq<bool>)

  function Search(links: Links, visited: seq<bool>, n: nat, level: nat, parent: nat): Found
    requires level <= EP_MAX_NESTS + 1
    decreases EP_MAX_NESTS + 1 - level, 1, 0
  {
    if n == parent || level > EP_MAX_NESTS || n >= |links| || n >= |visited| then Found(false, visited)
    else SearchItems(links, visited[n := true], links[n], level, parent)
  }

  /** The same for the rest of a set's items. */
  function SearchItems(links: Links, visited: seq<bool>, items: seq<Target>, level: nat, parent: nat): Found
    requires level <= EP_MAX_NESTS
    decreases EP_MAX_NESTS + 1 - level, 0, |items|
  {
    if items == [] then Found(true, visited)
    else
      var r := SearchItem(links, visited, items[0], level, parent);
      if r.ok then SearchItems(links, r.visited, items[1..], level, parent) else r
  }

  function SearchItem(links: Links, visited: seq<bool>, t: Target, level: nat, parent: nat): Found
    requires level <= EP_MAX_NESTS
    decreases EP_MAX_NESTS - level, 2, 0
  {
    match t
    case File(_) => Found(true, visited)
    case Set(w) =>
      if w < |visited| && visited[w] then Found(true, visited) else Search(links, visited, w, level + 1, parent)
  }

  /** The outcome of a run of the search is what the function says. */
  predicate Matches(r: Found, error: int, visited: seq<bool>) {
    (r.ok <==> error == 0) && (error == 0 ==> visited == r.visited)
  }

  // ---- the search ---------------------------------------------------------------------------

  /** A deletion by another task: item k of set p. */
  datatype Deletion = Deletion(p: nat, k: nat)

  /**
    Epoll objects, the marks of the search, the current task's entries of poll_loop_ncalls and the sets whose
    mutex it holds. `others` says which items other tasks delete each time the search has let go of a
    mutex or is about to take one: deletions do not take epmutex.
  */
  class Nesting {
    var links: Links
    var visited: seq<bool>
    var visitedList: seq<nat>
    var calls: seq<nat>
    var locked: seq<nat>
    var tfiles: seq<nat>
    var others: seq<seq<Deletion>>

    /** Marked exactly when on visited_list. */
    ghost predicate Marked()
      reads this
    {
      |visited| == |links| && WellFormed(links)
      && (forall v :: 0 <= v < |links| ==> (visited[v] <==> v in visitedList))
      && (forall i :: 0 <= i < |visitedList| ==> visitedList[i] < |links|)
      && (forall i, j :: 0 <= i < j < |visitedList| ==> visitedList[i] != visitedList[j])
    }

    /** Nothing of a search is left over. */
    ghost predicate Clean()
      reads this
    {
      |visited| == |links| && WellFormed(links) && visitedList == [] && calls == [] && locked == []
      && forall v :: 0 <= v < |visited| ==> !visited[v]
    }

    constructor (n: nat)
      ensures Clean() && Acyclic(links) && tfiles == [] && others == [] && links == seq(n, _ => [])
    {
      links := seq(n, _ => []);
      visited := seq(n, _ => false);
      visitedList, calls, locked, tfiles, others := [], [], [], [], [];
      new;
      forall v: nat, k: nat | k >= 1 ensures !Walk(links, v, v, k) {
        assert forall c: nat :: !Edge(links, v, c);
      }
    }

    /** Other tasks delete items of sets that are not locked. */
    method Interfere()
      modifies this`links, this`others
      ensures Shrunk(links, old(links)) && (forall v :: v in locked && v < |links| ==> links[v] == old(links)[v])
      ensures old(others) == [] ==> links == old(links) && others == []
    {
      if others == [] { return; }
      var batch := others[0];
      others := others[1..];
      var i := 0;
      while i < |batch|
        invariant Shrunk(links, old(links)) && (forall v :: v in locked && v < |links| ==> links[v] == old(links)[v])
      {
        var d := batch[i];
        if d.p < |links| && d.p !in locked && d.k < |links[d.p]| {
          DropShrinks(links, d.p, d.k);
          links := DropLink(links, d.p, d.k);
        }
        i := i + 1;
      }
    }

    /** The list walk of ep_call_nested: the nesting level, or -1 on re-entry or too many levels. */
    method CountNests(cookie: nat) returns (nests: int)
      ensures nests == -1 <==> cookie in calls || |calls| > EP_MAX_NESTS
      ensures nests != -1 ==> nests == |calls|
    {
      nests := 0;
      var i := 0;
      while i < |calls|
        invariant 0 <= i <= |calls| && nests == i <= EP_MAX_NESTS
        invariant cookie !in calls[..i]
      {
        if calls[i] == cookie { return -1; }
        nests := nests + 1;
        if nests > EP_MAX_NESTS { return -1; }
        i := i + 1;
      }
    }

    /** What every part of the search keeps, having started in graph `seen`. */
    twostate predicate Searched(root: nat, seen: Links)
      reads this
    {
      && Marked() && Shrunk(links, old(links)) && calls == old(calls) && locked == old(locked)
      && (forall v :: v in locked && v < |links| ==> links[v] == old(links)[v])
      && Grows(old(visited), old(tfiles), visited, tfiles)
      && (old(others) == [] ==> links == old(links) && others == [])
      && NearSince(seen, root, old(visited), visited) && OnlyBelow(seen, root, old(tfiles), tfiles)
    }

    /** ep_call_nested around ep_loop_check_proc, for the set n under the given cookie. */
    method CallNested(cookie: nat, n: nat, ghost root: nat, ghost parent: nat, ghost seen: Links) returns (error: int)
      requires Marked() && n < |links| && !visited[n] && |calls| <= EP_MAX_NESTS + 1 && Shrunk(links, seen)
      requires calls == [] ==> cookie == parent && n == root && root != parent
      requires calls != [] ==> parent == calls[|calls| - 1] && cookie == n && Walk(seen, root, n, |calls|)
      requires parent < |links| && !visited[parent] && n !in locked
      requires forall k :: 0 <= k < |calls| - 1 ==> calls[k] < |links| && visited[calls[k]]
      requires forall v :: v in locked ==> v < |links| && visited[v]
      modifies this
      ensures Searched(root, seen)
      ensures error == 0 ==> visited[n] && !visited[parent] && ClosedSince(links, old(visited), visited, tfiles, -1)
      ensures error != 0 ==> error == -1 && (Reaches(seen, root, parent) || Deep(seen, root, EP_MAX_NESTS + 1))
      ensures old(others) == [] ==> Matches(Search(links, old(visited), n, |calls|, parent), error, visited)
      decreases EP_MAX_NESTS + 1 - |calls|, 1, 0
    {
      var nests := CountNests(cookie);
      if nests == -1 {
        assert Walk(seen, root, n, |calls|);
        return -1;
      }
      assert Walk(seen, root, n, |calls|) by { if calls == [] { assert Walk(seen, root, root, 0); } }
      calls := [cookie] + calls;
      error := LoopCheckProc(n, nests, root, parent, seen);
      calls := calls[1..];
    }

    method MarkVisited(n: nat)
      requires Marked() && n < |links| && !visited[n]
      modifies this`visited, this`visitedList
      ensures Marked() && visited == old(visited)[n := true] && visitedList == [n] + old(visitedList)
    {
      visited := visited[n := true];
      visitedList := [n] + visitedList;
    }

    /** ep_loop_check_proc: mark the set, search the sets it watches, list the files it watches. */
    method LoopCheckProc(n: nat, nests: int, ghost root: nat, ghost parent: nat, ghost seen: Links)
      returns (error: int)
      requires Marked() && n < |links| && !visited[n] && nests == |calls| - 1 <= EP_MAX_NESTS && Shrunk(links, seen)
      requires calls != [] && parent == calls[|calls| - 1] && n != parent && n !in locked
      requires Walk(seen, root, n, |calls| - 1)
      requires parent < |links| && !visited[parent]
      requires forall k :: 0 < k < |calls| - 1 ==> calls[k] < |links| && visited[calls[k]]
      requires |calls| > 1 ==> calls[0] == n
      requires forall v :: v in locked ==> v < |links| && visited[v]
      modifies this
      ensures Searched(root, seen)
      ensures error == 0 ==> visited[n] && !visited[parent] && ClosedSince(links, old(visited), visited, tfiles, -1)
      ensures error != 0 ==> error == -1 && (Reaches(seen, root, parent) || Deep(seen, root, EP_MAX_NESTS + 1))
      ensures old(others) == [] ==> Matches(Search(links, old(visited), n, |calls| - 1, parent), error, visited)
      decreases EP_MAX_NESTS + 1 - |calls|, 2, 0
    {
      Interfere();
      ShrunkIsWithin(links, old(links));
      ghost var before := visited;
      error := VisitSet(n, root, parent, seen);
      ghost var held := links;
      Interfere();
      ShrunkIsWithin(links, held);
      if error == 0 { ClosedShrinks(links, held, before, visited, tfiles, -1); }
    }

    /** The part of ep_loop_check_proc under the mutex of n. */
    method VisitSet(n: nat, ghost root: nat, ghost parent: nat, ghost seen: Links) returns (error: int)
      requires Marked() && n < |links| && !visited[n] && 1 <= |calls| <= EP_MAX_NESTS + 1 && Shrunk(links, seen)
      requires parent == calls[|calls| - 1] && n != parent && n !in locked
      requires Walk(seen, root, n, |calls| - 1)
      requires parent < |links| && !visited[parent]
      requires forall k :: 0 < k < |calls| - 1 ==> calls[k] < |links| && visited[calls[k]]
      requires |calls| > 1 ==> calls[0] == n
      requires forall v :: v in locked ==> v < |links| && visited[v]
      modifies this
      ensures Searched(root, seen)
      ensures error == 0 ==> visited[n] && !visited[parent] && ClosedSince(links, old(visited), visited, tfiles, -1)
      ensures error != 0 ==> error == -1 && (Reaches(seen, root, parent) || Deep(seen, root, EP_MAX_NESTS + 1))
      ensures old(others) == [] ==> Matches(Search(links, old(visited), n, |calls| - 1, parent), error, visited)
      decreases EP_MAX_NESTS + 1 - |calls|, 1, 3
    {
      ghost var before, held := visited, locked;
      locked := [n] + locked;
      MarkVisited(n);
      assert Near(seen, root, n);
      assert forall k :: 0 <= k < |calls| - 1 ==> calls[k] < |links| && visited[calls[k]];
      error := VisitItems(n, root, parent, seen, before);
      locked := locked[1..];
      assert locked == held;
    }

    /** The loop of ep_loop_check_proc over the items of n, which is locked. */
    method VisitItems(n: nat, ghost root: nat, ghost parent: nat, ghost seen: Links, ghost before: seq<bool>)
      returns (error: int)
      requires Marked() && n < |links| && n in locked && 1 <= |calls| <= EP_MAX_NESTS + 1 && Shrunk(links, seen)
      requires |before| == |visited| && !before[n] && visited == before[n := true] && Near(seen, root, n)
      requires parent == calls[|calls| - 1] && Walk(seen, root, n, |calls| - 1)
      requires parent < |links| && !visited[parent]
      requires forall k :: 0 <= k < |calls| - 1 ==> calls[k] < |links| && visited[calls[k]]
      requires forall v :: v in locked ==> v < |links| && visited[v]
      modifies this
      ensures Searched(root, seen)
      ensures error == 0 ==> visited[n] && !visited[parent] && ClosedSince(links, before, visited, tfiles, -1)
      ensures error != 0 ==> error == -1 && (Reaches(seen, root, parent) || Deep(seen, root, EP_MAX_NESTS + 1))
      ensures old(others) == [] ==>
        Matches(SearchItems(links, old(visited), links[n], |calls| - 1, parent), error, visited)
      decreases EP_MAX_NESTS + 1 - |calls|, 1, 2
    {
      error := 0;
      var i := 0;
      while i < |links[n]|
        invariant Searched(root, seen) && visited[n] && !visited[parent] && Shrunk(links, seen)
        invariant 0 <= i <= |links[n]| && error == 0
        invariant forall k :: 0 <= k < |calls| - 1 ==> calls[k] < |links| && visited[calls[k]]
        invariant CoveredUpTo(links[n], i, visited, tfiles)
        invariant ClosedSince(links, before, visited, tfiles, n)
        invariant old(others) == [] ==>
          SearchItems(links, old(visited), links[n], |calls| - 1, parent)
          == SearchItems(links, visited, links[n][i..], |calls| - 1, parent)
      {
        ghost var v0, t0, l0 := visited, tfiles, links;
        error := VisitItem(n, i, root, parent, seen);
        if error != 0 { return error; }
        ClosedShrinks(links, l0, before, v0, t0, n);
        ClosedCompose(links, before, v0, t0, visited, tfiles, n);
        CoveredGrows(links[n], i, v0, t0, visited, tfiles);
        i := i + 1;
      }
    }

    /** One item. */
    method VisitItem(n: nat, i: nat, ghost root: nat, ghost parent: nat, ghost seen: Links) returns (error: int)
      requires Marked() && n < |links| && n in locked && i < |links[n]| && 1 <= |calls| <= EP_MAX_NESTS + 1
      requires Shrunk(links, seen) && parent == calls[|calls| - 1] && Walk(seen, root, n, |calls| - 1)
      requires parent < |links| && !visited[parent]
      requires forall k :: 0 <= k < |calls| - 1 ==> calls[k] < |links| && visited[calls[k]]
      requires forall v :: v in locked ==> v < |links| && visited[v]
      modifies this
      ensures Searched(root, seen)
      ensures error == 0 ==>
        && !visited[parent] && Covered(visited, tfiles, links[n][i])
        && ClosedSince(links, old(visited), visited, tfiles, -1)
      ensures error != 0 ==> error == -1 && (Reaches(seen, root, parent) || Deep(seen, root, EP_MAX_NESTS + 1))
      ensures old(others) == [] ==>
        Matches(SearchItem(links, old(visited), links[n][i], |calls| - 1, parent), error, visited)
      decreases EP_MAX_NESTS + 1 - |calls|, 1, 1
    {
      error := 0;
      match links[n][i] {
        case Set(w) =>
          if !visited[w] {
            assert Set(w) in seen[n];
            assert Edge(seen, n, w);
            StepWalk(seen, root, n, w, |calls| - 1);
            error := CallNested(w, w, root, parent, seen);
          }
        case File(f) =>
          assert File(f) in seen[n];
          assert Reaches(seen, root, n) && Below(seen, root, f);
          if f !in tfiles { tfiles := [f] + tfiles; }
      }
    }

    /** ep_loop_check: all marks are cleared again, whatever the answer. */
    method LoopCheck(parent: nat, target: nat) returns (ret: int)
      requires Clean() && parent < |links| && target < |links| && parent != target
      modifies this
      ensures Clean() && Shrunk(links, old(links)) && (old(others) == [] ==> links == old(links) && others == [])
      ensures ret == 0 ==> !Reaches(links, target, parent)
      ensures ret == 0 ==> AllListed(links, target, tfiles)
      ensures ret == 0 ==> forall w: nat :: Reaches(links, target, w) ==> Near(old(links), target, w)
      ensures ret != 0 ==>
        ret == -1 && (Reaches(old(links), target, parent) || Deep(old(links), target, EP_MAX_NESTS + 1))
      ensures old(others) == [] ==> (ret == 0 <==> Search(links, Unmarked(|links|), target, 0, parent).ok)
      ensures old(others) == [] && OneLength(links, target) ==>
        (ret != 0 <==> Reaches(links, target, parent) || Deep(links, target, EP_MAX_NESTS + 1))
      ensures (forall f :: f in old(tfiles) ==> f in tfiles) && OnlyBelow(old(links), target, old(tfiles), tfiles)
    {
      assert visited == Unmarked(|links|);
      ghost var none := visited;
      ret := CallNested(parent, target, target, parent, links);
      if ret == 0 {
        SearchCovers(none, parent, target);
        SearchIsNear(links, old(links), none, visited, target);
        if old(others) == [] && OneLength(links, target) { NearIsNotDeep(links, target); }
      }
      ClearMarks();
    }

    /** The loop at the end of ep_loop_check. */
    method ClearMarks()
      requires Marked()
      modifies this`visited, this`visitedList
      ensures Marked() && visitedList == [] && forall v :: 0 <= v < |visited| ==> !visited[v]
    {
      while visitedList != []
        invariant Marked()
        decreases |visitedList|
      {
        var v := visitedList[0];
        visited := visited[v := false];
        visitedList := visitedList[1..];
      }
    }

    /**
      epoll_ctl(EPOLL_CTL_ADD): p starts to watch t unless that is refused. `present` is what ep_find
      answers and `pathsOk` what reverse_path_check answers after the insertion. Other tasks may delete
      items during the search, which ends in graph `seen`, and again before the insertion, into graph `base`.
    */
    method CtlAdd(p: nat, t: Target, present: bool, pathsOk: bool)
      returns (error: Errno, ghost seen: Links, ghost base: Links)
      requires Clean() && Acyclic(links) && p < |links| && (t.Set? ==> t.ep < |links|) && tfiles == []
      modifies this
      ensures Clean() && Acyclic(links) && tfiles == []
      ensures Shrunk(base, seen) && Shrunk(seen, old(links)) && (old(others) == [] ==> base == old(links))
      ensures error.Ok? ==> links == AddLink(base, p, t) && Legal(base, Add(p, t, seen))
      ensures !error.Ok? ==> links == base
      ensures error.Einval? <==> t == Set(p) || (!error.Eloop? && !present && !pathsOk)
      ensures error.Eloop? ==> t.Set? && (Reaches(old(links), t.ep, p) || Deep(old(links), t.ep, EP_MAX_NESTS + 1))
      ensures old(others) == [] && t.Set? && t.ep != p && Reaches(old(links), t.ep, p) ==> error.Eloop?
      ensures error.Eexist? <==> present && t != Set(p) && !error.Eloop?
    {
      seen, base := links, links;
      if t == Set(p) { return Einval, seen, base; }
      match t {
        case Set(w) =>
          var ret := LoopCheck(p, w);
          StaysAcyclic(links, old(links));
          seen, base := links, links;
          if ret != 0 { tfiles := []; return Eloop, seen, base; }
        case File(_) =>
      }
      Interfere();
      StaysAcyclic(links, seen);
      ShrunkIsWithin(links, seen);
      base := links;
      tfiles := [];
      if present { return Eexist, seen, base; }
      if !pathsOk { return Einval, seen, base; }
      LegalStep(links, Add(p, t, seen));
      links := AddLink(links, p, t);
      return Ok, seen, base;
    }

    /** EPOLL_CTL_DEL, and the removal of items when a watched file is closed. */
    method CtlDel(p: nat, k: nat)
      requires Clean() && Acyclic(links) && p < |links| && k < |links[p]|
      modifies this
      ensures Clean() && Acyclic(links) && links == DropLink(old(links), p, k) && tfiles == old(tfiles)
    {
      DropShrinks(links, p, k);
      StaysAcyclic(DropLink(links, p, k), links);
      links := DropLink(links, p, k);
    }

    /** After a successful search the marked sets are closed, hold the target and not the parent. */
    lemma SearchCovers(none: seq<bool>, parent: nat, target: nat)
      requires Marked() && none == Unmarked(|links|) && ClosedSince(links, none, visited, tfiles, -1)
      requires target < |links| && visited[target] && parent < |links| && !visited[parent]
      ensures !Reaches(links, target, parent) && AllListed(links, target, tfiles)
      ensures forall w: nat :: Reaches(links, target, w) ==> w < |links| && visited[w]
    {
      forall v: nat, w: nat | v < |links| && visited[v] && Edge(links, v, w) ensures w < |links| && visited[w] {
        var k :| 0 <= k < |links[v]| && links[v][k] == Set(w);
        assert Covered(visited, tfiles, links[v][k]);
      }
      forall w: nat | Reaches(links, target, w) ensures w < |links| && visited[w] {
        var n: nat :| Walk(links, target, w, n);
        ClosedContains(links, visited, target, w, n);
      }
      forall w: nat, f: nat | Reaches(links, target, w) && w < |links| && File(f) in links[w] ensures f in tfiles {
        var k :| 0 <= k < |links[w]| && links[w][k] == File(f);
        assert Covered(visited, tfiles, links[w][k]);
      }
    }
  }

  function Unmarked(n: nat): seq<bool> { seq(n, _ => false) }

  /** Every ordinary file below the target is on the check list. */
  ghost predicate AllListed(links: Links, target: nat, tfiles: seq<nat>) {
    forall w: nat, f: nat :: Reaches(links, target, w) && w < |links| && File(f) in links[w] ==> f in tfiles
  }

  /** No set is reached from a by chains of two lengths. */
  ghost predicate OneLength(links: Links, a: nat) {
    forall w: nat, m: nat, n: nat :: Walk(links, a, w, m) && Walk(links, a, w, n) ==> m == n
  }

  lemma SearchIsNear(links: Links, seen: Links, none: seq<bool>, visited: seq<bool>, target: nat)
    requires |none| == |visited| && (forall v :: 0 <= v < |none| ==> !none[v])
    requires NearSince(seen, target, none, visited)
    requires forall w: nat :: Reaches(links, target, w) ==> w < |visited| && visited[w]
    ensures forall w: nat :: Reaches(links, target, w) ==> Near(seen, target, w)
  {
  }

  lemma NearIsNotDeep(links: Links, a: nat)
    requires OneLength(links, a) && forall w: nat :: Reaches(links, a, w) ==> Near(links, a, w)
    ensures !Deep(links, a, EP_MAX_NESTS + 1)
  {
    if Deep(links, a, EP_MAX_NESTS + 1) {
      var b: nat :| Walk(links, a, b, EP_MAX_NESTS + 1);
      assert Reaches(links, a, b);
    }
  }

  lemma StaysAcyclic(less: Links, more: Links)
    requires Shrunk(less, more) && Acyclic(more)
    ensures Acyclic(less)
  {
    ShrunkIsWithin(less, more);
    SubgraphAcyclic(less, more);
  }

  lemma StepWalk(links: Links, a: nat, b: nat, c: nat, n: nat)
    requires Walk(links, a, b, n) && Edge(links, b, c)
    ensures Walk(links, a, c, n + 1)
  {
    assert Walk(links, c, c, 0);
    assert Walk(links, b, c, 1);
    WalkJoin(links, a, b, c, n, 1);
  }

  // ---- what the depth limit does not promise ---------------------------------------------------

  /** Sets 0 -> 1 -> 2 and a chain 2 -> 3 -> 4 -> 5, with 0 also watching 2 directly; 6 watches nothing. */
  predicate Detour(links: Links, first: nat, second: nat) {
    && |links| == 7 && links[0] == [Set(first), Set(second)] && links[1] == [Set(2)] && links[2] == [Set(3)]
    && links[3] == [Set(4)] && links[4] == [Set(5)] && links[5] == [] && links[6] == []
  }

  /** The marks of the first `n` of the chain's sets, with or without set 1. */
  function Marks(one: bool, chain: nat): seq<bool> {
    [true, one, chain >= 1, chain >= 2, chain >= 3, chain >= 4, false]
  }

  /** A set with one item that is not marked. */
  lemma SearchOnly(links: Links, visited: seq<bool>, w: nat, level: nat, parent: nat)
    requires level <= EP_MAX_NESTS && w < |visited| && !visited[w]
    ensures SearchItems(links, visited, [Set(w)], level, parent) == Search(links, visited, w, level + 1, parent)
  {
    var r := SearchItem(links, visited, Set(w), level, parent);
    assert [Set(w)][1..] == [];
  }

  /** Searching the chain below set v = 2 + k, the sets before it marked. */
  lemma ChainSearch(links: Links, one: bool, k: nat, level: nat)
    requires k < 4 && level <= EP_MAX_NESTS && (Detour(links, 2, 1) || Detour(links, 1, 2))
    ensures level + (3 - k) <= EP_MAX_NESTS ==>
      Search(links, Marks(one, k), 2 + k, level, 6) == Found(true, Marks(one, 4))
    ensures level + (3 - k) > EP_MAX_NESTS ==> !Search(links, Marks(one, k), 2 + k, level, 6).ok
    decreases 4 - k
  {
    assert Marks(one, k)[2 + k := true] == Marks(one, k + 1);
    if k == 3 {
      assert links[5] == [];
    } else {
      assert links[2 + k] == [Set(3 + k)];
      SearchOnly(links, Marks(one, k + 1), 3 + k, level, 6);
      if level < EP_MAX_NESTS { ChainSearch(links, one, k + 1, level + 1); }
    }
  }

  /** A set with two items, the first not marked. */
  lemma SearchTwo(links: Links, visited: seq<bool>, w: nat, x: nat, level: nat, parent: nat)
    requires level <= EP_MAX_NESTS && w < |visited| && !visited[w]
    ensures var r := Search(links, visited, w, level + 1, parent);
            SearchItems(links, visited, [Set(w), Set(x)], level, parent)
            == if r.ok then SearchItems(links, r.visited, [Set(x)], level, parent) else r
  {
    var r := SearchItem(links, visited, Set(w), level, parent);
    assert [Set(w), Set(x)][1..] == [Set(x)];
  }

  /** A set whose only item is marked already. */
  lemma SearchMarked(links: Links, visited: seq<bool>, n: nat, w: nat, level: nat, parent: nat)
    requires level <= EP_MAX_NESTS && n < |links| && n < |visited| && n != parent && links[n] == [Set(w)]
    requires w < |visited| && (visited[w] || w == n)
    ensures Search(links, visited, n, level, parent) == Found(true, visited[n := true])
  {
    var r := SearchItem(links, visited[n := true], Set(w), level, parent);
    assert [Set(w)][1..] == [];
    assert SearchItems(links, visited[n := true], links[n], level, parent) == Found(true, visited[n := true]);
  }

  lemma DirectFirst(links: Links)
    requires Detour(links, 2, 1)
    ensures Search(links, Unmarked(|links|), 0, 0, 6).ok
  {
    assert Unmarked(|links|)[0 := true] == Marks(false, 0);
    assert links[0] == [Set(2), Set(1)] && links[1] == [Set(2)];
    SearchTwo(links, Marks(false, 0), 2, 1, 0, 6);
    ChainSearch(links, false, 0, 1);
    SearchOnly(links, Marks(false, 4), 1, 0, 6);
    SearchMarked(links, Marks(false, 4), 1, 2, 1, 6);
  }

  lemma DetourFirst(links: Links)
    requires Detour(links, 1, 2)
    ensures !Search(links, Unmarked(|links|), 0, 0, 6).ok
  {
    assert Unmarked(|links|)[0 := true] == Marks(false, 0);
    assert links[0] == [Set(1), Set(2)] && links[1] == [Set(2)];
    SearchTwo(links, Marks(false, 0), 1, 2, 0, 6);
    assert Marks(false, 0)[1 := true] == Marks(true, 0);
    SearchOnly(links, Marks(true, 0), 2, 1, 6);
    ChainSearch(links, true, 0, 2);
  }

  lemma DetourIsDeep(links: Links)
    requires Detour(links, 2, 1) || Detour(links, 1, 2)
    ensures Deep(links, 0, EP_MAX_NESTS + 1)
  {
    assert Walk(links, 5, 5, 0);
    assert Edge(links, 4, 5) && Walk(links, 4, 5, 1);
    assert Edge(links, 3, 4) && Walk(links, 3, 5, 2);
    assert Edge(links, 2, 3) && Walk(links, 2, 5, 3);
    assert Edge(links, 1, 2) && Walk(links, 1, 5, 4);
    assert Edge(links, 0, 1) && Walk(links, 0, 5, 5);
  }

  /**
    A chain over the depth limit is not always refused: with the same links, the answer depends on the order of
    one set's items, since a set already marked is not searched again at its greater depth.
  */
  method DepthDependsOnOrder(direct: Links, detour: Links) returns (accepted: int, refused: int)
    requires Detour(direct, 2, 1) && Detour(detour, 1, 2)
    ensures accepted == 0 && Deep(direct, 0, EP_MAX_NESTS + 1)
    ensures refused == -1 && Deep(detour, 0, EP_MAX_NESTS + 1)
  {
    DirectAnswer(direct);
    accepted := CheckIn(direct, 6, 0);
    DetourAnswer(detour);
    refused := CheckIn(detour, 6, 0);
  }

  ghost predicate Answers(links: Links, ok: bool) {
    && |links| == 7 && WellFormed(links) && Deep(links, 0, EP_MAX_NESTS + 1)
    && Search(links, Unmarked(|links|), 0, 0, 6).ok == ok
  }

  lemma DirectAnswer(links: Links)
    requires Detour(links, 2, 1)
    ensures Answers(links, true)
  {
    DetourIsDeep(links);
    DirectFirst(links);
  }

  lemma DetourAnswer(links: Links)
    requires Detour(links, 1, 2)
    ensures Answers(links, false)
  {
    DetourIsDeep(links);
    DetourFirst(links);
  }

  /** The check run in a given graph by itself. */
  method CheckIn(links: Links, parent: nat, target: nat) returns (ret: int)
    requires WellFormed(links) && parent < |links| && target < |links| && parent != target
    ensures ret == if Search(links, Unmarked(|links|), target, 0, parent).ok then 0 else -1
  {
    var nest := new Nesting(|links|);
    nest.links := links;
    ret := nest.LoopCheck(parent, target);
  }
}
