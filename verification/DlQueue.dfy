/**
  The earliest-deadline-first queue (kernel/sched/deadline.c): a search tree ordered by a wrapping
  comparison, with a cached leftmost node and a cached earliest deadline.
*/
module DlQueue {
  import opened DlTime

  /** A queued entity; `at` numbers the enqueues, so that arrival order can be spoken of. */
  datatype Entity = Entity(id: nat, deadline: Stamp, at: nat)
  datatype Tree = Leaf | Node(left: Tree, e: Entity, right: Tree)
  datatype Maybe = None | Some(e: Entity)

  function InOrder(t: Tree): seq<Entity> {
    match t case Leaf => [] case Node(l, e, r) => InOrder(l) + [e] + InOrder(r)
  }

  function Deadlines(q: seq<Entity>): seq<Stamp> { seq(|q|, i requires 0 <= i < |q| => q[i].deadline) }

  ghost predicate Close(q: seq<Entity>) { InWindow(Deadlines(q)) }

  /** a is served before b: an earlier deadline, or the same one and an earlier arrival. */
  predicate Precedes(a: Entity, b: Entity) {
    Before(a.deadline, b.deadline) || (a.deadline == b.deadline && a.at < b.at)
  }

  predicate Ordered(q: seq<Entity>) { forall i, j :: 0 <= i < j < |q| ==> Precedes(q[i], q[j]) }

  predicate Distinct(q: seq<Entity>) { forall i, j :: 0 <= i < j < |q| ==> q[i].id != q[j].id }

  predicate Arrived(q: seq<Entity>, n: nat) { forall i :: 0 <= i < |q| ==> q[i].at < n }

  predicate NonZero(q: seq<Entity>) { forall i :: 0 <= i < |q| ==> q[i].deadline != 0 }

  // ---- descent ------------------------------------------------------------------------------

  /** One link followed on the way down: to the left of e (which keeps `other` on its right), or to the right. */
  datatype Turn = Turn(toLeft: bool, e: Entity, other: Tree)

  /** The tree whose subtree at the end of the path is t. */
  function Plug(path: seq<Turn>, t: Tree): Tree
    decreases |path|
  {
    if path == [] then t
    else
      var u := path[|path| - 1];
      Plug(path[..|path| - 1], if u.toLeft then Node(t, u.e, u.other) else Node(u.other, u.e, t))
  }

  /** What lies before and after the end of the path, in order. */
  function Earlier(path: seq<Turn>): seq<Entity>
    decreases |path|
  {
    if path == [] then []
    else
      var u := path[|path| - 1];
      Earlier(path[..|path| - 1]) + if u.toLeft then [] else InOrder(u.other) + [u.e]
  }

  function Later(path: seq<Turn>): seq<Entity>
    decreases |path|
  {
    if path == [] then []
    else
      var u := path[|path| - 1];
      (if u.toLeft then [u.e] + InOrder(u.other) else []) + Later(path[..|path| - 1])
  }

  lemma {:induction false} PlugInOrder(path: seq<Turn>, t: Tree)
    ensures InOrder(Plug(path, t)) == Earlier(path) + InOrder(t) + Later(path)
    decreases |path|
  {
    if path != [] {
      var u, p := path[|path| - 1], path[..|path| - 1];
      if u.toLeft {
        PlugInOrder(p, Node(t, u.e, u.other));
        Regroup(Earlier(p), [], InOrder(t), [u.e] + InOrder(u.other), Later(p));
        assert InOrder(Node(t, u.e, u.other)) == [] + InOrder(t) + ([u.e] + InOrder(u.other));
      } else {
        PlugInOrder(p, Node(u.other, u.e, t));
        Regroup(Earlier(p), InOrder(u.other) + [u.e], InOrder(t), [], Later(p));
        assert InOrder(Node(u.other, u.e, t)) == (InOrder(u.other) + [u.e]) + InOrder(t) + [];
      }
    }
  }

  lemma Regroup(a: seq<Entity>, b: seq<Entity>, c: seq<Entity>, d: seq<Entity>, e: seq<Entity>)
    ensures a + (b + c + d) + e == (a + b) + c + (d + e)
  {
  }

  /** Taking one more turn. */
  lemma Turned(path: seq<Turn>, n: Tree, toLeft: bool)
    requires n.Node?
    ensures var p := path + [Turn(toLeft, n.e, if toLeft then n.right else n.left)];
            var t := if toLeft then n.left else n.right;
            && Plug(p, t) == Plug(path, n)
            && Earlier(p) == Earlier(path) + (if toLeft then [] else InOrder(n.left) + [n.e])
            && Later(p) == (if toLeft then [n.e] + InOrder(n.right) else []) + Later(path)
  {
    var p := path + [Turn(toLeft, n.e, if toLeft then n.right else n.left)];
    assert p[..|p| - 1] == path;
  }

  /** e belongs after everything in q / before everything in q. */
  predicate After(q: seq<Entity>, d: Stamp) { forall i :: 0 <= i < |q| ==> !Before(d, q[i].deadline) }
  predicate Ahead(q: seq<Entity>, d: Stamp) { forall i :: 0 <= i < |q| ==> Before(d, q[i].deadline) }

  /** In an ordered queue whose deadlines lie close to d, the place of d splits it in two. */
  lemma SplitsAt(q: seq<Entity>, k: nat, d: Stamp, w: Stamp)
    requires Ordered(q) && k < |q| && Window(w, Deadlines(q)) && (d - w) % U64 < HALF
    ensures Before(d, q[k].deadline) ==> Ahead(q[k..], d)
    ensures !Before(d, q[k].deadline) ==> After(q[..k + 1], d)
  {
    forall i | 0 <= i < |q|
      ensures k <= i && Before(d, q[k].deadline) ==> Before(d, q[i].deadline)
      ensures i <= k && !Before(d, q[k].deadline) ==> !Before(d, q[i].deadline)
    {
      assert Deadlines(q)[i] == q[i].deadline && Deadlines(q)[k] == q[k].deadline;
      Transitive(w, d, q[k].deadline, q[i].deadline);
      Transitive(w, q[i].deadline, d, q[k].deadline);
      if k < i { assert Precedes(q[k], q[i]); } else if i < k { assert Precedes(q[i], q[k]); }
    }
  }

  /** Putting e between the entities not after it and those after it keeps the order, ties by arrival. */
  lemma InsertKeepsOrder(a: seq<Entity>, e: Entity, b: seq<Entity>, w: Stamp)
    requires Ordered(a + b) && After(a, e.deadline) && Ahead(b, e.deadline) && Arrived(a + b, e.at)
    requires Window(w, Deadlines(a + b)) && (e.deadline - w) % U64 < HALF
    ensures Ordered(a + [e] + b)
  {
    var q := a + [e] + b;
    var ab := a + b;
    forall i, j | 0 <= i < j < |q| ensures Precedes(q[i], q[j]) {
      if j < |a| { assert Precedes(ab[i], ab[j]); }
      else if i > |a| { assert Precedes(ab[i - 1], ab[j - 1]); }
      else if j > |a| && i < |a| { assert Precedes(ab[i], ab[j - 1]); }
      else if j == |a| {
        assert ab[i] == a[i] && Deadlines(ab)[i] == a[i].deadline;
        Transitive(w, a[i].deadline, e.deadline, a[i].deadline);
      } else { assert q[j] == b[j - |a| - 1]; }
    }
  }

  // ---- the tree as rb_erase, rb_next and the rotations see it ----------------------------------

  function First(t: Tree): Entity
    requires t.Node?
  {
    if t.left.Leaf? then t.e else First(t.left)
  }

  /** rb_next of the leftmost node. */
  function Second(t: Tree): Maybe
    requires t.Node?
  {
    if t.left.Leaf? then (if t.right.Leaf? then None else Some(First(t.right)))
    else match Second(t.left) case None => Some(t.e) case Some(x) => Some(x)
  }

  lemma {:induction false} FirstIsFirst(t: Tree)
    requires t.Node?
    ensures InOrder(t) != [] && InOrder(t)[0] == First(t)
  {
    if t.left.Node? { FirstIsFirst(t.left); }
  }

  lemma {:induction false} SecondIsSecond(t: Tree)
    requires t.Node?
    ensures InOrder(t) != []
    ensures Second(t) == if |InOrder(t)| == 1 then None else Some(InOrder(t)[1])
  {
    if t.left.Node? {
      SecondIsSecond(t.left);
    } else if t.right.Node? {
      FirstIsFirst(t.right);
    }
  }

  function WithoutFirst(t: Tree): Tree
    requires t.Node?
  {
    if t.left.Leaf? then t.right else Node(WithoutFirst(t.left), t.e, t.right)
  }

  /** Two subtrees of an erased node, joined through the successor. */
  function Join(l: Tree, r: Tree): Tree {
    if l.Leaf? then r else if r.Leaf? then l else Node(l, First(r), WithoutFirst(r))
  }

  function Erase(t: Tree, id: nat): Tree {
    match t
    case Leaf => Leaf
    case Node(l, e, r) => if e.id == id then Join(l, r) else Node(Erase(l, id), e, Erase(r, id))
  }

  lemma {:induction false} WithoutFirstInOrder(t: Tree)
    requires t.Node?
    ensures InOrder(t) == [First(t)] + InOrder(WithoutFirst(t))
  {
    if t.left.Node? { WithoutFirstInOrder(t.left); }
  }

  /** The queue without the entity of this id. */
  function WithoutId(q: seq<Entity>, id: nat): seq<Entity> {
    if q == [] then [] else (if q[0].id == id then [] else [q[0]]) + WithoutId(q[1..], id)
  }

  lemma {:induction false} WithoutConcat(a: seq<Entity>, b: seq<Entity>, id: nat)
    ensures WithoutId(a + b, id) == WithoutId(a, id) + WithoutId(b, id)
  {
    if a == [] { assert a + b == b; }
    else {
      assert (a + b)[1..] == a[1..] + b;
      WithoutConcat(a[1..], b, id);
    }
  }

  predicate Has(q: seq<Entity>, id: nat) { exists i :: 0 <= i < |q| && q[i].id == id }

  lemma {:induction false} WithoutAbsent(q: seq<Entity>, id: nat)
    requires !Has(q, id)
    ensures WithoutId(q, id) == q
  {
    if q != [] {
      assert q[0].id != id;
      forall i | 0 <= i < |q[1..]| ensures q[1..][i].id != id { assert q[i + 1].id != id; }
      WithoutAbsent(q[1..], id);
    }
  }

  lemma WithoutNode(a: seq<Entity>, e: Entity, b: seq<Entity>, id: nat)
    ensures WithoutId(a + [e] + b, id) == WithoutId(a, id) + (if e.id == id then [] else [e]) + WithoutId(b, id)
  {
    WithoutConcat(a + [e], b, id);
    WithoutConcat(a, [e], id);
    assert WithoutId([e], id) == if e.id == id then [] else [e];
  }

  lemma JoinInOrder(l: Tree, r: Tree)
    ensures InOrder(Join(l, r)) == InOrder(l) + InOrder(r)
  {
    if r.Node? { WithoutFirstInOrder(r); }
  }

  lemma CutMiddle(a: seq<Entity>, e: Entity, b: seq<Entity>)
    requires Distinct(a + [e] + b)
    ensures WithoutId(a + [e] + b, e.id) == a + b
  {
    DistinctParts(a, e, b);
    assert a + [e] + b == a + ([e] + b);
    WithoutConcat(a, [e] + b, e.id);
    WithoutAbsent(a, e.id);
    WithoutAbsent(b, e.id);
    assert ([e] + b)[1..] == b;
    assert WithoutId([e] + b, e.id) == b;
  }

  lemma {:induction false} EraseInOrder(t: Tree, id: nat)
    requires Distinct(InOrder(t))
    ensures InOrder(Erase(t, id)) == WithoutId(InOrder(t), id)
  {
    if t.Node? {
      DistinctParts(InOrder(t.left), t.e, InOrder(t.right));
      WithoutNode(InOrder(t.left), t.e, InOrder(t.right), id);
      if t.e.id == id {
        CutMiddle(InOrder(t.left), t.e, InOrder(t.right));
        JoinInOrder(t.left, t.right);
      } else {
        EraseInOrder(t.left, id);
        EraseInOrder(t.right, id);
      }
    }
  }

  lemma DistinctParts(a: seq<Entity>, e: Entity, b: seq<Entity>)
    requires Distinct(a + [e] + b)
    ensures Distinct(a) && Distinct(b) && !Has(a, e.id) && !Has(b, e.id)
  {
    var q := a + [e] + b;
    assert q[|a|] == e;
    forall i | 0 <= i < |a| ensures a[i].id != e.id { assert q[i] == a[i]; }
    forall i | 0 <= i < |b| ensures b[i].id != e.id { assert q[|a| + 1 + i] == b[i]; }
    forall i, j | 0 <= i < j < |a| ensures a[i].id != a[j].id { assert q[i] == a[i] && q[j] == a[j]; }
    forall i, j | 0 <= i < j < |b| ensures b[i].id != b[j].id {
      assert q[|a| + 1 + i] == b[i] && q[|a| + 1 + j] == b[j];
    }
  }

  /** With distinct ids, leaving an entity out is cutting it from the sequence. */
  lemma {:induction false} WithoutCuts(q: seq<Entity>, k: nat)
    requires Distinct(q) && k < |q|
    ensures WithoutId(q, q[k].id) == q[..k] + q[k + 1..]
  {
    var id := q[k].id;
    if k == 0 {
      assert q == [] + [q[0]] + q[1..];
      DistinctParts([], q[0], q[1..]);
      WithoutAbsent(q[1..], id);
    } else {
      assert q == [] + [q[0]] + q[1..];
      DistinctParts([], q[0], q[1..]);
      assert q[1..][k - 1] == q[k];
      WithoutCuts(q[1..], k - 1);
      assert q[1..][..k - 1] == q[1..k];
    }
  }

  /** A rotation at the node reached by a sequence of left (true) and right turns; no-op where it does not apply. */
  function Rotate(t: Tree, at: seq<bool>, right: bool): Tree
    decreases |at|
  {
    match t
    case Leaf => Leaf
    case Node(l, e, r) =>
      if at != [] then
        if at[0] then Node(Rotate(l, at[1..], right), e, r) else Node(l, e, Rotate(r, at[1..], right))
      else if right && l.Node? then Node(l.left, l.e, Node(l.right, e, r))
      else if !right && r.Node? then Node(Node(l, e, r.left), r.e, r.right)
      else t
  }

  lemma {:induction false} RotateInOrder(t: Tree, at: seq<bool>, right: bool)
    ensures InOrder(Rotate(t, at, right)) == InOrder(t)
    decreases |at|
  {
    match t {
      case Leaf =>
      case Node(l, e, r) =>
        if at != [] {
          RotateInOrder(l, at[1..], right);
          RotateInOrder(r, at[1..], right);
        } else if right && l.Node? {
          assert InOrder(t) == InOrder(l.left) + [l.e] + (InOrder(l.right) + [e] + InOrder(r));
        } else if !right && r.Node? {
          assert InOrder(t) == (InOrder(l) + [e] + InOrder(r.left)) + [r.e] + InOrder(r.right);
        }
    }
  }

  /** A rotation that does something is undone by the opposite one at the same place. */
  lemma {:induction false} RotateBack(t: Tree, at: seq<bool>, right: bool)
    ensures Rotate(t, at, right) != t ==> Rotate(Rotate(t, at, right), at, !right) == t
    ensures t.Node? && at == [] ==> (Rotate(t, at, right) != t <==> (if right then t.left else t.right).Node?)
    decreases |at|
  {
    if t.Node? && at != [] {
      RotateBack(t.left, at[1..], right);
      RotateBack(t.right, at[1..], right);
    } else if t.Node? && (if right then t.left else t.right).Node? {
      RotateMoves(t, right);
    }
  }

  /** The rotated subtree has another number of nodes on its left. */
  lemma RotateMoves(t: Tree, right: bool)
    requires t.Node? && (if right then t.left else t.right).Node?
    ensures Rotate(t, [], right).Node? && |InOrder(Rotate(t, [], right).left)| != |InOrder(t.left)|
  {
  }

  // ---- the cached earliest deadline ----------------------------------------------------------

  /** inc_dl_deadline: zero stands for "none". */
  function IncEarliest(curr: Stamp, d: Stamp): Stamp { if curr == 0 || Before(d, curr) then d else curr }

  // ---- the queue ----------------------------------------------------------------------------

  /** e went in behind everything not after it and ahead of everything after it. */
  predicate InsertedAt(was: seq<Entity>, q: seq<Entity>, e: Entity, k: nat) {
    k <= |was| && q == was[..k] + [e] + was[k..] && After(was[..k], e.deadline) && Ahead(was[k..], e.deadline)
  }

  predicate CutAt(was: seq<Entity>, q: seq<Entity>, id: nat, k: nat) {
    k < |was| && was[k].id == id && q == was[..k] + was[k + 1..]
  }

  /** The descent so far: the tree is path plus link, and the place of d is inside link. */
  predicate Descended(root: Tree, path: seq<Turn>, link: Tree, d: Stamp) {
    Plug(path, link) == root && After(Earlier(path), d) && Ahead(Later(path), d)
  }

  lemma DescendStep(root: Tree, path: seq<Turn>, link: Tree, d: Stamp, w: Stamp)
    requires Ordered(InOrder(root)) && Window(w, Deadlines(InOrder(root))) && (d - w) % U64 < HALF
    requires Descended(root, path, link, d) && link.Node?
    ensures var toLeft := Before(d, link.e.deadline);
            var p := path + [Turn(toLeft, link.e, if toLeft then link.right else link.left)];
            && Descended(root, p, if toLeft then link.left else link.right, d)
            && (Earlier(p) == [] <==> toLeft && Earlier(path) == [])
  {
    PlugInOrder(path, link);
    SplitParts(InOrder(root), Earlier(path), InOrder(link.left), link.e, InOrder(link.right), Later(path), d, w);
    Turned(path, link, Before(d, link.e.deadline));
  }

  lemma SplitParts(q: seq<Entity>, a: seq<Entity>, l: seq<Entity>, e: Entity, r: seq<Entity>, b: seq<Entity>,
                   d: Stamp, w: Stamp)
    requires q == a + (l + [e] + r) + b
    requires Ordered(q) && Window(w, Deadlines(q)) && (d - w) % U64 < HALF
    ensures Before(d, e.deadline) ==> Ahead([e] + r + b, d)
    ensures !Before(d, e.deadline) ==> After(a + (l + [e]), d)
  {
    var k := |a| + |l|;
    assert q[k] == e;
    assert q[k..] == [e] + r + b;
    assert q[..k + 1] == a + (l + [e]);
    SplitsAt(q, k, d, w);
  }

  /**
    The queue is in service order, the leftmost cache is its first element, and the cached deadline is that
    element's (as long as no deadline is the number zero) or zero when nothing is queued.
  */
  ghost predicate Sound(q: seq<Entity>, leftmost: Maybe, earliest: Stamp, running: int, arrivals: nat) {
    && Ordered(q) && Distinct(q) && Arrived(q, arrivals) && running == |q|
    && leftmost == (if q == [] then None else Some(q[0]))
    && (NonZero(q) ==> earliest == if q == [] then 0 else q[0].deadline)
  }

  class DlRq {
    var root: Tree
    var leftmost: Maybe
    var earliest: Stamp
    var running: nat
    /** Stamps arrivals; the code has no such counter. */
    var arrivals: nat

    function Queue(): seq<Entity>
      reads this
    {
      InOrder(root)
    }

    ghost predicate Valid()
      reads this
    {
      Sound(Queue(), leftmost, earliest, running, arrivals)
    }

    constructor ()
      ensures Valid() && Queue() == [] && arrivals == 0
    {
      root, leftmost, earliest, running, arrivals := Leaf, None, 0, 0, 0;
    }

    /** __enqueue_dl_entity, before rebalancing. */
    method Enqueue(id: nat, deadline: Stamp)
      requires Valid() && !Has(Queue(), id)
      requires Close(Queue() + [Entity(id, deadline, arrivals)])
      modifies this
      ensures Valid() && arrivals == old(arrivals) + 1
      ensures exists k :: InsertedAt(old(Queue()), Queue(), Entity(id, deadline, old(arrivals)), k)
      ensures old(Queue()) == [] ==> earliest == deadline
      ensures old(Queue()) != [] && old(earliest) == old(Queue())[0].deadline ==>
        (earliest == Queue()[0].deadline <==> old(earliest) != 0 || deadline == 0 || Before(deadline, 0))
    {
      var e := Entity(id, deadline, arrivals);
      ghost var q := Queue();
      ghost var w: Stamp :| Window(w, Deadlines(q + [e]));
      CloseParts(q, e, w);
      var isLeftmost, a, b := Link(e, w);
      Inserted(q, a, e, b, w, leftmost, earliest);
      if isLeftmost { leftmost := Some(e); }
      running := running + 1;
      arrivals := arrivals + 1;
      earliest := IncEarliest(earliest, deadline);
      assert InsertedAt(q, Queue(), e, |a|);
    }

    /** Find the place and link the new node there, between a and b. */
    method Link(e: Entity, ghost w: Stamp) returns (isLeftmost: bool, ghost a: seq<Entity>, ghost b: seq<Entity>)
      requires Ordered(Queue()) && Window(w, Deadlines(Queue())) && (e.deadline - w) % U64 < HALF
      modifies this`root
      ensures old(Queue()) == a + b && Queue() == a + [e] + b && (isLeftmost <==> a == [])
      ensures After(a, e.deadline) && Ahead(b, e.deadline)
    {
      var path;
      path, isLeftmost := Descend(e, w);
      a, b := Earlier(path), Later(path);
      PlugInOrder(path, Node(Leaf, e, Leaf));
      root := Plug(path, Node(Leaf, e, Leaf));
    }

    /** The descent: left where the new deadline is before the entry's, otherwise right (and then not leftmost). */
    method Descend(e: Entity, ghost w: Stamp) returns (path: seq<Turn>, isLeftmost: bool)
      requires Ordered(Queue()) && Window(w, Deadlines(Queue())) && (e.deadline - w) % U64 < HALF
      ensures Earlier(path) + Later(path) == Queue() && Plug(path, Leaf) == root
      ensures After(Earlier(path), e.deadline) && Ahead(Later(path), e.deadline)
      ensures isLeftmost <==> Earlier(path) == []
    {
      path, isLeftmost := [], true;
      var link := root;
      while link.Node?
        invariant Descended(root, path, link, e.deadline)
        invariant isLeftmost <==> Earlier(path) == []
        decreases link
      {
        var toLeft := Before(e.deadline, link.e.deadline);
        DescendStep(root, path, link, e.deadline, w);
        path := path + [Turn(toLeft, link.e, if toLeft then link.right else link.left)];
        link := if toLeft then link.left else link.right;
        if !toLeft { isLeftmost := false; }
      }
      PlugInOrder(path, Leaf);
    }

    /** __dequeue_dl_entity, before rebalancing; an entity not queued is left alone. */
    method Dequeue(id: nat)
      requires Valid()
      modifies this
      ensures Valid() && Queue() == WithoutId(old(Queue()), id) && arrivals == old(arrivals)
      ensures Has(old(Queue()), id) ==> exists k :: CutAt(old(Queue()), Queue(), id, k)
      ensures !Has(old(Queue()), id) ==> Queue() == old(Queue())
    {
      var q := Queue();
      if !(exists i :: 0 <= i < |q| && q[i].id == id) {
        WithoutAbsent(q, id);
        return;
      }
      ghost var k :| 0 <= k < |q| && q[k].id == id;
      Erased(root, k, leftmost, earliest, arrivals);
      if leftmost.Some? && leftmost.e.id == id { leftmost := Second(root); }
      root := Erase(root, id);
      running := running - 1;
      if running == 0 { earliest := 0; } else { earliest := leftmost.e.deadline; }
      assert CutAt(q, Queue(), id, k);
    }

    /** Rebalancing only ever rotates, and rotations change nothing that is visible. */
    method Rebalance(at: seq<bool>, right: bool)
      requires Valid()
      modifies this`root
      ensures Valid() && Queue() == old(Queue())
    {
      RotateInOrder(root, at, right);
      root := Rotate(root, at, right);
    }

    /** pick_next_dl_entity: no queued entity has an earlier deadline, nor the same one and an earlier arrival. */
    method Pick() returns (next: Maybe)
      requires Valid()
      ensures next.None? <==> Queue() == []
      ensures next.Some? ==> next.e in Queue() && forall x :: x in Queue() ==> x == next.e || Precedes(next.e, x)
      ensures next.Some? && NonZero(Queue()) ==> earliest == next.e.deadline
    {
      next := leftmost;
    }
  }

  /**
    A queue on which it goes wrong: a deadline whose stamp is zero is queued, a later one arrives, and the cached
    earliest deadline is no longer that of the first entity.
  */
  method ZeroDeadlineBreaksCache() returns (rq: DlRq)
    ensures rq.Valid() && |rq.Queue()| == 2 && rq.Queue()[0].deadline == 0 && rq.earliest != 0
  {
    rq := new DlRq();
    ghost var e0, e1 := Entity(0, 0, 0), Entity(1, 5, 1);
    SmallDeadlines([], e0);
    rq.Enqueue(0, 0);
    OnlyPlace(rq.Queue(), e0);
    SmallDeadlines([e0], e1);
    assert !Has([e0], 1);
    rq.Enqueue(1, 5);
    SecondPlace(rq.Queue(), e0, e1);
  }

  /** Deadlines below 2^63 lie in one window. */
  lemma SmallDeadlines(q: seq<Entity>, e: Entity)
    requires forall x :: x in q + [e] ==> x.deadline < HALF
    ensures Close(q + [e])
  {
    assert Window(0, Deadlines(q + [e])) by {
      forall i | 0 <= i < |q + [e]| ensures (Deadlines(q + [e])[i] - 0) % U64 < HALF { assert (q + [e])[i] in q + [e]; }
    }
  }

  lemma OnlyPlace(q: seq<Entity>, e: Entity)
    requires exists k :: InsertedAt([], q, e, k)
    ensures q == [e]
  {
  }

  lemma SecondPlace(q: seq<Entity>, e0: Entity, e1: Entity)
    requires (exists k :: InsertedAt([e0], q, e1, k)) && !Before(e1.deadline, e0.deadline)
    ensures q == [e0, e1]
  {
    var k: nat :| InsertedAt([e0], q, e1, k);
    assert [e0][k..] == if k == 0 then [e0] else [];
  }

  lemma Inserted(q: seq<Entity>, a: seq<Entity>, e: Entity, b: seq<Entity>, w: Stamp, leftmost: Maybe, curr: Stamp)
    requires q == a + b && Sound(q, leftmost, curr, |q|, e.at) && !Has(q, e.id)
    requires Window(w, Deadlines(q)) && (e.deadline - w) % U64 < HALF && After(a, e.deadline) && Ahead(b, e.deadline)
    ensures var q' := a + [e] + b;
            && Sound(q', if a == [] then Some(e) else leftmost, IncEarliest(curr, e.deadline), |q| + 1, e.at + 1)
            && InsertedAt(q, q', e, |a|)
            && (q != [] && curr == q[0].deadline ==> CacheRight(curr, e.deadline, q'[0].deadline))
  {
    InsertKeepsOrder(a, e, b, w);
    InsertKeepsRest(a, e, b);
    EarliestAfterInsert(a, e, b, curr);
    FirstAfterInsert(a, e, b);
    assert q[..|a|] == a && q[|a|..] == b;
    if q != [] && curr == q[0].deadline { CacheAfterInsert(a, e, b); }
  }

  lemma FirstAfterInsert(a: seq<Entity>, e: Entity, b: seq<Entity>)
    ensures (a + [e] + b)[0] == if a == [] then e else (a + b)[0]
    ensures |a + [e] + b| == |a + b| + 1
  {
  }

  lemma CacheAfterInsert(a: seq<Entity>, e: Entity, b: seq<Entity>)
    requires a + b != [] && After(a, e.deadline) && Ahead(b, e.deadline)
    ensures CacheRight((a + b)[0].deadline, e.deadline, (a + [e] + b)[0].deadline)
  {
    FirstAfterInsert(a, e, b);
    if a == [] { assert (a + b)[0] == b[0]; } else { assert (a + b)[0] == a[0]; }
  }

  /** The cache, right before, is right after the insertion unless it holds a zero that stands for a deadline. */
  predicate CacheRight(curr: Stamp, d: Stamp, first: Stamp) {
    IncEarliest(curr, d) == first <==> curr != 0 || d == 0 || Before(d, 0)
  }

  lemma CloseParts(q: seq<Entity>, e: Entity, w: Stamp)
    requires Window(w, Deadlines(q + [e]))
    ensures Window(w, Deadlines(q)) && (e.deadline - w) % U64 < HALF
  {
    var d := Deadlines(q + [e]);
    assert d[|q|] == e.deadline;
    forall i | 0 <= i < |q| ensures (Deadlines(q)[i] - w) % U64 < HALF { assert d[i] == q[i].deadline; }
  }

  lemma InsertKeepsRest(a: seq<Entity>, e: Entity, b: seq<Entity>)
    requires Distinct(a + b) && !Has(a + b, e.id) && Arrived(a + b, e.at)
    ensures Distinct(a + [e] + b) && Arrived(a + [e] + b, e.at + 1)
  {
    var q := a + [e] + b;
    var ab := a + b;
    assert q[|a|] == e;
    assert forall i :: 0 <= i < |ab| ==> ab[i].id != e.id && ab[i].at < e.at;
    forall i, j | 0 <= i < j < |q| ensures q[i].id != q[j].id {
      if i != |a| { assert q[i] == ab[if i < |a| then i else i - 1]; }
      if j != |a| { assert q[j] == ab[if j < |a| then j else j - 1]; }
    }
    forall i | 0 <= i < |q| ensures q[i].at < e.at + 1 {
      if i != |a| { assert q[i] == ab[if i < |a| then i else i - 1]; }
    }
  }

  lemma EarliestAfterInsert(a: seq<Entity>, e: Entity, b: seq<Entity>, curr: Stamp)
    requires NonZero(a + b) ==> curr == if a + b == [] then 0 else (a + b)[0].deadline
    requires After(a, e.deadline) && Ahead(b, e.deadline)
    ensures NonZero(a + [e] + b) ==> IncEarliest(curr, e.deadline) == (a + [e] + b)[0].deadline
  {
    var q := a + [e] + b;
    var ab := a + b;
    if NonZero(q) {
      forall i | 0 <= i < |ab| ensures ab[i].deadline != 0 { assert ab[i] == if i < |a| then q[i] else q[i + 1]; }
      assert q[|a|] == e;
      if a != [] { assert ab[0] == a[0] == q[0]; } else if b != [] { assert ab[0] == b[0]; }
    }
  }

  lemma Erased(t: Tree, k: nat, leftmost: Maybe, curr: Stamp, n: nat)
    requires Sound(InOrder(t), leftmost, curr, |InOrder(t)|, n) && k < |InOrder(t)|
    ensures t.Node?
    ensures var q := InOrder(t);
            var c := InOrder(Erase(t, q[k].id));
            var first := if leftmost.Some? && leftmost.e.id == q[k].id then Second(t) else leftmost;
            && c == WithoutId(q, q[k].id) && CutAt(q, c, q[k].id, k) && |c| == |q| - 1
            && (c != [] ==> first.Some?)
            && Sound(c, first, if c == [] then 0 else first.e.deadline, |c|, n)
  {
    var q := InOrder(t);
    WithoutCuts(q, k);
    EraseInOrder(t, q[k].id);
    CutKeeps(q, k, n);
    SecondIsSecond(t);
    if k > 0 { assert q[0].id != q[k].id; }
  }

  lemma CutKeeps(q: seq<Entity>, k: nat, n: nat)
    requires Ordered(q) && Distinct(q) && Arrived(q, n) && k < |q|
    ensures var c := q[..k] + q[k + 1..]; Ordered(c) && Distinct(c) && Arrived(c, n)
  {
    var c := q[..k] + q[k + 1..];
    forall i, j | 0 <= i < j < |c| ensures Precedes(c[i], c[j]) && c[i].id != c[j].id {
      var i' := if i < k then i else i + 1;
      var j' := if j < k then j else j + 1;
      assert c[i] == q[i'] && c[j] == q[j'];
    }
  }
}
