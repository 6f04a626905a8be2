/**
  Accounting of runnable tasks across several concurrency groups (fs/cmgroup.c, include/linux/cmgroup.h,
  kernel/sched/core.c): the run-queue hooks with their flag words, moves between groups, and limit changes.
*/
module CmAccounting {
  import opened Arith
  import opened SeqSums
  import CmModel

  const ENQUEUE_NOCMGROUP := 16
  const DEQUEUE_NOCMGROUP := 2

  /** On a run queue, inside a dequeue/enqueue pair that suppresses accounting, or off. */
  datatype Place = On | Moving | Off
  datatype Membership = Null | In(group: nat)
  datatype Task = Task(cmgroup: Membership, charged: bool, place: Place)
  datatype Group = Group(limit: int, available: int)

  /** flags & bit, for a bit that is a power of two. */
  predicate Has(flags: nat, bit: nat)
    requires bit > 0
  {
    flags / bit % 2 == 1
  }

  /** A flag word made of `low` below the bit, the bit itself, and `high` above it has the bit exactly if it is set. */
  lemma HasIsTheBit(low: nat, high: nat, set_: bool, bit: nat)
    requires low < bit
    ensures Has(low + (if set_ then bit else 0) + 2 * bit * high, bit) <==> set_
  {
    var flags := low + (if set_ then bit else 0) + 2 * bit * high;
    var q := 2 * high + if set_ then 1 else 0;
    assert flags == bit * q + low;
    DivIs(flags, bit, q, low);
  }

  /** A task that counts against group g. */
  function Runnable(g: nat): Task -> int { (t: Task) => if t.cmgroup == In(g) && !t.place.Off? then 1 else 0 }

  predicate Charged(t: Task, groups: nat) {
    t.cmgroup.In? ==> t.cmgroup.group < groups && (t.charged <==> !t.place.Off?)
  }

  /** What the enqueue hook leaves in a task's charge. */
  function ChargedAfterEnqueue(t: Task, flags: nat): bool {
    if t.cmgroup.In? && !Has(flags, ENQUEUE_NOCMGROUP) && !t.charged then true else t.charged
  }

  /**
    Suppressing the accounting of an enqueue leaves the charge right exactly when the matching dequeue was
    suppressed too (or there is no group).
  */
  lemma SuppressedEnqueue(t: Task, flags: nat, groups: nat)
    requires Charged(t, groups) && !t.place.On?
    ensures Charged(t.(charged := ChargedAfterEnqueue(t, flags), place := On), groups)
       <==> (Has(flags, ENQUEUE_NOCMGROUP) && t.cmgroup.In? ==> t.place.Moving?)
  {
  }

  class Accounts {
    var task: seq<Task>
    var group: seq<Group>

    /** available == limit - number of the group's tasks on a run queue, for every group. */
    predicate Valid()
      reads this
    {
      && (forall p :: 0 <= p < |task| ==> Charged(task[p], |group|))
      && (forall g :: 0 <= g < |group| ==> group[g].available == group[g].limit - Sum(task, Runnable(g)))
    }

    constructor ()
      ensures Valid() && task == [] && group == []
    {
      task, group := [], [];
    }

    /** copy_process: a new task belongs to no group, whatever its charge field holds. */
    method Fork(charged: bool)
      requires Valid()
      modifies this`task
      ensures Valid() && task == old(task) + [Task(Null, charged, Off)]
    {
      var t := Task(Null, charged, Off);
      forall g | 0 <= g < |group| ensures Sum(task + [t], Runnable(g)) == Sum(task, Runnable(g)) {
        SumPush(task, t, Runnable(g));
      }
      task := task + [t];
    }

    /** A new group with its limit still unused. */
    method Create(limit: int)
      requires Valid() && 1 <= limit <= CmModel.MAX_CONCURRENCY_VALUE
      modifies this`group
      ensures Valid() && group == old(group) + [Group(limit, limit)]
    {
      Unused(task, |group|, |group|);
      group := group + [Group(limit, limit)];
    }

    /** Replace task p, whose group (if any) stays the same, and balance that group by the change. */
    ghost predicate Balanced(p: nat, t: Task, d: int)
      requires p < |task|
      reads this
    {
      && t.cmgroup == task[p].cmgroup && Charged(t, |group|)
      && (t.cmgroup.In? ==> d == (if task[p].place.Off? then 1 else 0) - (if t.place.Off? then 1 else 0))
    }

    method Put(p: nat, t: Task, d: int)
      requires Valid() && p < |task| && Balanced(p, t, d) && (t.cmgroup.Null? ==> d == 0)
      modifies this
      ensures Valid() && task == old(task)[p := t] && |group| == |old(group)|
      ensures forall g :: 0 <= g < |group| ==>
        group[g] == old(group)[g].(available := old(group)[g].available - (if t.cmgroup == In(g) then d else 0))
    {
      forall g | 0 <= g < |group|
        ensures Sum(task[p := t], Runnable(g)) == Sum(task, Runnable(g)) + if t.cmgroup == In(g) then d else 0
      {
        SumUpdate(task, p, t, Runnable(g));
      }
      task := task[p := t];
      if t.cmgroup.In? {
        var g := t.cmgroup.group;
        group := group[g := group[g].(available := group[g].available - d)];
      }
    }

    /** enqueue_task with cmgroup_task_enqueued; a suppressed enqueue completes a suppressed dequeue. */
    method Enqueue(p: nat, flags: nat)
      requires Valid() && p < |task| && !task[p].place.On?
      requires Has(flags, ENQUEUE_NOCMGROUP) ==> task[p].place.Moving?
      modifies this
      ensures Valid() && |group| == |old(group)| && |task| == |old(task)|
      ensures task == old(task)[p := task[p]] && task[p].cmgroup == old(task)[p].cmgroup && task[p].place.On?
      ensures task[p].cmgroup.Null? ==> task[p].charged == old(task)[p].charged
      ensures forall g :: 0 <= g < |group| ==> group[g].limit == old(group)[g].limit
      ensures forall g :: 0 <= g < |group| ==>
        group[g].available - old(group)[g].available
        == if task[p].cmgroup == In(g) && old(task)[p].place.Off? then -1 else 0
    {
      var t := task[p];
      var charged := ChargedAfterEnqueue(t, flags);
      Put(p, t.(charged := charged, place := On), if charged && !t.charged then 1 else 0);
    }

    /** dequeue_task with cmgroup_task_dequeued; `fire` reports the 0 -> 1 crossing. */
    method Dequeue(p: nat, flags: nat) returns (fire: bool)
      requires Valid() && p < |task| && task[p].place.On?
      modifies this
      ensures Valid() && |group| == |old(group)| && |task| == |old(task)|
      ensures task == old(task)[p := task[p]] && task[p].cmgroup == old(task)[p].cmgroup
      ensures task[p].cmgroup.Null? ==> task[p].charged == old(task)[p].charged
      ensures task[p].place == if Has(flags, DEQUEUE_NOCMGROUP) then Moving else Off
      ensures forall g :: 0 <= g < |group| ==> group[g].limit == old(group)[g].limit
      ensures forall g :: 0 <= g < |group| ==>
        group[g].available - old(group)[g].available == if task[p].cmgroup == In(g) && task[p].place.Off? then 1 else 0
      ensures fire <==> exists g :: 0 <= g < |group| && old(group)[g].available < 1 <= group[g].available
    {
      var t := task[p];
      fire := false;
      if t.cmgroup.In? && !Has(flags, DEQUEUE_NOCMGROUP) && t.charged {
        Put(p, t.(charged := false, place := Off), -1);
        fire := group[t.cmgroup.group].available == 1;
      } else {
        Put(p, t.(place := if Has(flags, DEQUEUE_NOCMGROUP) then Moving else Off), 0);
      }
    }

    /** cmgroup_associate by a task on itself: the charge moves from the old group to the new one. */
    method Associate(p: nat, g: nat) returns (fire: bool)
      requires Valid() && p < |task| && !task[p].place.Off? && g < |group|
      modifies this
      ensures Valid() && task == old(task)[p := Task(In(g), true, old(task)[p].place)] && |group| == |old(group)|
      ensures forall h :: 0 <= h < |group| ==> group[h].limit == old(group)[h].limit
      ensures forall h :: 0 <= h < |group| ==>
        group[h].available - old(group)[h].available
        == (if old(task)[p].cmgroup == In(h) then 1 else 0) - (if h == g then 1 else 0)
      ensures fire <==> exists h :: 0 <= h < |group| && old(group)[h].available < 1 <= group[h].available
    {
      fire := false;
      if task[p].cmgroup != In(g) {
        if task[p].cmgroup.In? { fire := Dissociate(p); }
        var t := Task(In(g), true, task[p].place);
        forall h | 0 <= h < |group|
          ensures Sum(task[p := t], Runnable(h)) == Sum(task, Runnable(h)) + if h == g then 1 else 0
        {
          SumUpdate(task, p, t, Runnable(h));
        }
        task := task[p := t];
        group := group[g := group[g].(available := group[g].available - 1)];
      }
    }

    /** cmgroup_dissociate, also called by an exiting task. */
    method Dissociate(p: nat) returns (fire: bool)
      requires Valid() && p < |task| && !task[p].place.Off?
      modifies this
      ensures Valid() && |task| == |old(task)| && |group| == |old(group)|
      ensures old(task)[p].cmgroup.In? ==> task == old(task)[p := Task(Null, false, old(task)[p].place)]
      ensures old(task)[p].cmgroup.Null? ==> task == old(task)
      ensures forall h :: 0 <= h < |group| ==> group[h].limit == old(group)[h].limit
      ensures forall h :: 0 <= h < |group| ==>
        group[h].available - old(group)[h].available == if old(task)[p].cmgroup == In(h) then 1 else 0
      ensures fire <==> exists h :: 0 <= h < |group| && old(group)[h].available < 1 <= group[h].available
    {
      fire := false;
      var t := task[p];
      if t.cmgroup.In? {
        var g := t.cmgroup.group;
        var t' := t.(cmgroup := Null, charged := false);
        forall h | 0 <= h < |group|
          ensures Sum(task[p := t'], Runnable(h)) == Sum(task, Runnable(h)) - if h == g then 1 else 0
        {
          SumUpdate(task, p, t', Runnable(h));
        }
        task := task[p := t'];
        group := group[g := group[g].(available := group[g].available + 1)];
        fire := group[g].available == 1;
      }
    }

    /** cmgroup_set_concurrency_value; zero asks for the number of active CPUs. */
    method SetLimit(g: nat, n: int, cpus: nat) returns (ok: bool, fire: bool)
      requires Valid() && g < |group| && cpus >= 1
      modifies this`group
      ensures Valid()
      ensures var n' := if n == 0 then cpus else n;
              && (ok <==> 1 <= n' <= CmModel.MAX_CONCURRENCY_VALUE)
              && (ok ==> group == old(group)[g := Group(n', old(group)[g].available + n' - old(group)[g].limit)])
              && (!ok ==> group == old(group))
              && (fire <==> ok && old(group)[g].available < 1 <= group[g].available)
    {
      var n' := if n == 0 then cpus else n;
      ok, fire := 1 <= n' <= CmModel.MAX_CONCURRENCY_VALUE, false;
      if ok {
        var change := n' - group[g].limit;
        var new_ := group[g].available + change;
        var old_ := new_ - change;
        group := group[g := Group(n', new_)];
        fire := old_ < 1 && new_ >= 1;
      }
    }
  }

  lemma {:induction false} SumPush(s: seq<Task>, t: Task, f: Task -> int)
    ensures Sum(s + [t], f) == Sum(s, f) + f(t)
  {
    if s == [] { assert s + [t] == [t]; }
    else {
      assert (s + [t])[1..] == s[1..] + [t];
      SumPush(s[1..], t, f);
    }
  }

  /** A group index no task names has no runnable tasks. */
  lemma {:induction false} Unused(s: seq<Task>, groups: nat, g: nat)
    requires g >= groups && forall p :: 0 <= p < |s| ==> Charged(s[p], groups)
    ensures Sum(s, Runnable(g)) == 0
  {
    if s != [] { assert Charged(s[0], groups); Unused(s[1..], groups, g); }
  }
}
