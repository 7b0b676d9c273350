/**
 The bounded scheduler for file transfers. A task is known by what its synchronous part does: which
 tasks it enqueues itself, and whether it throws before its first await.
 */
module ConcurrentTaskQueue {
  import opened Bytes

  datatype Task = Task(nested: seq<Task>, throwsAtOnce: bool)

  function Weight(tasks: seq<Task>): (w: nat)
    ensures |tasks| <= w
  {
    if tasks == [] then 0 else 1 + Weight(tasks[0].nested) + Weight(tasks[1..])
  }

  lemma {:induction false} WeightAppend(tasks: seq<Task>, task: Task)
    ensures Weight(tasks + [task]) == Weight(tasks) + 1 + Weight(task.nested)
  {
    if tasks == [] {
      assert [task][1..] == [] && tasks + [task] == [task];
    } else {
      WeightAppend(tasks[1..], task);
      assert (tasks + [task])[1..] == tasks[1..] + [task];
    }
  }

  /** The tasks and everything they enqueue themselves, at any depth. */
  function AllOf(tasks: seq<Task>): multiset<Task> {
    if tasks == [] then multiset{}
    else multiset{tasks[0]} + AllOf(tasks[0].nested) + AllOf(tasks[1..])
  }

  lemma {:induction false} AllOfAppend(tasks: seq<Task>, task: Task)
    ensures AllOf(tasks + [task]) == AllOf(tasks) + multiset{task} + AllOf(task.nested)
  {
    hide AllOf;
    AllOfHead(tasks + [task]);
    if tasks == [] {
      assert tasks + [task] == [task] && [task][1..] == tasks;
    } else {
      AllOfHead(tasks);
      AllOfAppend(tasks[1..], task);
      assert (tasks + [task])[1..] == tasks[1..] + [task];
    }
  }

  lemma AllOfHead(tasks: seq<Task>)
    ensures AllOf([]) == multiset{}
    ensures tasks != [] ==> AllOf(tasks) == multiset{tasks[0]} + AllOf(tasks[0].nested) + AllOf(tasks[1..])
  {
  }

  /** Indices below `n`. */
  function Below(n: nat): (s: set<nat>)
    ensures |s| == n && forall i: nat :: i in s <==> i < n
  {
    if n == 0 then {} else Below(n - 1) + {n - 1}
  }

  lemma OneHandedOver(accepted: multiset<Task>, tasks: seq<Task>)
    requires tasks != []
    ensures accepted + multiset{tasks[0]} + AllOf(tasks[0].nested) + AllOf(tasks[1..]) == accepted + AllOf(tasks)
  {
    hide AllOf;
    AllOfHead(tasks);
  }

  lemma WeightHead(tasks: seq<Task>)
    requires tasks != []
    ensures Weight(tasks) == 1 + Weight(tasks[0].nested) + Weight(tasks[1..])
    ensures AllOf(tasks) == multiset{tasks[0]} + AllOf(tasks[0].nested) + AllOf(tasks[1..])
  {
  }

  /** The counter goes up by one with a start, and down by one with a settlement. */
  lemma OneMoreRunning(started: nat, settled: set<nat>)
    requires settled <= Below(started)
    ensures started !in settled && settled <= Below(started + 1)
    ensures Below(started + 1) - settled == (Below(started) - settled) + {started}
    ensures |Below(started + 1) - settled| == |Below(started) - settled| + 1
  {
    assert Below(started + 1) - settled == (Below(started) - settled) + {started};
  }

  lemma OneLessRunning(started: nat, settled: set<nat>, index: nat)
    requires settled <= Below(started) && index in Below(started) - settled
    ensures settled + {index} <= Below(started)
    ensures Below(started) - (settled + {index}) == (Below(started) - settled) - {index}
    ensures |Below(started) - (settled + {index})| == |Below(started) - settled| - 1
  {
    assert Below(started) - (settled + {index}) == (Below(started) - settled) - {index};
  }

  class Queue {
    const maxConcurrent: nat
    var activeCount: int
    var pending: seq<Task>
    /** Every task ever enqueued, in that order; the first `started` of them have been started. */
    ghost var arrivals: seq<Task>
    ghost var started: nat
    ghost var settled: set<nat>

    constructor (maxConcurrent: nat)
      requires 1 <= maxConcurrent
      ensures Valid() && AtRest() && this.maxConcurrent == maxConcurrent
      ensures arrivals == [] && started == 0 && settled == {}
    {
      this.maxConcurrent := maxConcurrent;
      activeCount, pending := 0, [];
      arrivals, started, settled := [], 0, {};
    }

    /** The tasks that run now: started and not yet settled. */
    ghost function Running(): set<nat>
      reads this
    {
      Below(started) - settled
    }

    /**
     The bound, first come first started, and bookkeeping: pending is exactly what has arrived but not
     started, so every task is pending, running or settled and never two of these.
     */
    ghost predicate Valid()
      reads this
    {
      && 0 <= activeCount <= maxConcurrent
      && started <= |arrivals|
      && pending == arrivals[started..]
      && settled <= Below(started)
      && activeCount == |Running()|
    }

    /** No slot is free while a task waits. */
    ghost predicate AtRest()
      reads this
    {
      pending == [] || activeCount == maxConcurrent
    }

    /** How much has started follows from what arrived and what settled, whatever the interleaving. */
    lemma StartedCount()
      requires Valid() && AtRest()
      ensures started == Min(|arrivals|, |settled| + maxConcurrent)
    {
      assert |Running()| == |Below(started)| - |settled| by {
        assert Below(started) == Running() + settled;
      }
    }

    /** All the queue has taken on: the tasks started, and those that wait with everything they will enqueue. */
    ghost function Accepted(): multiset<Task>
      requires started <= |arrivals|
      reads this
    {
      multiset(arrivals[..started]) + AllOf(pending)
    }

    /** Once nothing waits, exactly what was taken on has been started. */
    lemma NothingForgotten()
      requires Valid() && pending == []
      ensures started == |arrivals| && multiset(arrivals) == Accepted()
    {
      assert arrivals[..started] == arrivals;
    }

    /**
     Arrivals only grow at the end, starts stand, and what has settled since is `index` and exactly the
     later starts that throw at once.
     */
    twostate predicate Grows(index: int)
      reads this
    {
      && old(arrivals) <= arrivals
      && old(started) <= started <= |arrivals|
      && old(settled) <= settled
      && (forall i :: i in settled && i !in old(settled) ==> i == index || old(started) <= i)
      && (forall i :: old(started) <= i < started ==> (i in settled <==> arrivals[i].throwsAtOnce))
    }

    method Enqueue(task: Task)
      requires Valid()
      modifies this
      ensures Valid() && AtRest() && Grows(-1)
      ensures old(arrivals) + [task] <= arrivals
      ensures Accepted() == old(Accepted()) + multiset{task} + AllOf(task.nested)
      ensures Weight(pending) <= old(Weight(pending)) + 1 + Weight(task.nested)
      decreases Weight(pending) + 1 + Weight(task.nested), 2
    {
      hide Weight, Below, AllOf;
      WeightAppend(pending, task);
      AllOfAppend(pending, task);
      pending := pending + [task];
      arrivals := arrivals + [task];
      assert arrivals[..started] == old(arrivals[..started]);
      StartAvailableTasks();
    }

    method StartAvailableTasks()
      requires Valid()
      modifies this
      ensures Valid() && AtRest() && Grows(-1)
      ensures Accepted() == old(Accepted())
      ensures Weight(pending) <= old(Weight(pending))
      decreases Weight(pending), 1
    {
      hide Weight, Below, AllOf;
      while activeCount < maxConcurrent
        invariant Valid() && Grows(-1)
        invariant Accepted() == old(Accepted())
        invariant Weight(pending) <= old(Weight(pending))
        decreases Weight(pending)
      {
        if pending == [] {
          return;
        }
        WeightHead(pending);
        var next := pending[0];
        pending := pending[1..];
        activeCount := activeCount + 1;
        Run(next);
      }
    }

    /** `task` has left the queue and holds its slot, but has not been started. */
    ghost predicate Taken(task: Task)
      reads this
    {
      && started < |arrivals| && arrivals[started] == task
      && pending == arrivals[started + 1..]
      && settled <= Below(started)
      && 0 < activeCount <= maxConcurrent
      && activeCount == |Running()| + 1
    }

    /** What was last taken from the queue is started. */
    ghost method Start()
      requires started < |arrivals| && Taken(arrivals[started])
      modifies this`started
      ensures Valid() && started == old(started) + 1 && old(started) in Running()
      ensures Accepted() == old(Accepted()) + multiset{arrivals[old(started)]}
    {
      hide Weight, AllOf, Below;
      OneMoreRunning(started, settled);
      assert arrivals[..started + 1] == arrivals[..started] + [arrivals[started]];
      started := started + 1;
    }

    /** The synchronous part of one task; a task that throws there gives its slot back before returning. */
    method Run(task: Task)
      requires Taken(task)
      modifies this
      ensures Valid() && old(started) < started && Grows(-1)
      ensures Accepted() == old(Accepted()) + multiset{task} + AllOf(task.nested)
      ensures Weight(pending) <= old(Weight(pending)) + Weight(task.nested)
      decreases Weight(pending) + 1 + Weight(task.nested), 0
    {
      hide Weight, Below, AllOf, Accepted, Min, Running;
      ghost var index := started;
      Start();
      RunNested(task.nested, index);
      if task.throwsAtOnce {
        Release(index);
      }
    }

    method RunNested(tasks: seq<Task>, ghost index: nat)
      requires Valid() && index in Running()
      modifies this
      ensures Valid() && Grows(-1) && index in Running()
      ensures Accepted() == old(Accepted()) + AllOf(tasks)
      ensures Weight(pending) <= old(Weight(pending)) + Weight(tasks)
      decreases Weight(pending) + Weight(tasks), 3
    {
      hide Weight, Below, AllOf, Accepted;
      var rest := tasks;
      while rest != []
        invariant Valid() && Grows(-1) && index in Running()
        invariant Accepted() + AllOf(rest) == old(Accepted()) + AllOf(tasks)
        invariant Weight(pending) + Weight(rest) <= old(Weight(pending)) + Weight(tasks)
        decreases |rest|
      {
        WeightHead(rest);
        ghost var before := Accepted();
        var child := rest[0];
        Enqueue(child);
        OneHandedOver(before, rest);
        rest := rest[1..];
      }
      AllOfHead([]);
    }

    /** The `finally` block: the slot is free before the next task is looked for. */
    method Release(ghost index: nat)
      requires Valid() && index in Running()
      modifies this
      ensures Valid() && AtRest() && Grows(index) && index in settled
      ensures Accepted() == old(Accepted())
      ensures Weight(pending) <= old(Weight(pending))
      decreases Weight(pending), 2
    {
      hide Weight, Below, AllOf;
      OneLessRunning(started, settled, index);
      activeCount := activeCount - 1;
      settled := settled + {index};
      StartAvailableTasks();
    }
  }
}
