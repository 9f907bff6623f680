/** The registry of dispatched tasks: neoagent/multi/task.py. */
module TaskTracking {
  import opened Prelude

  datatype Task = Task(taskId: string, instruction: string)

  datatype Status = Completed | Failed | Cancelled

  datatype TaskResult = TaskResult(taskId: string, status: Status, output: string, turnsCompleted: nat)

  /** A dict: its keys in insertion order, and its entries. */
  datatype Dict<V> = Dict(keys: seq<string>, at: map<string, V>)

  /** d[k] = v keeps the place of a key already there. */
  function Put<V>(d: Dict<V>, k: string, v: V): Dict<V> {
    Dict(if k in d.at then d.keys else d.keys + [k], d.at[k := v])
  }

  /** d.pop(k, None) */
  function Pop<V>(d: Dict<V>, k: string): Dict<V> {
    Dict(Filter(d.keys, (x: string) => x != k), d.at - {k})
  }

  ghost predicate WellKept<V>(d: Dict<V>) {
    Distinct(d.keys) && forall k :: k in d.keys <==> k in d.at
  }

  /** The contents of a tracker; a handle is the identity of an asyncio task. */
  datatype Tracker = Tracker(
    tasks: Dict<Task>, results: Dict<TaskResult>, handles: map<string, nat>, workerNames: map<string, string>)

  function EmptyTracker(): Tracker { Tracker(Dict([], map[]), Dict([], map[]), map[], map[]) }

  ghost predicate TrackerWellKept(t: Tracker) { WellKept(t.tasks) && WellKept(t.results) }

  function Tracked(t: Tracker, task: Task, worker: string): Tracker {
    t.(tasks := Put(t.tasks, task.taskId, task), workerNames := t.workerNames[task.taskId := worker])
  }

  function Handled(t: Tracker, id: string, handle: nat): Tracker { t.(handles := t.handles[id := handle]) }

  function Recorded(t: Tracker, id: string, result: TaskResult): Tracker {
    t.(results := Put(t.results, id, result), handles := t.handles - {id})
  }

  function Forgotten(t: Tracker, ids: seq<string>): Tracker {
    if |ids| == 0 then t
    else
      var before := Forgotten(t, ids[..|ids| - 1]);
      var id := ids[|ids| - 1];
      before.(tasks := Pop(before.tasks, id), results := Pop(before.results, id),
              workerNames := before.workerNames - {id})
  }

  /** The finished tasks beyond the cap, oldest first. */
  function Surplus(t: Tracker, cap: nat): seq<string> {
    if |t.results.keys| <= cap then [] else t.results.keys[..|t.results.keys| - cap]
  }

  function CleanedUp(t: Tracker, cap: nat): Tracker { Forgotten(t, Surplus(t, cap)) }

  function Outside(m: map<string, TaskResult>): string -> bool { id => id !in m }

  /** cancel() has an effect: the task is known, has no result and has an asyncio task. */
  predicate Cancellable(t: Tracker, id: string) {
    id in t.tasks.at && id !in t.results.at && id in t.handles
  }

  lemma {:induction false} PopFilter(keys: seq<string>, k: string)
    ensures forall x :: x in Filter(keys, (y: string) => y != k) <==> x in keys && x != k
    ensures Distinct(keys) ==> Distinct(Filter(keys, (y: string) => y != k))
  {
    if |keys| > 0 {
      var front := keys[..|keys| - 1];
      PopFilter(front, k);
      assert keys == front + [keys[|keys| - 1]];
      if Distinct(keys) {
        assert keys[|keys| - 1] !in front;
        assert keys[|keys| - 1] !in Filter(front, (y: string) => y != k);
      }
    }
  }

  lemma PopKeepsKept<V>(d: Dict<V>, k: string)
    requires WellKept(d)
    ensures WellKept(Pop(d, k))
  {
    hide Filter;
    PopFilter(d.keys, k);
    forall x ensures x in Pop(d, k).keys <==> x in Pop(d, k).at {
      assert x in Pop(d, k).keys <==> x in d.keys && x != k;
      assert x in Pop(d, k).at <==> x in d.at && x != k;
    }
  }

  /** Taking out the first key of a dict leaves the others in place. */
  lemma PopFirst<V>(d: Dict<V>)
    requires WellKept(d) && |d.keys| > 0
    ensures Pop(d, d.keys[0]).keys == d.keys[1..]
  {
    var k, rest := d.keys[0], d.keys[1..];
    FilterAppend([k], rest, (x: string) => x != k);
    FilterAll(rest, (x: string) => x != k);
    FilterNone([k], (x: string) => x != k);
    assert [k] + rest == d.keys;
  }

  /** Forgetting the results' oldest keys one by one leaves the newer ones, in order. */
  lemma {:induction false} ForgetPrefix(t: Tracker, n: nat)
    requires TrackerWellKept(t) && n <= |t.results.keys|
    ensures TrackerWellKept(Forgotten(t, t.results.keys[..n]))
    ensures Forgotten(t, t.results.keys[..n]).results.keys == t.results.keys[n..]
    ensures forall id :: id in Forgotten(t, t.results.keys[..n]).results.at
                         <==> id in t.results.at && id !in t.results.keys[..n]
    ensures forall id :: id in t.results.at && id !in t.results.keys[..n]
                         ==> Forgotten(t, t.results.keys[..n]).results.at[id] == t.results.at[id]
  {
    hide Distinct, Filter;
    var keys := t.results.keys;
    if n > 0 {
      ForgetPrefix(t, n - 1);
      assert keys[..n][..n - 1] == keys[..n - 1];
      assert keys[..n] == keys[..n - 1] + [keys[n - 1]];
      var before := Forgotten(t, keys[..n - 1]);
      assert before.results.keys[0] == keys[n - 1];
      PopFirst(before.results);
      PopKeepsKept(before.results, keys[n - 1]);
      PopKeepsKept(before.tasks, keys[n - 1]);
    }
  }

  lemma {:induction false} ForgetTasks(t: Tracker, ids: seq<string>)
    ensures forall id :: id in Forgotten(t, ids).tasks.at <==> id in t.tasks.at && id !in ids
    ensures forall id :: id in t.tasks.at && id !in ids ==> Forgotten(t, ids).tasks.at[id] == t.tasks.at[id]
    ensures Forgotten(t, ids).handles == t.handles
  {
    if |ids| > 0 {
      ForgetTasks(t, ids[..|ids| - 1]);
      assert ids == ids[..|ids| - 1] + [ids[|ids| - 1]];
    }
  }

  /**
   * After cleanup the results are the newest `cap`, in the order they were recorded; every task that goes is a
   * finished one older than every result that stays, and nothing else about the tasks changes.
   */
  lemma CleanupDropsOldest(t: Tracker, cap: nat)
    requires TrackerWellKept(t)
    ensures var n := if |t.results.keys| <= cap then 0 else |t.results.keys| - cap;
            && CleanedUp(t, cap).results.keys == t.results.keys[n..]
            && (forall id :: id in CleanedUp(t, cap).results.at ==>
                  id in t.results.at && CleanedUp(t, cap).results.at[id] == t.results.at[id])
            && (forall id :: id in CleanedUp(t, cap).tasks.at <==> id in t.tasks.at && id !in t.results.keys[..n])
    ensures |CleanedUp(t, cap).results.keys| <= cap || CleanedUp(t, cap) == t
    ensures CleanedUp(t, cap).handles == t.handles && TrackerWellKept(CleanedUp(t, cap))
  {
    var n := if |t.results.keys| <= cap then 0 else |t.results.keys| - cap;
    assert Surplus(t, cap) == t.results.keys[..n];
    ForgetPrefix(t, n);
    ForgetTasks(t, t.results.keys[..n]);
  }

  lemma CleanupKeeps(t: Tracker, cap: nat)
    requires TrackerWellKept(t)
    ensures TrackerWellKept(CleanedUp(t, cap)) && CleanedUp(t, cap).handles == t.handles
    ensures forall id :: id in CleanedUp(t, cap).results.at ==> id in t.results.at
    ensures forall id :: id in t.tasks.at && id !in t.results.at ==> id in CleanedUp(t, cap).tasks.at
  {
    CleanupDropsOldest(t, cap);
  }

  class TaskTracker {
    var tasks: Dict<Task>
    var results: Dict<TaskResult>
    var handles: map<string, nat>
    var workerNames: map<string, string>

    ghost function View(): Tracker
      reads this
    {
      Tracker(tasks, results, handles, workerNames)
    }

    constructor ()
      ensures View() == EmptyTracker()
    {
      tasks, results, handles, workerNames := Dict([], map[]), Dict([], map[]), map[], map[];
    }

    method Track(task: Task, workerName: string)
      modifies this
      ensures View() == Tracked(old(View()), task, workerName)
    {
      tasks := Put(tasks, task.taskId, task);
      workerNames := workerNames[task.taskId := workerName];
    }

    method SetAsyncioTask(id: string, handle: nat)
      modifies this`handles
      ensures View() == Handled(old(View()), id, handle)
    {
      handles := handles[id := handle];
    }

    method Complete(id: string, result: TaskResult)
      modifies this
      ensures View() == Recorded(old(View()), id, result)
    {
      results := Put(results, id, result);
      handles := handles - {id};
    }

    method GetResult(id: string) returns (result: Option<TaskResult>)
      ensures result == if id in View().results.at then Some(View().results.at[id]) else None
    {
      result := if id in results.at then Some(results.at[id]) else None;
    }

    /** The tracked ids without a result, in the order they were tracked. */
    method ListActive() returns (ids: seq<string>)
      requires WellKept(tasks)
      ensures ids == Filter(tasks.keys, Outside(results.at))
      ensures forall id :: id in ids <==> id in tasks.at && id !in results.at
    {
      var completed := results.at;
      ids := Filter(tasks.keys, Outside(completed));
      FilterMembers(tasks.keys, Outside(completed));
    }

    method Cleanup(maxCompleted: nat) returns (removed: nat)
      modifies this
      ensures View() == CleanedUp(old(View()), maxCompleted)
      ensures removed == |Surplus(old(View()), maxCompleted)|
    {
      var completed := results.keys;
      if |completed| <= maxCompleted {
        return 0;
      }
      var toRemove := completed[..|completed| - maxCompleted];
      ghost var start := View();
      for i := 0 to |toRemove|
        invariant View() == Forgotten(start, toRemove[..i])
      {
        assert toRemove[..i + 1][..i] == toRemove[..i];
        tasks := Pop(tasks, toRemove[i]);
        results := Pop(results, toRemove[i]);
        workerNames := workerNames - {toRemove[i]};
      }
      assert toRemove[..|toRemove|] == toRemove;
      removed := |toRemove|;
    }

    /** The handle whose asyncio task is to be cancelled, if cancelling has an effect. */
    method Cancel(id: string) returns (handle: Option<nat>)
      ensures handle == if Cancellable(View(), id) then Some(View().handles[id]) else None
    {
      if id !in tasks.at {
        return None;
      }
      if id in results.at {
        return None;
      }
      if id !in handles {
        return None;
      }
      handle := Some(handles[id]);
    }
  }
}
