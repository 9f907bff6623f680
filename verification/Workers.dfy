/**
 * Dispatching tasks to workers: neoagent/multi/tools/delegate_task.py and spawn_worker.py, neoagent/multi/worker.py,
 * neoagent/multi/orchestrator.py.
 */
module Workers {
  import opened Prelude
  import opened IdGenerator
  import opened TaskTracking

  /**
   * Failing: the worker's messages could not be built, and the exception is on its way to the dispatching tool.
   * Lost: it has left that tool.
   */
  datatype Phase = Waiting | Running | Ended(result: TaskResult) | Failing | Settled | Lost

  /** `builds` says whether the task's context makes messages (neoagent/multi/task.py:331-345). */
  datatype Worker = Worker(name: string, parent: Option<string>, depth: int, builds: bool, phase: Phase)

  datatype TaskEvent =
    | TaskDispatched(id: string, workerName: string, depth: int)
    | TaskCompleted(id: string, workerName: string, status: Status)

  datatype System = System(
    limit: nat, maxDepth: int, permits: nat, tracker: Tracker, workers: map<string, Worker>, events: seq<TaskEvent>)

  /**
   * Dispatch and Conclude are the stretches of a dispatching tool before and after its await, and Raise the one
   * after an await that raised; Acquire, Finish and Interrupt are those of the task it waits for. A dispatching tool
   * is overtaken when a cancellation of its own is what its await delivers. Cleanup is the tracker's.
   */
  datatype Action =
    | Dispatch(id: string, parent: Option<string>, instruction: string, workerName: string, builds: bool)
    | Acquire(id: string)
    | Finish(id: string, result: TaskResult)
    | Interrupt(id: string)
    | Conclude(id: string, overtaken: bool)
    | Raise(id: string)
    | Cleanup(cap: nat)

  function Initial(limit: nat, maxDepth: int): System {
    System(limit, maxDepth, limit, EmptyTracker(), map[], [])
  }

  /** The orchestrator's own tools are at depth 0; a worker holds spawn_worker, at its own depth, below the maximum. */
  predicate MayDispatch(s: System, parent: Option<string>, builds: bool) {
    parent.None?
    || (parent.value in s.workers && s.workers[parent.value].phase == Running
        && s.workers[parent.value].depth < s.maxDepth && builds)
  }

  predicate Settles(w: Worker) { w.phase.Settled? || w.phase.Lost? }

  /** No task that `id` dispatched is still on its way: the worker is not inside a tool call. */
  ghost predicate NotAwaiting(s: System, id: string) {
    forall c :: c in s.workers && s.workers[c].parent == Some(id) ==> Settles(s.workers[c])
  }

  predicate InPhase(s: System, id: string, phase: Phase) {
    id in s.workers && s.workers[id].phase == phase
  }

  ghost predicate Enabled(s: System, a: Action) {
    match a
    case Dispatch(id, parent, _, _, builds) => id !in s.workers && MayDispatch(s, parent, builds)
    case Acquire(id) => InPhase(s, id, Waiting) && s.permits > 0
    case Finish(id, result) => InPhase(s, id, Running) && NotAwaiting(s, id) && result.taskId == id
    case Interrupt(id) => InPhase(s, id, Waiting)
    case Conclude(id, overtaken) =>
      id in s.workers && (s.workers[id].phase.Ended? || (s.workers[id].phase.Failing? && overtaken))
    case Raise(id) => InPhase(s, id, Failing)
    case Cleanup(_) => true
  }

  function Depth(s: System, parent: Option<string>): int
    requires parent.Some? ==> parent.value in s.workers
  {
    if parent.None? then 1 else s.workers[parent.value].depth + 1
  }

  function WithPhase(s: System, id: string, phase: Phase): System
    requires id in s.workers
  {
    s.(workers := s.workers[id := s.workers[id].(phase := phase)])
  }

  function CancelledResult(id: string): TaskResult { TaskResult(id, Cancelled, "", 0) }

  /** The result that a dispatching tool records. */
  function Outcome(s: System, id: string, overtaken: bool): TaskResult
    requires id in s.workers && (s.workers[id].phase.Ended? || overtaken)
  {
    if overtaken then CancelledResult(id) else s.workers[id].phase.result
  }

  function Perform(s: System, a: Action): System
    requires Enabled(s, a)
  {
    match a
    case Dispatch(id, parent, instruction, workerName, builds) =>
      s.(workers := s.workers[id := Worker(workerName, parent, Depth(s, parent), builds, Waiting)],
         events := s.events + [TaskDispatched(id, workerName, Depth(s, parent) - 1)],
         tracker := Handled(Tracked(s.tracker, Task(id, instruction), workerName), id, |s.workers|))
    case Acquire(id) =>
      if s.workers[id].builds then WithPhase(s, id, Running).(permits := s.permits - 1)
      else WithPhase(s, id, Failing)
    case Finish(id, result) => WithPhase(s, id, Ended(result)).(permits := s.permits + 1)
    case Interrupt(id) => WithPhase(s, id, Ended(CancelledResult(id)))
    case Conclude(id, overtaken) =>
      var result := Outcome(s, id, overtaken);
      WithPhase(s, id, Settled).(
        tracker := Recorded(s.tracker, id, result),
        events := s.events + [TaskCompleted(id, s.workers[id].name, result.status)])
    case Raise(id) => WithPhase(s, id, Lost)
    case Cleanup(cap) => s.(tracker := CleanedUp(s.tracker, cap))
  }

  /** Any interleaving; an action that is not open leaves the system as it is. */
  ghost function Run(limit: nat, maxDepth: int, actions: seq<Action>): System {
    if |actions| == 0 then Initial(limit, maxDepth)
    else
      var s := Run(limit, maxDepth, actions[..|actions| - 1]);
      var a := actions[|actions| - 1];
      if Enabled(s, a) then Perform(s, a) else s
  }

  // ---- What every run keeps.

  function RunningIds(workers: map<string, Worker>): set<string> {
    set id | id in workers && workers[id].phase == Running
  }

  function Dispatched(events: seq<TaskEvent>): seq<string> {
    if |events| == 0 then []
    else
      var before := Dispatched(events[..|events| - 1]);
      if events[|events| - 1].TaskDispatched? then before + [events[|events| - 1].id] else before
  }

  function CompletedIds(events: seq<TaskEvent>): seq<string> {
    if |events| == 0 then []
    else
      var before := CompletedIds(events[..|events| - 1]);
      if events[|events| - 1].TaskCompleted? then before + [events[|events| - 1].id] else before
  }

  /** Free permits and running workers make up the limit. */
  predicate PermitsAdd(s: System) { s.permits + |RunningIds(s.workers)| == s.limit }

  /** Each task is announced once, and its completion once, when it is settled. */
  ghost predicate EventsMatch(s: System) {
    && Distinct(Dispatched(s.events)) && Distinct(CompletedIds(s.events))
    && (forall id :: id in Dispatched(s.events) <==> id in s.workers)
    && (forall id :: id in CompletedIds(s.events) <==> InPhase(s, id, Settled))
  }

  /** The tracker has a cancel handle for exactly the unsettled tasks, and results of settled ones only. */
  ghost predicate TrackerMatches(s: System) {
    && TrackerWellKept(s.tracker)
    && (forall id :: id in s.tracker.handles <==> id in s.workers && s.workers[id].phase != Settled)
    && (forall id :: id in s.tracker.results.at ==> InPhase(s, id, Settled))
    && (forall id :: id in s.workers && s.workers[id].phase != Settled ==> id in s.tracker.tasks.at)
  }

  predicate DepthFits(maxDepth: int, workers: map<string, Worker>, w: Worker) {
    1 <= w.depth && (w.depth == 1 || w.depth <= maxDepth)
    && if w.parent.Some?
       then w.parent.value in workers && w.depth == workers[w.parent.value].depth + 1
            && w.builds && (Settles(w) || workers[w.parent.value].phase == Running)
       else w.depth == 1
  }

  predicate EndFits(id: string, w: Worker) {
    && (w.phase.Lost? || w.phase.Failing? ==> !w.builds)
    && (w.phase.Running? ==> w.builds)
    && (w.phase.Ended? ==> w.phase.result.taskId == id && (w.builds || w.phase.result == CancelledResult(id)))
  }

  /** Depths follow the dispatches, and a parent runs until all it dispatched has settled. */
  ghost predicate WorkersFit(s: System) {
    forall id :: id in s.workers ==> DepthFits(s.maxDepth, s.workers, s.workers[id]) && EndFits(id, s.workers[id])
  }

  ghost predicate Inv(s: System) { PermitsAdd(s) && EventsMatch(s) && TrackerMatches(s) && WorkersFit(s) }

  lemma RunningWith(workers: map<string, Worker>, id: string, w: Worker)
    ensures RunningIds(workers[id := w])
         == if w.phase == Running then RunningIds(workers) + {id} else RunningIds(workers) - {id}
    ensures id in RunningIds(workers) <==> id in workers && workers[id].phase == Running
  {
  }

  lemma PermitsStay(s: System, a: Action)
    requires PermitsAdd(s) && Enabled(s, a)
    ensures PermitsAdd(Perform(s, a))
  {
    hide RunningIds, Tracked, Handled, Recorded, CleanedUp, NotAwaiting, Depth;
    match a {
      case Dispatch(id, parent, _, workerName, builds) =>
        RunningWith(s.workers, id, Worker(workerName, parent, Depth(s, parent), builds, Waiting));
      case Acquire(id) =>
        RunningWith(s.workers, id, s.workers[id].(phase := if s.workers[id].builds then Running else Failing));
      case Finish(id, result) =>
        RunningWith(s.workers, id, s.workers[id].(phase := Ended(result)));
      case Interrupt(id) =>
        RunningWith(s.workers, id, s.workers[id].(phase := Ended(CancelledResult(id))));
      case Conclude(id, _) =>
        RunningWith(s.workers, id, s.workers[id].(phase := Settled));
      case Raise(id) =>
        RunningWith(s.workers, id, s.workers[id].(phase := Lost));
      case Cleanup(_) =>
    }
  }

  lemma SameEvents(s: System, tracker: Tracker)
    requires EventsMatch(s)
    ensures EventsMatch(s.(tracker := tracker))
  {
  }

  lemma EventAdded(events: seq<TaskEvent>, e: TaskEvent)
    ensures Dispatched(events + [e]) == Dispatched(events) + (if e.TaskDispatched? then [e.id] else [])
    ensures CompletedIds(events + [e]) == CompletedIds(events) + (if e.TaskCompleted? then [e.id] else [])
  {
    assert (events + [e])[..|events|] == events;
  }

  lemma DistinctAdded(ids: seq<string>, id: string)
    requires Distinct(ids) && id !in ids
    ensures Distinct(ids + [id])
  {
  }

  lemma DispatchAnnounced(s: System, a: Action)
    requires EventsMatch(s) && Enabled(s, a) && a.Dispatch?
    ensures EventsMatch(Perform(s, a))
  {
    hide Tracked, Handled, Distinct;
    EventAdded(s.events, TaskDispatched(a.id, a.workerName, Depth(s, a.parent) - 1));
    DistinctAdded(Dispatched(s.events), a.id);
  }

  lemma PhaseAnnounced(s: System, id: string, phase: Phase)
    requires EventsMatch(s) && id in s.workers && s.workers[id].phase != Settled && phase != Settled
    ensures EventsMatch(WithPhase(s, id, phase))
    ensures forall permits: nat :: EventsMatch(WithPhase(s, id, phase).(permits := permits))
  {
    hide Distinct;
  }

  lemma ConcludeAnnounced(s: System, a: Action)
    requires EventsMatch(s) && Enabled(s, a) && a.Conclude?
    ensures EventsMatch(Perform(s, a))
  {
    hide Recorded, Distinct, Outcome;
    EventAdded(s.events, TaskCompleted(a.id, s.workers[a.id].name, Outcome(s, a.id, a.overtaken).status));
    DistinctAdded(CompletedIds(s.events), a.id);
  }

  lemma EventsStay(s: System, a: Action)
    requires EventsMatch(s) && Enabled(s, a)
    ensures EventsMatch(Perform(s, a))
  {
    hide EventsMatch, Tracked, Recorded, Handled, CleanedUp, NotAwaiting, MayDispatch, Depth;
    match a {
      case Dispatch(_, _, _, _, _) => DispatchAnnounced(s, a);
      case Acquire(id) => PhaseAnnounced(s, id, if s.workers[id].builds then Running else Failing);
      case Finish(id, result) => PhaseAnnounced(s, id, Ended(result));
      case Interrupt(id) => PhaseAnnounced(s, id, Ended(CancelledResult(id)));
      case Conclude(_, _) => ConcludeAnnounced(s, a);
      case Raise(id) => PhaseAnnounced(s, id, Lost);
      case Cleanup(cap) => SameEvents(s, CleanedUp(s.tracker, cap));
    }
  }

  lemma PutKeepsKept<V>(d: Dict<V>, k: string, v: V)
    requires WellKept(d)
    ensures WellKept(Put(d, k, v))
  {
  }

  lemma DispatchTracked(s: System, a: Action)
    requires TrackerMatches(s) && Enabled(s, a) && a.Dispatch?
    ensures TrackerMatches(Perform(s, a))
  {
    PutKeepsKept(s.tracker.tasks, a.id, Task(a.id, a.instruction));
    hide WellKept, MayDispatch, Depth;
  }

  lemma PhaseTracked(s: System, id: string, phase: Phase)
    requires TrackerMatches(s) && id in s.workers && s.workers[id].phase != Settled && phase != Settled
    ensures TrackerMatches(WithPhase(s, id, phase))
    ensures forall permits: nat :: TrackerMatches(WithPhase(s, id, phase).(permits := permits))
  {
    hide WellKept;
  }

  lemma ConcludeTracked(s: System, a: Action)
    requires TrackerMatches(s) && Enabled(s, a) && a.Conclude?
    ensures TrackerMatches(Perform(s, a))
  {
    PutKeepsKept(s.tracker.results, a.id, Outcome(s, a.id, a.overtaken));
    hide WellKept, Outcome;
  }

  lemma CleanupTracked(s: System, a: Action)
    requires TrackerMatches(s) && Enabled(s, a) && a.Cleanup?
    ensures TrackerMatches(Perform(s, a))
  {
    CleanupKeeps(s.tracker, a.cap);
    hide TrackerWellKept, CleanedUp;
  }

  lemma TrackerStays(s: System, a: Action)
    requires TrackerMatches(s) && Enabled(s, a)
    ensures TrackerMatches(Perform(s, a))
  {
    hide TrackerMatches, Tracked, Handled, Recorded, CleanedUp, MayDispatch, NotAwaiting, Depth;
    match a {
      case Dispatch(_, _, _, _, _) => DispatchTracked(s, a);
      case Acquire(id) => PhaseTracked(s, id, if s.workers[id].builds then Running else Failing);
      case Finish(id, result) => PhaseTracked(s, id, Ended(result));
      case Interrupt(id) => PhaseTracked(s, id, Ended(CancelledResult(id)));
      case Conclude(_, _) => ConcludeTracked(s, a);
      case Raise(id) => PhaseTracked(s, id, Lost);
      case Cleanup(_) => CleanupTracked(s, a);
    }
  }

  /** Moving one task on keeps the others in place, when a running parent stays for the sake of its unsettled tasks. */
  lemma PhaseChangeFits(s: System, id: string, phase: Phase)
    requires WorkersFit(s) && id in s.workers && !Settles(s.workers[id])
    requires EndFits(id, s.workers[id].(phase := phase))
    requires s.workers[id].phase == Running ==> NotAwaiting(s, id)
    ensures WorkersFit(WithPhase(s, id, phase))
  {
    var s' := WithPhase(s, id, phase);
    forall x | x in s'.workers ensures DepthFits(s'.maxDepth, s'.workers, s'.workers[x]) && EndFits(x, s'.workers[x]) {
      assert DepthFits(s.maxDepth, s.workers, s.workers[x]) && EndFits(x, s.workers[x]);
    }
  }

  lemma DispatchFits(s: System, a: Action)
    requires WorkersFit(s) && Enabled(s, a) && a.Dispatch?
    ensures WorkersFit(Perform(s, a))
  {
    hide Tracked, Handled;
    var s' := Perform(s, a);
    forall x | x in s'.workers ensures DepthFits(s'.maxDepth, s'.workers, s'.workers[x]) && EndFits(x, s'.workers[x]) {
      if x != a.id {
        assert DepthFits(s.maxDepth, s.workers, s.workers[x]) && EndFits(x, s.workers[x]);
      } else if a.parent.Some? {
        assert DepthFits(s.maxDepth, s.workers, s.workers[a.parent.value]);
      }
    }
  }

  lemma WorkersStay(s: System, a: Action)
    requires WorkersFit(s) && Enabled(s, a)
    ensures WorkersFit(Perform(s, a))
  {
    hide DepthFits, Tracked, Handled, Recorded, CleanedUp, MayDispatch, Depth;
    match a {
      case Dispatch(_, _, _, _, _) => DispatchFits(s, a);
      case Acquire(id) => PhaseChangeFits(s, id, if s.workers[id].builds then Running else Failing);
      case Finish(id, result) => PhaseChangeFits(s, id, Ended(result));
      case Interrupt(id) => PhaseChangeFits(s, id, Ended(CancelledResult(id)));
      case Conclude(id, _) => PhaseChangeFits(s, id, Settled);
      case Raise(id) => PhaseChangeFits(s, id, Lost);
      case Cleanup(_) =>
    }
  }

  lemma InitialKeeps(limit: nat, maxDepth: int)
    ensures Inv(Initial(limit, maxDepth))
    ensures Initial(limit, maxDepth).limit == limit && Initial(limit, maxDepth).maxDepth == maxDepth
  {
    assert RunningIds(map[]) == {};
  }

  lemma BoundsStay(s: System, a: Action)
    requires Enabled(s, a)
    ensures Perform(s, a).limit == s.limit && Perform(s, a).maxDepth == s.maxDepth
  {
    hide Enabled;
  }

  lemma PerformKeeps(s: System, a: Action)
    requires Inv(s) && Enabled(s, a)
    ensures Inv(Perform(s, a)) && Perform(s, a).limit == s.limit && Perform(s, a).maxDepth == s.maxDepth
  {
    hide Perform, Enabled, PermitsAdd, EventsMatch, TrackerMatches, WorkersFit;
    BoundsStay(s, a);
    PermitsStay(s, a);
    EventsStay(s, a);
    TrackerStays(s, a);
    WorkersStay(s, a);
  }

  lemma {:induction false} RunKeeps(limit: nat, maxDepth: int, actions: seq<Action>)
    ensures Inv(Run(limit, maxDepth, actions))
    ensures Run(limit, maxDepth, actions).limit == limit && Run(limit, maxDepth, actions).maxDepth == maxDepth
  {
    hide Inv, Initial;
    if |actions| == 0 {
      InitialKeeps(limit, maxDepth);
    } else {
      var s := Run(limit, maxDepth, actions[..|actions| - 1]);
      var a := actions[|actions| - 1];
      RunKeeps(limit, maxDepth, actions[..|actions| - 1]);
      if Enabled(s, a) {
        PerformKeeps(s, a);
      }
    }
  }

  // ---- What follows for whole runs.

  function Occurrences(ids: seq<string>, id: string): nat {
    if |ids| == 0 then 0
    else Occurrences(ids[..|ids| - 1], id) + (if ids[|ids| - 1] == id then 1 else 0)
  }

  /** At rest: every task has settled or been lost. */
  ghost predicate AtRest(s: System) { forall id :: id in s.workers ==> Settles(s.workers[id]) }

  lemma {:induction false} DistinctOnce(ids: seq<string>, id: string)
    requires Distinct(ids)
    ensures Occurrences(ids, id) == if id in ids then 1 else 0
  {
    if |ids| > 0 {
      DistinctOnce(ids[..|ids| - 1], id);
      assert ids == ids[..|ids| - 1] + [ids[|ids| - 1]];
    }
  }

  /** Every dispatched task is announced once, and has one completion event exactly when it is settled. */
  lemma {:induction false} CompletedOnce(limit: nat, maxDepth: int, actions: seq<Action>, id: string)
    ensures Occurrences(Dispatched(Run(limit, maxDepth, actions).events), id)
         == if id in Run(limit, maxDepth, actions).workers then 1 else 0
    ensures Occurrences(CompletedIds(Run(limit, maxDepth, actions).events), id)
         == if InPhase(Run(limit, maxDepth, actions), id, Settled) then 1 else 0
  {
    RunKeeps(limit, maxDepth, actions);
    var s := Run(limit, maxDepth, actions);
    DistinctOnce(Dispatched(s.events), id);
    DistinctOnce(CompletedIds(s.events), id);
  }

  /** A task can be cancelled as long as it is on its way; from its completion on there is no handle to cancel it by. */
  lemma {:induction false} CancellableExactlyWhile(limit: nat, maxDepth: int, actions: seq<Action>, id: string)
    ensures InPhase(Run(limit, maxDepth, actions), id, Settled)
            ==> id !in Run(limit, maxDepth, actions).tracker.handles
    ensures id in Run(limit, maxDepth, actions).workers
            ==> (Cancellable(Run(limit, maxDepth, actions).tracker, id)
                 <==> !InPhase(Run(limit, maxDepth, actions), id, Settled))
  {
    RunKeeps(limit, maxDepth, actions);
  }

  // ---- Which tasks are completed.

  /** The task is cancelled while it waits for a permit, or its dispatching tool while the failure is on its way. */
  ghost predicate Cancels(s: System, a: Action, id: string) {
    Enabled(s, a) && (a == Interrupt(id) || (a == Conclude(id, true) && InPhase(s, id, Failing)))
  }

  /** A cancellation reached the task before its failure left the dispatching tool. */
  ghost predicate CancelledInTime(limit: nat, maxDepth: int, actions: seq<Action>, id: string) {
    |actions| > 0
    && (CancelledInTime(limit, maxDepth, actions[..|actions| - 1], id)
        || Cancels(Run(limit, maxDepth, actions[..|actions| - 1]), actions[|actions| - 1], id))
  }

  /** Where a task whose context does not build can be. */
  ghost predicate UnbuildableFits(w: Worker, cancelled: bool) {
    !w.builds ==> (cancelled <==> w.phase.Ended? || w.phase.Settled?)
  }

  /** One action moves one task on; what became of it says whether it was cancelled. */
  lemma UnbuildableStep(s: System, a: Action, id: string, was: bool)
    requires Enabled(s, a) && id in s.workers && EndFits(id, s.workers[id]) && UnbuildableFits(s.workers[id], was)
    ensures id in Perform(s, a).workers && UnbuildableFits(Perform(s, a).workers[id], was || Cancels(s, a, id))
  {
    hide Tracked, Handled, Recorded, CleanedUp, MayDispatch, NotAwaiting, Outcome, Depth;
    match a {
      case Dispatch(_, _, _, _, _) =>
      case Acquire(_) =>
      case Finish(_, _) =>
      case Interrupt(_) =>
      case Conclude(_, _) =>
      case Raise(_) =>
      case Cleanup(_) =>
    }
  }

  lemma UnbuildableNew(s: System, a: Action, id: string)
    requires Enabled(s, a) && id !in s.workers
    ensures !Cancels(s, a, id)
    ensures id in Perform(s, a).workers ==> UnbuildableFits(Perform(s, a).workers[id], false)
  {
    hide Tracked, Handled, Recorded, CleanedUp, MayDispatch, NotAwaiting, Outcome, Depth;
  }

  lemma {:induction false} UnbuildableStays(limit: nat, maxDepth: int, actions: seq<Action>, id: string)
    ensures id in Run(limit, maxDepth, actions).workers
            ==> UnbuildableFits(Run(limit, maxDepth, actions).workers[id],
                                CancelledInTime(limit, maxDepth, actions, id))
    ensures id !in Run(limit, maxDepth, actions).workers ==> !CancelledInTime(limit, maxDepth, actions, id)
  {
    hide Perform, Enabled, UnbuildableFits, EndFits, DepthFits;
    if |actions| > 0 {
      var front, a := actions[..|actions| - 1], actions[|actions| - 1];
      UnbuildableStays(limit, maxDepth, front, id);
      RunKeeps(limit, maxDepth, front);
      var s := Run(limit, maxDepth, front);
      if Enabled(s, a) {
        if id in s.workers {
          UnbuildableStep(s, a, id, CancelledInTime(limit, maxDepth, front, id));
        } else {
          UnbuildableNew(s, a, id);
        }
      }
    }
  }

  /**
   * When all is at rest a task has had its one completion if and only if its context builds or a cancellation came
   * before its failure left the dispatching tool; and if its context does not build, what is recorded is that
   * cancellation.
   */
  lemma {:induction false} CompletedExactlyWhen(limit: nat, maxDepth: int, actions: seq<Action>, id: string)
    requires AtRest(Run(limit, maxDepth, actions)) && id in Run(limit, maxDepth, actions).workers
    ensures Occurrences(CompletedIds(Run(limit, maxDepth, actions).events), id) == 1
            <==> Run(limit, maxDepth, actions).workers[id].builds || CancelledInTime(limit, maxDepth, actions, id)
    ensures Occurrences(CompletedIds(Run(limit, maxDepth, actions).events), id) <= 1
  {
    hide Perform, Enabled;
    CompletedOnce(limit, maxDepth, actions, id);
    UnbuildableStays(limit, maxDepth, actions, id);
    RunKeeps(limit, maxDepth, actions);
    assert EndFits(id, Run(limit, maxDepth, actions).workers[id]);
  }

  ghost predicate CompletedAtRest(limit: nat, maxDepth: int, actions: seq<Action>, id: string, builds: bool) {
    var s := Run(limit, maxDepth, actions);
    AtRest(s) && id in s.workers && s.workers[id].builds == builds ==> Occurrences(CompletedIds(s.events), id) == 1
  }

  ghost predicate AlwaysCompleted(limit: nat, maxDepth: int, builds: bool) {
    forall actions, id :: CompletedAtRest(limit, maxDepth, actions, id, builds)
  }

  function LosingRun(id: string, name: string): seq<Action> {
    [Dispatch(id, None, "", name, false), Acquire(id), Raise(id)]
  }

  /** A delegated context that makes no messages: the task is announced and tracked, and never completed. */
  lemma {:induction false} UnbuildableIsLost(limit: nat, maxDepth: int, id: string, name: string)
    requires limit > 0
    ensures var s := Run(limit, maxDepth, LosingRun(id, name));
            && AtRest(s) && id in s.workers && !s.workers[id].builds
            && Occurrences(CompletedIds(s.events), id) == 0 && id in s.tracker.handles && s.permits == limit
  {
    var actions := LosingRun(id, name);
    assert actions[..2] == [actions[0], actions[1]] && actions[..2][..1] == [actions[0]] && [actions[0]][..0] == [];
    assert Run(limit, maxDepth, []) == Initial(limit, maxDepth);
    assert Run(limit, maxDepth, [actions[0]]) == Perform(Initial(limit, maxDepth), actions[0]);
    assert Run(limit, maxDepth, actions[..2]) == Perform(Run(limit, maxDepth, [actions[0]]), actions[1]);
    assert Run(limit, maxDepth, actions) == Perform(Run(limit, maxDepth, actions[..2]), actions[2]);
    CompletedOnce(limit, maxDepth, actions, id);
  }

  /** With a permit at all, a task is sure to be completed, in every run at rest, if and only if it builds. */
  lemma {:induction false} AlwaysCompletedExactlyWhen(limit: nat, maxDepth: int, builds: bool)
    requires limit > 0
    ensures AlwaysCompleted(limit, maxDepth, builds) <==> builds
  {
    if builds {
      forall actions, id ensures CompletedAtRest(limit, maxDepth, actions, id, builds) {
        var s := Run(limit, maxDepth, actions);
        if AtRest(s) && id in s.workers && s.workers[id].builds {
          CompletedExactlyWhen(limit, maxDepth, actions, id);
        }
      }
    } else {
      UnbuildableIsLost(limit, maxDepth, "t", "");
      assert !CompletedAtRest(limit, maxDepth, LosingRun("t", ""), "t", false);
    }
  }

  /** Workers nest no deeper than max(1, maxDepth), and permits are conserved. */
  lemma {:induction false} DepthIsBounded(limit: nat, maxDepth: int, actions: seq<Action>)
    ensures var s := Run(limit, maxDepth, actions);
            && s.permits + |RunningIds(s.workers)| == limit
            && forall id :: id in s.workers ==> 1 <= s.workers[id].depth <= if maxDepth > 1 then maxDepth else 1
  {
    RunKeeps(limit, maxDepth, actions);
  }

  // ---- Deadlock.

  /** Some task is on its way, and without a cancellation none can go on. */
  ghost predicate Stuck(s: System) {
    !AtRest(s) && forall a :: Enabled(s, a) ==> a.Dispatch? || a.Interrupt? || a.Cleanup?
  }

  /** A worker holds a permit while a task it dispatched is unsettled. */
  ghost predicate HolderWaits(s: System) {
    exists id :: InPhase(s, id, Running) && !NotAwaiting(s, id)
  }

  /** With a maximum depth of at most one no permit holder waits, and with a permit at all nothing is ever stuck. */
  lemma {:induction false} FlatNeverStuck(limit: nat, maxDepth: int, actions: seq<Action>)
    requires maxDepth <= 1
    ensures !HolderWaits(Run(limit, maxDepth, actions))
    ensures limit > 0 ==> !Stuck(Run(limit, maxDepth, actions))
  {
    RunKeeps(limit, maxDepth, actions);
    var s := Run(limit, maxDepth, actions);
    assert forall id :: id in s.workers ==> DepthFits(s.maxDepth, s.workers, s.workers[id]);
    assert forall id :: id in s.workers ==> s.workers[id].parent.None?;
    assert !HolderWaits(s);
    if limit > 0 && !AtRest(s) {
      var id :| id in s.workers && !Settles(s.workers[id]);
      if s.permits > 0 {
        assert Enabled(s, match s.workers[id].phase
                          case Waiting => Acquire(id)
                          case Running => Finish(id, CancelledResult(id))
                          case Failing => Raise(id)
                          case _ => Conclude(id, false));
      } else {
        assert RunningIds(s.workers) != {};
        var r :| r in RunningIds(s.workers);
        assert Enabled(s, Finish(r, CancelledResult(r)));
      }
    }
  }

  /** The first n permits taken by tasks of the orchestrator. */
  function Tops(n: nat): seq<Action> {
    if n == 0 then []
    else Tops(n - 1) + [Dispatch(MsgId(n), None, "", "", true), Acquire(MsgId(n))]
  }

  /** Each of the first n of them dispatches a task of its own. */
  function Kids(n: nat): seq<Action> {
    if n == 0 then [] else Kids(n - 1) + [Dispatch(BatchId(n), Some(MsgId(n)), "", "", true)]
  }

  function Top(): Worker { Worker("", None, 1, true, Running) }

  function Kid(k: nat): Worker { Worker("", Some(MsgId(k)), 2, true, Waiting) }

  function TopWorkers(n: nat): map<string, Worker> {
    if n == 0 then map[] else TopWorkers(n - 1)[MsgId(n) := Top()]
  }

  function AllWorkers(limit: nat, n: nat): map<string, Worker> {
    if n == 0 then TopWorkers(limit) else AllWorkers(limit, n - 1)[BatchId(n) := Kid(n)]
  }

  lemma {:induction false} TopWorkersAre(n: nat)
    ensures forall k: nat :: MsgId(k) in TopWorkers(n) <==> 1 <= k <= n
    ensures forall id :: id in TopWorkers(n) ==> |id| > 0 && id[0] == 'm' && TopWorkers(n)[id] == Top()
  {
    hide Decimal;
    if n > 0 {
      TopWorkersAre(n - 1);
      forall k: nat ensures MsgId(k) == MsgId(n) ==> k == n {
        MsgIdInjective(k, n);
      }
    }
  }

  lemma {:induction false} AllWorkersAre(limit: nat, n: nat)
    ensures forall k: nat :: BatchId(k) in AllWorkers(limit, n) <==> 1 <= k <= n
    ensures forall k: nat :: MsgId(k) in AllWorkers(limit, n) <==> 1 <= k <= limit
    ensures forall id :: id in AllWorkers(limit, n) ==>
              if id in TopWorkers(limit) then AllWorkers(limit, n)[id] == Top()
              else exists k: nat :: 1 <= k <= n && id == BatchId(k) && AllWorkers(limit, n)[id] == Kid(k)
    ensures forall k: nat :: 1 <= k <= n ==> AllWorkers(limit, n)[BatchId(k)] == Kid(k)
  {
    hide Decimal;
    TopWorkersAre(limit);
    assert forall k: nat :: BatchId(k)[0] == 'c' && MsgId(k)[0] == 'm';
    if n > 0 {
      AllWorkersAre(limit, n - 1);
      forall k: nat ensures BatchId(k) == BatchId(n) ==> k == n {
        BatchIdInjective(k, n);
      }
    }
  }

  lemma OneStep(limit: nat, maxDepth: int, actions: seq<Action>, a: Action)
    requires Enabled(Run(limit, maxDepth, actions), a)
    ensures Run(limit, maxDepth, actions + [a]) == Perform(Run(limit, maxDepth, actions), a)
  {
    assert (actions + [a])[..|actions|] == actions;
  }

  lemma TwoSteps(limit: nat, maxDepth: int, actions: seq<Action>, a: Action, b: Action)
    requires Enabled(Run(limit, maxDepth, actions), a)
    requires Enabled(Perform(Run(limit, maxDepth, actions), a), b)
    ensures Run(limit, maxDepth, actions + [a, b]) == Perform(Perform(Run(limit, maxDepth, actions), a), b)
  {
    OneStep(limit, maxDepth, actions, a);
    OneStep(limit, maxDepth, actions + [a], b);
    assert actions + [a, b] == actions + [a] + [b];
  }

  lemma NoneDispatched(limit: nat, maxDepth: int)
    ensures Run(limit, maxDepth, []) == Initial(limit, maxDepth)
  {
  }

  lemma {:induction false} TopsTakePermits(limit: nat, maxDepth: int, n: nat)
    requires n <= limit
    ensures Run(limit, maxDepth, Tops(n)).workers == TopWorkers(n)
    ensures Run(limit, maxDepth, Tops(n)).permits == limit - n
  {
    hide MsgId, Tracked, Handled, Run;
    if n == 0 {
      NoneDispatched(limit, maxDepth);
    } else {
      TopsTakePermits(limit, maxDepth, n - 1);
      TopWorkersAre(n - 1);
      TwoSteps(limit, maxDepth, Tops(n - 1), Dispatch(MsgId(n), None, "", "", true), Acquire(MsgId(n)));
    }
  }

  lemma KidFits(limit: nat, n: nat)
    requires 0 < n <= limit
    ensures BatchId(n) !in AllWorkers(limit, n - 1)
    ensures MsgId(n) in AllWorkers(limit, n - 1) && AllWorkers(limit, n - 1)[MsgId(n)] == Top()
  {
    AllWorkersAre(limit, n - 1);
    TopWorkersAre(limit);
  }

  lemma SettingsStay(limit: nat, maxDepth: int, actions: seq<Action>)
    ensures Run(limit, maxDepth, actions).maxDepth == maxDepth
  {
    RunKeeps(limit, maxDepth, actions);
  }

  lemma {:induction false} KidsWait(limit: nat, maxDepth: int, n: nat)
    requires n <= limit && maxDepth >= 2
    ensures Run(limit, maxDepth, Tops(limit) + Kids(n)).workers == AllWorkers(limit, n)
    ensures Run(limit, maxDepth, Tops(limit) + Kids(n)).permits == 0
  {
    hide MsgId, BatchId, Tracked, Handled;
    if n == 0 {
      TopsTakePermits(limit, maxDepth, limit);
      assert Tops(limit) + Kids(0) == Tops(limit);
    } else {
      KidsWait(limit, maxDepth, n - 1);
      KidFits(limit, n);
      SettingsStay(limit, maxDepth, Tops(limit) + Kids(n - 1));
      var a := Dispatch(BatchId(n), Some(MsgId(n)), "", "", true);
      OneStep(limit, maxDepth, Tops(limit) + Kids(n - 1), a);
      assert Tops(limit) + Kids(n) == Tops(limit) + Kids(n - 1) + [a];
    }
  }

  lemma {:induction false} TopIsMsgId(n: nat, id: string)
    requires id in TopWorkers(n)
    ensures exists k: nat :: 1 <= k <= n && id == MsgId(k)
  {
    if id != MsgId(n) {
      TopIsMsgId(n - 1, id);
    }
  }

  lemma AllHeldIsStuck(s: System, limit: nat)
    requires limit > 0 && s.workers == AllWorkers(limit, limit) && s.permits == 0
    ensures Stuck(s)
  {
    hide MsgId, BatchId;
    AllWorkersAre(limit, limit);
    TopWorkersAre(limit);
    assert !Settles(s.workers[BatchId(1)]);
    forall id | InPhase(s, id, Running) ensures !NotAwaiting(s, id) {
      TopIsMsgId(limit, id);
      var k: nat :| 1 <= k <= limit && id == MsgId(k);
      assert s.workers[BatchId(k)].parent == Some(id);
    }
  }

  /**
   * Without a cancellation the dispatching protocol can lock up if and only if there are no permits or workers may
   * spawn workers.
   */
  lemma StuckExactlyWhen(limit: nat, maxDepth: int)
    ensures (exists actions :: Stuck(Run(limit, maxDepth, actions))) <==> limit == 0 || maxDepth >= 2
  {
    if maxDepth >= 2 && limit > 0 {
      KidsWait(limit, maxDepth, limit);
      AllHeldIsStuck(Run(limit, maxDepth, Tops(limit) + Kids(limit)), limit);
    } else if limit == 0 {
      var a := Dispatch("t", None, "", "", true);
      assert Run(limit, maxDepth, []) == Initial(limit, maxDepth);
      OneStep(limit, maxDepth, [], a);
      assert [] + [a] == [a];
      assert Stuck(Run(limit, maxDepth, [a]));
    } else {
      forall actions ensures !Stuck(Run(limit, maxDepth, actions)) {
        FlatNeverStuck(limit, maxDepth, actions);
      }
    }
  }

  // ---- The tools' own code, cut at its awaits.

  datatype AgentTool = PoolTool(name: string) | SpawnTool(depth: int)

  function Authorised(cardTools: seq<string>, pool: set<string>): seq<AgentTool> {
    Map(Filter(cardTools, (name: string) => name in pool), (name: string) => PoolTool(name))
  }

  lemma {:induction false} FilterShrinks<T>(s: seq<T>, p: T -> bool)
    ensures |Filter(s, p)| <= |s|
  {
    if |s| > 0 {
      FilterShrinks(s[..|s| - 1], p);
    }
  }

  lemma {:induction false} AuthorisedAre(cardTools: seq<string>, pool: set<string>)
    ensures forall t: AgentTool :: t in Authorised(cardTools, pool)
                                   <==> t.PoolTool? && t.name in cardTools && t.name in pool
    ensures |Authorised(cardTools, pool)| <= |cardTools|
    ensures (forall name :: name in cardTools ==> name in pool) ==>
      Authorised(cardTools, pool) == Map(cardTools, (name: string) => PoolTool(name))
  {
    var names := Filter(cardTools, (name: string) => name in pool);
    FilterMembers(cardTools, (name: string) => name in pool);
    forall t: AgentTool | t.PoolTool? && t.name in cardTools && t.name in pool
      ensures t in Authorised(cardTools, pool)
    {
      var i :| 0 <= i < |names| && names[i] == t.name;
      assert Authorised(cardTools, pool)[i] == t;
    }
    FilterShrinks(cardTools, (name: string) => name in pool);
    if forall name :: name in cardTools ==> name in pool {
      FilterAll(cardTools, (name: string) => name in pool);
    }
  }

  class Orchestrator {
    const limit: nat
    const maxDepth: int
    const tracker: TaskTracker
    var permits: nat
    var workers: map<string, Worker>
    var events: seq<TaskEvent>

    ghost function View(): System
      reads this, tracker
    {
      System(limit, maxDepth, permits, tracker.View(), workers, events)
    }

    constructor (limit: nat, maxDepth: int)
      ensures View() == Run(limit, maxDepth, []) && fresh(tracker)
    {
      this.limit, this.maxDepth, permits := limit, maxDepth, limit;
      tracker := new TaskTracker();
      workers, events := map[], [];
    }

    /** The tools of a new worker: the authorised ones that exist, and spawn_worker below the maximum depth. */
    method CreateWorkerAgent(cardTools: seq<string>, pool: set<string>, depth: int) returns (tools: seq<AgentTool>)
      ensures tools == Authorised(cardTools, pool) + (if depth < maxDepth then [SpawnTool(depth)] else [])
    {
      tools := [];
      for i := 0 to |cardTools|
        invariant tools == Authorised(cardTools[..i], pool)
      {
        assert cardTools[..i + 1][..i] == cardTools[..i];
        if cardTools[i] in pool {
          tools := tools + [PoolTool(cardTools[i])];
        }
      }
      assert cardTools[..|cardTools|] == cardTools;
      if depth < maxDepth {
        tools := tools + [SpawnTool(depth)];
      }
    }

    /** delegate_task up to its await; only the orchestrator's own agent holds it, at depth 0. */
    method Delegate(found: bool, id: string, workerName: string, instruction: string, builds: bool)
      returns (started: bool)
      requires id !in workers
      modifies this, tracker
      ensures started == found
      ensures View() == if found then Perform(old(View()), Dispatch(id, None, instruction, workerName, builds))
                        else old(View())
    {
      if !found {
        return false;
      }
      events := events + [TaskDispatched(id, workerName, 0)];
      Begin(id, Worker(workerName, None, 1, builds, Waiting), instruction);
      started := true;
    }

    /** spawn_worker up to its await, held by the orchestrator or by a running worker. */
    method Spawn(card: Option<string>, id: string, parent: Option<string>, instruction: string)
      returns (started: bool)
      requires id !in workers && MayDispatch(View(), parent, true)
      modifies this, tracker
      ensures started == card.Some?
      ensures View() == if card.Some? then Perform(old(View()), Dispatch(id, parent, instruction, card.value, true))
                        else old(View())
    {
      if card.None? {
        return false;
      }
      var depth := if parent.None? then 0 else workers[parent.value].depth;
      events := events + [TaskDispatched(id, card.value, depth)];
      Begin(id, Worker(card.value, parent, depth + 1, true, Waiting), instruction);
      started := true;
    }

    /** track(), create_task() and set_asyncio_task(). */
    method Begin(id: string, worker: Worker, instruction: string)
      requires id !in workers
      modifies this`workers, tracker
      ensures workers == old(workers)[id := worker]
      ensures tracker.View()
           == Handled(Tracked(old(tracker.View()), Task(id, instruction), worker.name), id, |old(workers)|)
    {
      tracker.Track(Task(id, instruction), worker.name);
      tracker.SetAsyncioTask(id, |workers|);
      workers := workers[id := worker];
    }

    /** The asyncio task enters the semaphore and _run_worker builds its messages. */
    method EnterSemaphore(id: string)
      requires Enabled(View(), Acquire(id))
      modifies this
      ensures View() == Perform(old(View()), Acquire(id))
    {
      permits := permits - 1;
      if workers[id].builds {
        workers := workers[id := workers[id].(phase := Running)];
      } else {
        workers := workers[id := workers[id].(phase := Failing)];
        permits := permits + 1;
      }
    }

    /** _run_worker returns, and the semaphore is left. */
    method LeaveSemaphore(id: string, result: TaskResult)
      requires Enabled(View(), Finish(id, result))
      modifies this
      ensures View() == Perform(old(View()), Finish(id, result))
    {
      workers := workers[id := workers[id].(phase := Ended(result))];
      permits := permits + 1;
    }

    /** The dispatching tool after its await; `overtaken` when the await delivered a cancellation. */
    method Settle(id: string, overtaken: bool)
      requires Enabled(View(), Conclude(id, overtaken))
      modifies this, tracker
      ensures View() == Perform(old(View()), Conclude(id, overtaken))
    {
      var result;
      if overtaken {
        result := TaskResult(id, Cancelled, "", 0);
      } else {
        result := workers[id].phase.result;
      }
      tracker.Complete(id, result);
      events := events + [TaskCompleted(id, workers[id].name, result.status)];
      workers := workers[id := workers[id].(phase := Settled)];
    }

    /** The dispatching tool after an await that raised. */
    method RaiseOut(id: string)
      requires Enabled(View(), Raise(id))
      modifies this`workers
      ensures View() == Perform(old(View()), Raise(id))
    {
      workers := workers[id := workers[id].(phase := Lost)];
    }
  }
}
