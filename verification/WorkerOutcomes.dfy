/** What is announced and recorded of a task, told from the actions that concerned it. */
module WorkerOutcomes {
  import opened Prelude
  import opened TaskTracking
  import opened Workers

  /**
   The last word on a task: what its worker returned, or the cancellation that reached it while it waited or that
   overtook the tool that dispatched it.
   */
  ghost function Word(limit: nat, maxDepth: int, actions: seq<Action>, id: string): Option<TaskResult> {
    if |actions| == 0 then None
    else
      var before, a := actions[..|actions| - 1], actions[|actions| - 1];
      if !Enabled(Run(limit, maxDepth, before), a) then Word(limit, maxDepth, before, id)
      else if a.Finish? && a.id == id then Some(a.result)
      else if (a.Interrupt? || (a.Conclude? && a.overtaken)) && a.id == id then Some(TaskResult(id, Cancelled, "", 0))
      else Word(limit, maxDepth, before, id)
  }

  /** How a task was dispatched. */
  ghost function Errand(limit: nat, maxDepth: int, actions: seq<Action>, id: string): Option<Action> {
    if |actions| == 0 then None
    else
      var before, a := actions[..|actions| - 1], actions[|actions| - 1];
      if Enabled(Run(limit, maxDepth, before), a) && a.Dispatch? && a.id == id then Some(a)
      else Errand(limit, maxDepth, before, id)
  }

  /** A worker as it was dispatched, and as its task stands. */
  ghost predicate WorkerTold(id: string, w: Worker, word: Option<TaskResult>, errand: Option<Action>) {
    && (w.phase.Ended? ==> word == Some(w.phase.result)) && (w.phase.Settled? ==> word.Some?)
    && errand.Some? && errand.value.Dispatch?
    && w.name == errand.value.workerName && w.parent == errand.value.parent && w.builds == errand.value.builds
  }

  /** An event names the task's worker; a dispatch the level it came from, and a completion the last word's status. */
  ghost predicate EventTold(e: TaskEvent, workers: map<string, Worker>, word: string -> Option<TaskResult>) {
    && e.id in workers && e.workerName == workers[e.id].name
    && match e
       case TaskDispatched(id, _, depth) =>
         depth == if workers[id].parent.None? then 0 else workers[id].depth - 1
       case TaskCompleted(id, _, status) =>
         workers[id].phase.Settled? && word(id).Some? && status == word(id).value.status
  }

  ghost predicate WorkersTold(s: System, word: string -> Option<TaskResult>, errand: string -> Option<Action>) {
    forall id :: id in s.workers ==> WorkerTold(id, s.workers[id], word(id), errand(id))
  }

  ghost predicate ResultsTold(s: System, word: string -> Option<TaskResult>) {
    forall id :: id in s.tracker.results.at ==> word(id) == Some(s.tracker.results.at[id])
  }

  ghost predicate EventsTold(s: System, word: string -> Option<TaskResult>) {
    forall i :: 0 <= i < |s.events| ==> EventTold(s.events[i], s.workers, word)
  }

  /** A tracked task is the one that was dispatched, and its worker's name the one it was dispatched to. */
  ghost predicate TasksTold(s: System, errand: string -> Option<Action>) {
    && (forall id :: id in s.tracker.tasks.at ==>
          errand(id).Some? && errand(id).value.Dispatch?
          && s.tracker.tasks.at[id] == Task(id, errand(id).value.instruction))
    && (forall id :: id in s.tracker.workerNames ==>
          errand(id).Some? && errand(id).value.Dispatch?
          && s.tracker.workerNames[id] == errand(id).value.workerName)
  }

  ghost predicate AllTold(s: System, word: string -> Option<TaskResult>, errand: string -> Option<Action>) {
    WorkersTold(s, word, errand) && ResultsTold(s, word) && TasksTold(s, errand) && EventsTold(s, word)
  }

  lemma NothingTold(limit: nat, maxDepth: int)
    ensures AllTold(Run(limit, maxDepth, []), id => Word(limit, maxDepth, [], id),
                    id => Errand(limit, maxDepth, [], id))
  {
  }

  lemma SameTold(s: System, word: string -> Option<TaskResult>, errand: string -> Option<Action>,
                 word': string -> Option<TaskResult>, errand': string -> Option<Action>)
    requires AllTold(s, word, errand) && forall id :: word'(id) == word(id) && errand'(id) == errand(id)
    ensures AllTold(s, word', errand')
  {
  }

  /** The last word after one more action. */
  ghost predicate Heard(a: Action, word: string -> Option<TaskResult>, word': string -> Option<TaskResult>) {
    forall id :: word'(id) ==
      if a.Finish? && a.id == id then Some(a.result)
      else if (a.Interrupt? || (a.Conclude? && a.overtaken)) && a.id == id then Some(TaskResult(id, Cancelled, "", 0))
      else word(id)
  }

  ghost predicate Sent(a: Action, errand: string -> Option<Action>, errand': string -> Option<Action>) {
    forall id :: errand'(id) == if a.Dispatch? && a.id == id then Some(a) else errand(id)
  }

  lemma WorkersStep(s: System, a: Action, word: string -> Option<TaskResult>, errand: string -> Option<Action>,
                    word': string -> Option<TaskResult>, errand': string -> Option<Action>)
    requires Enabled(s, a) && WorkersTold(s, word, errand) && Heard(a, word, word') && Sent(a, errand, errand')
    ensures WorkersTold(Perform(s, a), word', errand')
  {
    hide Tracked, Handled, Recorded, CleanedUp, NotAwaiting, MayDispatch, Depth;
    var s' := Perform(s, a);
    forall id | id in s'.workers ensures WorkerTold(id, s'.workers[id], word'(id), errand'(id)) {
      assert id in s.workers ==> WorkerTold(id, s.workers[id], word(id), errand(id));
    }
  }

  lemma CleanupTold(s: System, cap: nat)
    requires TrackerMatches(s)
    ensures forall id :: id in CleanedUp(s.tracker, cap).results.at ==>
      id in s.tracker.results.at && CleanedUp(s.tracker, cap).results.at[id] == s.tracker.results.at[id]
  {
    CleanupDropsOldest(s.tracker, cap);
  }

  lemma ResultsStep(s: System, a: Action, word: string -> Option<TaskResult>, errand: string -> Option<Action>,
                    word': string -> Option<TaskResult>)
    requires Enabled(s, a) && TrackerMatches(s) && WorkersTold(s, word, errand) && ResultsTold(s, word)
    requires Heard(a, word, word')
    ensures ResultsTold(Perform(s, a), word')
  {
    hide CleanedUp, NotAwaiting, MayDispatch, Depth, TrackerWellKept;
    var s' := Perform(s, a);
    if a.Cleanup? {
      CleanupTold(s, a.cap);
    }
    forall id | id in s'.tracker.results.at ensures word'(id) == Some(s'.tracker.results.at[id]) {
      if id in s.tracker.results.at {
        assert InPhase(s, id, Settled);
      } else {
        assert WorkerTold(id, s.workers[id], word(id), errand(id));
      }
    }
  }

  lemma {:induction false} ForgettingNames(t: Tracker, ids: seq<string>)
    ensures forall id :: id in Forgotten(t, ids).workerNames ==>
      id in t.workerNames && Forgotten(t, ids).workerNames[id] == t.workerNames[id]
  {
    if |ids| > 0 {
      ForgettingNames(t, ids[..|ids| - 1]);
    }
  }

  lemma CleanupKeepsTasks(s: System, cap: nat, errand: string -> Option<Action>)
    requires TasksTold(s, errand)
    ensures TasksTold(s.(tracker := CleanedUp(s.tracker, cap)), errand)
  {
    hide Forgotten, Surplus;
    ForgetTasks(s.tracker, Surplus(s.tracker, cap));
    ForgettingNames(s.tracker, Surplus(s.tracker, cap));
  }

  lemma TasksKept(s: System, a: Action)
    requires Enabled(s, a) && !a.Dispatch? && !a.Cleanup?
    ensures Perform(s, a).tracker.tasks == s.tracker.tasks
    ensures Perform(s, a).tracker.workerNames == s.tracker.workerNames
  {
    hide NotAwaiting, MayDispatch;
  }

  lemma DispatchAddsTask(s: System, a: Action, errand: string -> Option<Action>, errand': string -> Option<Action>)
    requires Enabled(s, a) && a.Dispatch? && TasksTold(s, errand) && Sent(a, errand, errand')
    ensures TasksTold(Perform(s, a), errand')
  {
    hide MayDispatch, Depth;
  }

  lemma CleanupIs(s: System, cap: nat)
    ensures Enabled(s, Cleanup(cap)) && Perform(s, Cleanup(cap)) == s.(tracker := CleanedUp(s.tracker, cap))
  {
  }

  lemma TasksStep(s: System, a: Action, errand: string -> Option<Action>, errand': string -> Option<Action>)
    requires Enabled(s, a) && TasksTold(s, errand) && Sent(a, errand, errand')
    ensures TasksTold(Perform(s, a), errand')
  {
    hide Enabled, Perform, CleanedUp;
    if a.Dispatch? {
      DispatchAddsTask(s, a, errand, errand');
    } else if a.Cleanup? {
      CleanupKeepsTasks(s, a.cap, errand);
      CleanupIs(s, a.cap);
    } else {
      TasksKept(s, a);
    }
  }

  lemma OldEvent(s: System, a: Action, e: TaskEvent, word: string -> Option<TaskResult>,
                 word': string -> Option<TaskResult>)
    requires Enabled(s, a) && EventTold(e, s.workers, word) && Heard(a, word, word')
    ensures EventTold(e, Perform(s, a).workers, word')
  {
    hide Tracked, Handled, Recorded, CleanedUp, NotAwaiting, MayDispatch, Depth, Outcome;
  }

  lemma NewEvent(s: System, a: Action, word: string -> Option<TaskResult>, errand: string -> Option<Action>,
                 word': string -> Option<TaskResult>)
    requires Enabled(s, a) && WorkersTold(s, word, errand) && Heard(a, word, word')
    requires |Perform(s, a).events| == |s.events| + 1
    ensures EventTold(Perform(s, a).events[|s.events|], Perform(s, a).workers, word')
  {
    hide Tracked, Handled, Recorded, CleanedUp, NotAwaiting;
    if a.Conclude? {
      assert WorkerTold(a.id, s.workers[a.id], word(a.id), errand(a.id));
    }
  }

  lemma EventsGrow(s: System, a: Action)
    requires Enabled(s, a)
    ensures s.events <= Perform(s, a).events && |Perform(s, a).events| <= |s.events| + 1
  {
    hide Tracked, Handled, Recorded, CleanedUp, NotAwaiting, MayDispatch, Depth, Outcome;
  }

  lemma StepTold(s: System, a: Action, word: string -> Option<TaskResult>, errand: string -> Option<Action>,
                 word': string -> Option<TaskResult>, errand': string -> Option<Action>)
    requires Inv(s) && Enabled(s, a) && AllTold(s, word, errand) && Heard(a, word, word') && Sent(a, errand, errand')
    ensures AllTold(Perform(s, a), word', errand')
  {
    hide Perform, Enabled, PermitsAdd, EventsMatch, TrackerMatches, WorkersFit, Heard, Sent, WorkersTold, ResultsTold,
         TasksTold, EventTold;
    WorkersStep(s, a, word, errand, word', errand');
    ResultsStep(s, a, word, errand, word');
    TasksStep(s, a, errand, errand');
    EventsGrow(s, a);
    var s' := Perform(s, a);
    forall i | 0 <= i < |s'.events| ensures EventTold(s'.events[i], s'.workers, word') {
      if i < |s.events| {
        OldEvent(s, a, s.events[i], word, word');
      } else {
        NewEvent(s, a, word, errand, word');
      }
    }
  }

  lemma {:induction false} WordsAreKept(limit: nat, maxDepth: int, actions: seq<Action>)
    ensures AllTold(Run(limit, maxDepth, actions), id => Word(limit, maxDepth, actions, id),
                    id => Errand(limit, maxDepth, actions, id))
  {
    hide Perform, Enabled, AllTold;
    if |actions| == 0 {
      NothingTold(limit, maxDepth);
    } else {
      var before, a := actions[..|actions| - 1], actions[|actions| - 1];
      WordsAreKept(limit, maxDepth, before);
      RunKeeps(limit, maxDepth, before);
      var s := Run(limit, maxDepth, before);
      if Enabled(s, a) {
        StepTold(s, a, id => Word(limit, maxDepth, before, id), id => Errand(limit, maxDepth, before, id),
                 id => Word(limit, maxDepth, actions, id), id => Errand(limit, maxDepth, actions, id));
      } else {
        SameTold(s, id => Word(limit, maxDepth, before, id), id => Errand(limit, maxDepth, before, id),
                 id => Word(limit, maxDepth, actions, id), id => Errand(limit, maxDepth, actions, id));
      }
    }
  }
}
