/** Concurrent and serial tool execution: neoagent/tools/executor.py. */
module ToolExecution {
  import opened Prelude
  import opened Types

  datatype Call = Call(id: string, name: string, input: Json)

  datatype CallResult = CallResult(callId: string, output: string, isError: bool)

  datatype Tool = Tool(name: string, concurrentSafe: bool, disabled: bool, external: bool)

  /** The registry, the options, and the pure functions of a tool: its input model and the source wrapper. */
  datatype Setup = Setup(
    tools: map<string, Tool>, hooked: bool, maxResultSize: nat, sourceWrap: bool,
    validate: (string, Json) -> Result<Json, string>, wrap: (string, string) -> string)

  // ---- What the awaited parties answer.

  datatype Reply<T> = Raises(message: string) | Gives(value: T)

  /** Modify carries the entries "tool_input" and "result" of a non-empty modified_data; an empty one is an Allow. */
  datatype Hooked = Allow | Deny(reason: string) | Modify(input: Option<Json>, output: Option<string>)

  datatype Answer = Answer(permit: Reply<bool>, hook: Reply<Hooked>, body: Reply<(string, bool)>)

  /** What a call leaves behind: its bus events, the permission checks and the runs of the tool body. */
  datatype Note =
    | Called(id: string, input: Json)
    | Checked(input: Json, allowed: bool)
    | Ran(input: Json)
    | Emitted(result: CallResult)

  /** Where a call waits; `input` is the call's current input and `valid` its validated form. */
  datatype Stage =
    | Fresh
    | Checking(input: Json, valid: Json)
    | PreHook(input: Json, valid: Json)
    | Rechecking(input: Json, valid: Json)
    | Running(input: Json, valid: Json)
    | PostHook(result: CallResult)
    | Done(result: CallResult)

  // ---- One call, from await to await.

  function Denial(tool: Tool): string {
    "Permission denied: tool '" + tool.name + (if tool.disabled then "' is disabled" else "' requires user approval")
  }

  function Finished(r: CallResult): (Stage, seq<Note>) { (Done(r), [Emitted(r)]) }

  function Failed(call: Call, message: string): (Stage, seq<Note>) {
    Finished(CallResult(call.id, message, true))
  }

  function Truncated(text: string, limit: nat): string {
    if |text| > limit then text[..limit] + "\n[truncated]" else text
  }

  function BodyResult(setup: Setup, call: Call, tool: Tool, output: string, isError: bool): CallResult {
    var cut := Truncated(output, setup.maxResultSize);
    CallResult(call.id, if setup.sourceWrap && tool.external && !isError then setup.wrap(cut, tool.name) else cut,
               isError)
  }

  function FreshStep(setup: Setup, call: Call): (Stage, seq<Note>) {
    if call.name !in setup.tools then Failed(call, "Tool not found: " + call.name)
    else
      match setup.validate(call.name, call.input)
      case Ok(valid) => (Checking(call.input, valid), [Called(call.id, call.input)])
      case Err(message) =>
        (Failed(call, message).0, [Called(call.id, call.input)] + Failed(call, message).1)
  }

  /** A verdict of the permission checker: on to `next`, or a refusal. */
  function Verdict(call: Call, tool: Tool, valid: Json, permit: Reply<bool>, next: Stage, more: seq<Note>)
    : (Stage, seq<Note>)
  {
    match permit
    case Raises(message) => Failed(call, message)
    case Gives(false) => (Failed(call, Denial(tool)).0, [Checked(valid, false)] + Failed(call, Denial(tool)).1)
    case Gives(true) => (next, [Checked(valid, true)] + more)
  }

  function PreHookStep(setup: Setup, call: Call, input: Json, valid: Json, hook: Reply<Hooked>): (Stage, seq<Note>) {
    match hook
    case Raises(message) => Failed(call, message)
    case Gives(Deny(reason)) => Failed(call, "Hook denied: " + (if reason == "" then "denied by hook" else reason))
    case Gives(Allow) => (Running(input, valid), [Ran(valid)])
    case Gives(Modify(newInput, _)) =>
      var next := if newInput.Some? then newInput.value else input;
      match setup.validate(call.name, next)
      case Ok(v) => (Rechecking(next, v), [])
      case Err(message) => Failed(call, message)
  }

  function BodyStep(setup: Setup, call: Call, tool: Tool, body: Reply<(string, bool)>): (Stage, seq<Note>) {
    match body
    case Raises(message) => Failed(call, message)
    case Gives((output, isError)) =>
      var r := BodyResult(setup, call, tool, output, isError);
      if setup.hooked then (PostHook(r), []) else Finished(r)
  }

  function PostHookStep(call: Call, r: CallResult, hook: Reply<Hooked>): (Stage, seq<Note>) {
    match hook
    case Raises(message) => Failed(call, message)
    case Gives(Modify(_, Some(output))) => Finished(CallResult(call.id, output, r.isError))
    case Gives(_) => Finished(r)
  }

  /** One stretch of _run_one between two awaits. */
  function Step(setup: Setup, call: Call, stage: Stage, a: Answer): (Stage, seq<Note>) {
    if call.name !in setup.tools then
      if stage.Done? then (stage, []) else Failed(call, "Tool not found: " + call.name)
    else
      var tool := setup.tools[call.name];
      match stage
      case Fresh => FreshStep(setup, call)
      case Checking(input, valid) =>
        if setup.hooked then Verdict(call, tool, valid, a.permit, PreHook(input, valid), [])
        else Verdict(call, tool, valid, a.permit, Running(input, valid), [Ran(valid)])
      case PreHook(input, valid) => PreHookStep(setup, call, input, valid, a.hook)
      case Rechecking(input, valid) => Verdict(call, tool, valid, a.permit, Running(input, valid), [Ran(valid)])
      case Running(_, _) => BodyStep(setup, call, tool, a.body)
      case PostHook(r) => PostHookStep(call, r, a.hook)
      case Done(_) => (stage, [])
  }

  /** A call by itself, given the answers in turn. */
  function Play(setup: Setup, call: Call, answers: seq<Answer>): (Stage, seq<Note>) {
    if |answers| == 0 then (Fresh, [])
    else
      var before := Play(setup, call, answers[..|answers| - 1]);
      var step := Step(setup, call, before.0, answers[|answers| - 1]);
      (step.0, before.1 + step.1)
  }

  function Rank(stage: Stage): nat {
    match stage
    case Fresh => 6
    case Checking(_, _) => 5
    case PreHook(_, _) => 4
    case Rechecking(_, _) => 3
    case Running(_, _) => 2
    case PostHook(_) => 1
    case Done(_) => 0
  }

  lemma StepAdvances(setup: Setup, call: Call, stage: Stage, a: Answer)
    requires !stage.Done?
    ensures Rank(Step(setup, call, stage, a).0) < Rank(stage)
  {
  }

  /** The last check a waiting call has passed; the notes of a call up to its stage. */
  ghost predicate Sound(call: Call, stage: Stage, notes: seq<Note>) {
    && (forall k :: 0 <= k < |notes| ==> (notes[k].Emitted? <==> stage.Done? && k == |notes| - 1))
    && (stage.Done? ==> |notes| > 0 && notes[|notes| - 1] == Emitted(stage.result) && stage.result.callId == call.id)
    && (stage.PostHook? ==> stage.result.callId == call.id)
    && (forall k :: 0 <= k < |notes| && notes[k].Ran? ==> k > 0 && notes[k - 1] == Checked(notes[k].input, true))
    && (forall j, k :: 0 <= j < k < |notes| ==> !(notes[j].Ran? && notes[k].Ran?))
    && (Rank(stage) >= 3 ==> forall k :: 0 <= k < |notes| ==> !notes[k].Ran?)
    && (stage.PreHook? ==> |notes| > 0 && notes[|notes| - 1] == Checked(stage.valid, true))
  }

  predicate RunAllowed(stage: Stage, next: Stage, more: seq<Note>, k: nat)
    requires k < |more|
  {
    more[k].Ran? ==>
      Rank(stage) >= 3 > Rank(next)
      && if k > 0 then more[k - 1] == Checked(more[k].input, true)
         else stage.PreHook? && more[k].input == stage.valid
  }

  /** What one step may add to a sound record. */
  ghost predicate SoundStep(call: Call, stage: Stage, next: Stage, more: seq<Note>) {
    && Rank(next) < Rank(stage)
    && (forall k :: 0 <= k < |more| ==> (more[k].Emitted? <==> next.Done? && k == |more| - 1))
    && (next.Done? ==> |more| > 0 && more[|more| - 1] == Emitted(next.result) && next.result.callId == call.id)
    && (next.PostHook? ==> next.result.callId == call.id)
    && (forall k :: 0 <= k < |more| ==> RunAllowed(stage, next, more, k))
    && (forall j, k :: 0 <= j < k < |more| ==> !(more[j].Ran? && more[k].Ran?))
    && (next.PreHook? ==> |more| > 0 && more[|more| - 1] == Checked(next.valid, true))
  }

  lemma StepIsSoundStep(setup: Setup, call: Call, stage: Stage, a: Answer)
    requires !stage.Done? && (stage.PostHook? ==> stage.result.callId == call.id)
    ensures SoundStep(call, stage, Step(setup, call, stage, a).0, Step(setup, call, stage, a).1)
  {
  }

  lemma SoundStepKeeps(call: Call, stage: Stage, notes: seq<Note>, next: Stage, more: seq<Note>)
    requires Sound(call, stage, notes) && !stage.Done? && SoundStep(call, stage, next, more)
    ensures Sound(call, next, notes + more)
  {
    var all := notes + more;
    forall k | 0 <= k < |all| && all[k].Ran? ensures k > 0 && all[k - 1] == Checked(all[k].input, true) {
      if k < |notes| {
        assert notes[k].Ran?;
      } else {
        assert RunAllowed(stage, next, more, k - |notes|);
        assert k > |notes| ==> all[k - 1] == more[k - |notes| - 1];
      }
    }
    forall k | 0 <= k < |more| && more[k].Ran? ensures Rank(stage) >= 3 > Rank(next) {
      assert RunAllowed(stage, next, more, k);
    }
  }

  lemma StepIsSound(setup: Setup, call: Call, stage: Stage, notes: seq<Note>, a: Answer)
    requires Sound(call, stage, notes)
    ensures var step := Step(setup, call, stage, a); Sound(call, step.0, notes + step.1)
  {
    if stage.Done? {
      assert notes + [] == notes;
    } else {
      StepIsSoundStep(setup, call, stage, a);
      SoundStepKeeps(call, stage, notes, Step(setup, call, stage, a).0, Step(setup, call, stage, a).1);
    }
  }

  /**
   * However the permission checker, the hooks and the tool behave, a call emits its result once, as its last act
   * and under its own id, and runs the tool at most once, on the very input its last check allowed.
   */
  lemma {:induction false} PlayIsSound(setup: Setup, call: Call, answers: seq<Answer>)
    ensures Sound(call, Play(setup, call, answers).0, Play(setup, call, answers).1)
  {
    if |answers| > 0 {
      var before := Play(setup, call, answers[..|answers| - 1]);
      PlayIsSound(setup, call, answers[..|answers| - 1]);
      StepIsSound(setup, call, before.0, before.1, answers[|answers| - 1]);
    }
  }

  // ---- All the calls of one execute(): the concurrent ones interleaved, the serial ones after them in order.

  predicate IsSafe(setup: Setup, call: Call) {
    call.name in setup.tools && setup.tools[call.name].concurrentSafe
  }

  datatype State = State(stages: seq<Stage>, log: seq<(nat, Note)>)

  function Start(calls: seq<Call>): State { State(seq(|calls|, _ => Fresh), []) }

  predicate MayMove(setup: Setup, calls: seq<Call>, s: State, i: nat)
    requires |s.stages| == |calls|
  {
    i < |calls| && !s.stages[i].Done?
    && (IsSafe(setup, calls[i])
        || forall j :: 0 <= j < |calls| && (IsSafe(setup, calls[j]) || j < i) ==> s.stages[j].Done?)
  }

  function Tagged(i: nat, notes: seq<Note>): seq<(nat, Note)> { Map(notes, (n: Note) => (i, n)) }

  function Move(setup: Setup, calls: seq<Call>, s: State, i: nat, a: Answer): (s': State)
    requires |s.stages| == |calls| && MayMove(setup, calls, s, i)
    ensures |s'.stages| == |calls|
  {
    var step := Step(setup, calls[i], s.stages[i], a);
    State(s.stages[i := step.0], s.log + Tagged(i, step.1))
  }

  /** A schedule names, step by step, the call that goes on and the answer it got; moves not open are passed over. */
  function Execution(setup: Setup, calls: seq<Call>, schedule: seq<(nat, Answer)>): (s: State)
    ensures |s.stages| == |calls|
  {
    if |schedule| == 0 then Start(calls)
    else
      var s := Execution(setup, calls, schedule[..|schedule| - 1]);
      var (i, a) := schedule[|schedule| - 1];
      if MayMove(setup, calls, s, i) then Move(setup, calls, s, i, a) else s
  }

  predicate Complete(s: State) { forall i :: 0 <= i < |s.stages| ==> s.stages[i].Done? }

  function Results(s: State): seq<CallResult>
    requires Complete(s)
  {
    seq(|s.stages|, i requires 0 <= i < |s.stages| => s.stages[i].result)
  }

  /** The notes of call i, in order. */
  function Own(log: seq<(nat, Note)>, i: nat): seq<Note> {
    if |log| == 0 then []
    else
      var before := Own(log[..|log| - 1], i);
      if log[|log| - 1].0 == i then before + [log[|log| - 1].1] else before
  }

  lemma {:induction false} OwnOfAppend(log: seq<(nat, Note)>, j: nat, notes: seq<Note>, i: nat)
    ensures Own(log + Tagged(j, notes), i) == Own(log, i) + (if i == j then notes else [])
  {
    if |notes| == 0 {
      assert log + Tagged(j, notes) == log;
    } else {
      var front, last := notes[..|notes| - 1], notes[|notes| - 1];
      OwnOfAppend(log, j, front, i);
      var whole := log + Tagged(j, notes);
      assert whole[..|whole| - 1] == log + Tagged(j, front);
      assert whole[|whole| - 1] == (j, last);
      assert notes == front + [last];
    }
  }

  /** Whatever the interleaving, each call goes through what it would go through by itself. */
  lemma {:induction false} CallsDoNotInterfere(setup: Setup, calls: seq<Call>, schedule: seq<(nat, Answer)>, i: nat)
    returns (answers: seq<Answer>)
    requires i < |calls|
    ensures Play(setup, calls[i], answers).0 == Execution(setup, calls, schedule).stages[i]
    ensures Play(setup, calls[i], answers).1 == Own(Execution(setup, calls, schedule).log, i)
  {
    if |schedule| == 0 {
      answers := [];
    } else {
      var s := Execution(setup, calls, schedule[..|schedule| - 1]);
      answers := CallsDoNotInterfere(setup, calls, schedule[..|schedule| - 1], i);
      var (j, a) := schedule[|schedule| - 1];
      if MayMove(setup, calls, s, j) {
        var step := Step(setup, calls[j], s.stages[j], a);
        OwnOfAppend(s.log, j, step.1, i);
        if i == j {
          assert (answers + [a])[..|answers|] == answers;
          answers := answers + [a];
        }
      }
    }
  }

  /** Once a serial call has left a note, only it and the serial calls after it leave notes. */
  ghost predicate SerialInOrder(setup: Setup, calls: seq<Call>, log: seq<(nat, Note)>) {
    (forall p :: 0 <= p < |log| ==> log[p].0 < |calls|)
    && forall p, q :: 0 <= p < q < |log| && !IsSafe(setup, calls[log[p].0])
                      ==> !IsSafe(setup, calls[log[q].0]) && log[p].0 <= log[q].0
  }

  /** All the concurrent calls, and the serial ones before i, are done. */
  predicate Opened(setup: Setup, calls: seq<Call>, s: State, i: nat)
    requires |s.stages| == |calls|
  {
    forall j :: 0 <= j < |calls| && (IsSafe(setup, calls[j]) || j < i) ==> s.stages[j].Done?
  }

  lemma {:induction false} OwnNonempty(log: seq<(nat, Note)>, p: nat)
    requires p < |log|
    ensures Own(log, log[p].0) != []
  {
    if p < |log| - 1 {
      OwnNonempty(log[..|log| - 1], p);
    }
  }

  lemma MoveKeepsOrder(setup: Setup, calls: seq<Call>, s: State, i: nat, a: Answer)
    requires |s.stages| == |calls| && MayMove(setup, calls, s, i)
    requires SerialInOrder(setup, calls, s.log)
    requires forall k :: 0 <= k < |calls| && !IsSafe(setup, calls[k]) && Own(s.log, k) != [] ==>
               Opened(setup, calls, s, k)
    ensures SerialInOrder(setup, calls, Move(setup, calls, s, i, a).log)
  {
    hide Step, Own;
    forall p | 0 <= p < |s.log| && !IsSafe(setup, calls[s.log[p].0])
      ensures !IsSafe(setup, calls[i]) && s.log[p].0 <= i
    {
      OwnNonempty(s.log, p);
      assert Opened(setup, calls, s, s.log[p].0);
    }
  }

  lemma MoveKeepsOpened(setup: Setup, calls: seq<Call>, s: State, i: nat, a: Answer, k: nat)
    requires |s.stages| == |calls| && MayMove(setup, calls, s, i)
    requires k < |calls| && !IsSafe(setup, calls[k]) && Own(Move(setup, calls, s, i, a).log, k) != []
    requires Own(s.log, k) != [] ==> Opened(setup, calls, s, k)
    ensures Opened(setup, calls, Move(setup, calls, s, i, a), k)
  {
    OwnOfAppend(s.log, i, Step(setup, calls[i], s.stages[i], a).1, k);
    hide Step, Own;
  }

  lemma {:induction false} SerialCallsComeLast(setup: Setup, calls: seq<Call>, schedule: seq<(nat, Answer)>)
    ensures SerialInOrder(setup, calls, Execution(setup, calls, schedule).log)
    ensures forall i :: 0 <= i < |calls| && !IsSafe(setup, calls[i])
                        && Own(Execution(setup, calls, schedule).log, i) != []
                        ==> Opened(setup, calls, Execution(setup, calls, schedule), i)
  {
    if |schedule| > 0 {
      var s := Execution(setup, calls, schedule[..|schedule| - 1]);
      SerialCallsComeLast(setup, calls, schedule[..|schedule| - 1]);
      var (j, a) := schedule[|schedule| - 1];
      if MayMove(setup, calls, s, j) {
        MoveKeepsOrder(setup, calls, s, j, a);
        var s' := Move(setup, calls, s, j, a);
        forall i | 0 <= i < |calls| && !IsSafe(setup, calls[i]) && Own(s'.log, i) != []
          ensures Opened(setup, calls, s', i)
        {
          MoveKeepsOpened(setup, calls, s, j, a, i);
        }
      }
    }
  }

  /** Until all the calls are done, some call can go on, and it comes nearer to its end. */
  lemma SomeCallMoves(setup: Setup, calls: seq<Call>, s: State) returns (i: nat)
    requires |s.stages| == |calls| && !Complete(s)
    ensures MayMove(setup, calls, s, i)
  {
    if safe :| 0 <= safe < |calls| && IsSafe(setup, calls[safe]) && !s.stages[safe].Done? {
      i := safe;
    } else {
      i := 0;
      while s.stages[i].Done?
        invariant i < |calls|
        invariant forall j :: 0 <= j < i ==> s.stages[j].Done?
        decreases |calls| - i
      {
        i := i + 1;
      }
    }
  }

  function Remaining(stages: seq<Stage>): nat {
    if |stages| == 0 then 0 else Remaining(stages[..|stages| - 1]) + Rank(stages[|stages| - 1])
  }

  lemma {:induction false} RemainingFalls(stages: seq<Stage>, i: nat, stage: Stage)
    requires i < |stages| && Rank(stage) < Rank(stages[i])
    ensures Remaining(stages[i := stage]) < Remaining(stages)
  {
    var n := |stages| - 1;
    if i == n {
      assert stages[i := stage][..n] == stages[..n];
    } else {
      assert stages[i := stage][..n] == stages[..n][i := stage];
      RemainingFalls(stages[..n], i, stage);
    }
  }

  /** Every step of the schedule was open to the call it names. */
  predicate NeverPassedOver(setup: Setup, calls: seq<Call>, schedule: seq<(nat, Answer)>) {
    |schedule| == 0
    || (NeverPassedOver(setup, calls, schedule[..|schedule| - 1])
        && MayMove(setup, calls, Execution(setup, calls, schedule[..|schedule| - 1]), schedule[|schedule| - 1].0))
  }

  lemma {:induction false} FreshRemaining(n: nat)
    ensures Remaining(seq(n, _ => Fresh)) == 6 * n
  {
    if n > 0 {
      FreshRemaining(n - 1);
      assert seq(n, _ => Fresh)[..n - 1] == seq(n - 1, _ => Fresh);
    }
  }

  /** At most six moves a call: an execution that is never passed over ends. */
  lemma {:induction false} MovesAreBounded(setup: Setup, calls: seq<Call>, schedule: seq<(nat, Answer)>)
    requires NeverPassedOver(setup, calls, schedule)
    ensures |schedule| + Remaining(Execution(setup, calls, schedule).stages) <= 6 * |calls|
  {
    if |schedule| == 0 {
      FreshRemaining(|calls|);
    } else {
      var n := |schedule| - 1;
      MovesAreBounded(setup, calls, schedule[..n]);
      var s := Execution(setup, calls, schedule[..n]);
      var (i, a) := schedule[n];
      StepAdvances(setup, calls[i], s.stages[i], a);
      RemainingFalls(s.stages, i, Step(setup, calls[i], s.stages[i], a).0);
    }
  }

  /**
   * When execute() returns there is one result for each call, at the call's place and under its id; it is the one
   * result event of that call; and the tool ran, if it did, on the input that the check just before it allowed.
   */
  lemma {:induction false} ResultsAlign(setup: Setup, calls: seq<Call>, schedule: seq<(nat, Answer)>)
    requires Complete(Execution(setup, calls, schedule))
    ensures var s := Execution(setup, calls, schedule);
            |Results(s)| == |calls|
            && forall i :: 0 <= i < |calls| ==>
                 Results(s)[i].callId == calls[i].id && Sound(calls[i], Done(Results(s)[i]), Own(s.log, i))
  {
    var s := Execution(setup, calls, schedule);
    forall i | 0 <= i < |calls|
      ensures Results(s)[i].callId == calls[i].id && Sound(calls[i], Done(Results(s)[i]), Own(s.log, i))
    {
      var answers := CallsDoNotInterfere(setup, calls, schedule, i);
      PlayIsSound(setup, calls[i], answers);
    }
  }

  // ---- The executor's own code.

  /** A call has come to its end after its first k answers. */
  ghost predicate EndsAt(setup: Setup, call: Call, answers: seq<Answer>, k: nat, result: CallResult, notes: seq<Note>)
    requires k <= |answers|
  {
    Play(setup, call, answers[..k]) == (Done(result), notes)
  }

  lemma PlayNext(setup: Setup, call: Call, answers: seq<Answer>, k: nat)
    requires k < |answers|
    ensures var before := Play(setup, call, answers[..k]);
            var step := Step(setup, call, before.0, answers[k]);
            Play(setup, call, answers[..k + 1]) == (step.0, before.1 + step.1)
  {
    assert answers[..k + 1][..k] == answers[..k];
  }

  lemma FirstMove(setup: Setup, call: Call, answers: seq<Answer>)
    requires |answers| > 0 && call.name in setup.tools
    ensures Play(setup, call, answers[..1]) == FreshStep(setup, call)
  {
    PlayNext(setup, call, answers, 0);
    assert [] + FreshStep(setup, call).1 == FreshStep(setup, call).1;
  }

  lemma {:induction false} DoneStays(setup: Setup, call: Call, answers: seq<Answer>, k: nat)
    requires k <= |answers| && Play(setup, call, answers[..k]).0.Done?
    ensures Play(setup, call, answers) == Play(setup, call, answers[..k])
  {
    if k == |answers| {
      assert answers[..k] == answers;
    } else {
      var front := answers[..|answers| - 1];
      assert front[..k] == answers[..k];
      DoneStays(setup, call, front, k);
      assert Play(setup, call, front).1 + [] == Play(setup, call, front).1;
    }
  }

  lemma Regroup(notes: seq<Note>, n: Note)
    ensures notes + [n] + [] == notes + [n] && notes + ([n] + []) == notes + [n] && notes + [] == notes
    ensures forall m: Note :: notes + ([n] + [m]) == notes + [n] + [m]
  {
  }

  function Settled(call: Call, outcome: Result<CallResult, string>): CallResult {
    match outcome
    case Ok(result) => result
    case Err(message) => CallResult(call.id, message, true)
  }

  /** The end of the try block: the tool body and the post hook. */
  method Conclude(setup: Setup, call: Call, tool: Tool, answers: seq<Answer>, used: nat, notes: seq<Note>,
                  ghost input: Json, ghost valid: Json)
    returns (outcome: Result<CallResult, string>, ended: nat)
    requires call.name in setup.tools && tool == setup.tools[call.name] && used + 2 <= |answers|
    requires Play(setup, call, answers[..used]) == (Running(input, valid), notes)
    ensures ended <= used + 2
    ensures EndsAt(setup, call, answers, ended, Settled(call, outcome), notes + [Emitted(Settled(call, outcome))])
  {
    PlayNext(setup, call, answers, used);
    ended := used + 1;
    var result;
    match answers[used].body {
      case Raises(message) => return Err(message), ended;
      case Gives((output, isError)) =>
        result := CallResult(call.id, output, isError);
    }
    if |result.output| > setup.maxResultSize {
      result := result.(output := result.output[..setup.maxResultSize] + "\n[truncated]");
    }
    if setup.sourceWrap && tool.external && !result.isError {
      result := result.(output := setup.wrap(result.output, tool.name));
    }
    if setup.hooked {
      assert Play(setup, call, answers[..used + 1]) == (PostHook(result), notes + []);
      PlayNext(setup, call, answers, used + 1);
      ended := used + 2;
      assert notes + [] == notes;
      match answers[used + 1].hook {
        case Raises(message) => return Err(message), ended;
        case Gives(Modify(_, Some(output))) => result := CallResult(call.id, output, result.isError);
        case Gives(_) =>
      }
    }
    outcome := Ok(result);
  }

  /** The try block: the result it ends with, or the message of the exception that left it. */
  method Attempt(setup: Setup, call: Call, answers: seq<Answer>)
    returns (outcome: Result<CallResult, string>, notes: seq<Note>, used: nat)
    requires call.name in setup.tools && |answers| == 6
    ensures used <= 6
    ensures EndsAt(setup, call, answers, used, Settled(call, outcome), notes + [Emitted(Settled(call, outcome))])
  {
    hide BodyStep, PostHookStep, BodyResult, Denial;
    var tool := setup.tools[call.name];
    notes, used := [Called(call.id, call.input)], 1;
    FirstMove(setup, call, answers);
    var input := call.input;
    var validated := setup.validate(call.name, input);
    if validated.Err? {
      return Err(validated.error), notes, used;
    }
    assert Play(setup, call, answers[..1]) == (Checking(input, validated.value), notes);
    var allowed := answers[1].permit;
    PlayNext(setup, call, answers, 1);
    used := 2;
    match allowed {
      case Raises(message) => return Err(message), notes, used;
      case Gives(permitted) =>
        Regroup([Called(call.id, call.input)], Checked(validated.value, permitted));
        notes := notes + [Checked(validated.value, permitted)];
        if !permitted {
          return Ok(CallResult(call.id, Denial(tool), true)), notes, used;
        }
    }
    if setup.hooked {
      assert Play(setup, call, answers[..2]) == (PreHook(input, validated.value), notes);
      var pre := answers[2].hook;
      PlayNext(setup, call, answers, 2);
      used := 3;
      match pre {
        case Raises(message) => return Err(message), notes, used;
        case Gives(Deny(reason)) =>
          var why := if reason == "" then "denied by hook" else reason;
          return Ok(CallResult(call.id, "Hook denied: " + why, true)), notes, used;
        case Gives(Allow) => notes := notes + [Ran(validated.value)];
        case Gives(Modify(newInput, _)) =>
          input := if newInput.Some? then newInput.value else input;
          validated := setup.validate(call.name, input);
          if validated.Err? {
            return Err(validated.error), notes, used;
          }
          assert notes + [] == notes;
          assert Play(setup, call, answers[..3]) == (Rechecking(input, validated.value), notes);
          allowed := answers[3].permit;
          PlayNext(setup, call, answers, 3);
          used := 4;
          match allowed {
            case Raises(message) => return Err(message), notes, used;
            case Gives(permitted) =>
              Regroup(notes, Checked(validated.value, permitted));
              notes := notes + [Checked(validated.value, permitted)];
              if !permitted {
                return Ok(CallResult(call.id, Denial(tool), true)), notes, used;
              }
          }
          notes := notes + [Ran(validated.value)];
      }
    } else {
      notes := notes + [Ran(validated.value)];
    }
    assert Play(setup, call, answers[..used]) == (Running(input, validated.value), notes);
    outcome, used := Conclude(setup, call, tool, answers, used, notes, input, validated.value);
  }

  method RunOne(setup: Setup, call: Call, answers: seq<Answer>) returns (result: CallResult, notes: seq<Note>)
    requires |answers| == 6
    ensures Play(setup, call, answers) == (Done(result), notes)
  {
    if call.name !in setup.tools {
      result := CallResult(call.id, "Tool not found: " + call.name, true);
      notes := [Emitted(result)];
      PlayNext(setup, call, answers, 0);
      assert [] + notes == notes;
      DoneStays(setup, call, answers, 1);
      return;
    }
    var used;
    var outcome;
    outcome, notes, used := Attempt(setup, call, answers);
    result := Settled(call, outcome);
    notes := notes + [Emitted(result)];
    DoneStays(setup, call, answers, used);
  }

  function Positions(setup: Setup, calls: seq<Call>, safe: bool): seq<nat> {
    if |calls| == 0 then []
    else
      var before := Positions(setup, calls[..|calls| - 1], safe);
      if IsSafe(setup, calls[|calls| - 1]) == safe then before + [|calls| - 1] else before
  }

  lemma {:induction false} PositionsAre(setup: Setup, calls: seq<Call>, safe: bool)
    ensures forall i: nat :: i in Positions(setup, calls, safe) <==> i < |calls| && IsSafe(setup, calls[i]) == safe
  {
    if |calls| > 0 {
      PositionsAre(setup, calls[..|calls| - 1], safe);
    }
  }

  /** The calls at the given places, each with its place. */
  ghost predicate Pairs(calls: seq<Call>, places: seq<nat>, pairs: seq<(nat, Call)>) {
    |pairs| == |places|
    && forall n :: 0 <= n < |pairs| ==> places[n] < |calls| && pairs[n] == (places[n], calls[places[n]])
  }

  method PartitionByConcurrency(setup: Setup, calls: seq<Call>)
    returns (safe: seq<(nat, Call)>, serial: seq<(nat, Call)>)
    ensures Pairs(calls, Positions(setup, calls, true), safe)
    ensures Pairs(calls, Positions(setup, calls, false), serial)
  {
    safe, serial := [], [];
    for idx := 0 to |calls|
      invariant Pairs(calls, Positions(setup, calls[..idx], true), safe)
      invariant Pairs(calls, Positions(setup, calls[..idx], false), serial)
    {
      var call := calls[idx];
      assert calls[..idx + 1][..idx] == calls[..idx];
      if call.name in setup.tools && setup.tools[call.name].concurrentSafe {
        safe := safe + [(idx, call)];
      } else {
        serial := serial + [(idx, call)];
      }
    }
    assert calls[..|calls|] == calls;
  }

  /** Every filed result is what its call comes to. */
  ghost predicate Filed(setup: Setup, calls: seq<Call>, answers: seq<seq<Answer>>, filed: map<nat, CallResult>)
    requires |answers| == |calls|
  {
    forall i :: i in filed ==> i < |calls| && Play(setup, calls[i], answers[i]).0 == Done(filed[i])
  }

  lemma EveryCallPlaced(setup: Setup, calls: seq<Call>, arrival: seq<nat>)
    requires multiset(arrival) == multiset(Positions(setup, calls, true))
    ensures forall n :: 0 <= n < |arrival| ==> arrival[n] < |calls|
    ensures forall i: nat :: i < |calls| ==> i in arrival || i in Positions(setup, calls, false)
  {
    PositionsAre(setup, calls, true);
    PositionsAre(setup, calls, false);
    forall n | 0 <= n < |arrival| ensures arrival[n] < |calls| {
      assert arrival[n] in multiset(arrival);
      assert arrival[n] in Positions(setup, calls, true);
    }
    forall i: nat | i < |calls| ensures i in arrival || i in Positions(setup, calls, false) {
      if IsSafe(setup, calls[i]) {
        assert i in Positions(setup, calls, true);
        assert i in multiset(arrival);
      }
    }
  }

  /**
   * execute() with the concurrent calls finishing in the order `arrival`: whatever that order, the i-th result is
   * what the i-th call comes to.
   */
  method Execute(setup: Setup, calls: seq<Call>, answers: seq<seq<Answer>>, arrival: seq<nat>)
    returns (results: seq<CallResult>)
    requires |answers| == |calls| && forall i :: 0 <= i < |answers| ==> |answers[i]| == 6
    requires multiset(arrival) == multiset(Positions(setup, calls, true))
    ensures |results| == |calls|
    ensures forall i :: 0 <= i < |calls| ==> Play(setup, calls[i], answers[i]).0 == Done(results[i])
  {
    hide Play, Positions, IsSafe;
    EveryCallPlaced(setup, calls, arrival);
    var safe, serial := PartitionByConcurrency(setup, calls);
    var filed: map<nat, CallResult> := map[];
    for n := 0 to |arrival|
      invariant forall i :: i in filed <==> i in arrival[..n]
      invariant Filed(setup, calls, answers, filed)
    {
      var idx := arrival[n];
      var result, _ := RunOne(setup, calls[idx], answers[idx]);
      filed := filed[idx := result];
    }
    ghost var places := Positions(setup, calls, false);
    for n := 0 to |serial|
      invariant forall i :: i in filed <==> i in arrival || i in places[..n]
      invariant Filed(setup, calls, answers, filed)
    {
      var (idx, call) := serial[n];
      var result, _ := RunOne(setup, call, answers[idx]);
      filed := filed[idx := result];
    }
    results := seq(|calls|, i requires 0 <= i < |calls| && i in filed => filed[i]);
  }
}
