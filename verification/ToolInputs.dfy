/** What a tool is run on and what its call comes to, told from the answers of the checker, the hooks and the tool. */
module ToolInputs {
  import opened Prelude
  import opened Types
  import opened ToolExecution

  // ---- The answers of one call, in the order in which they are asked for.

  /** The hook before the tool is asked third, when there are hooks. */
  predicate HookSays(setup: Setup, answers: seq<Answer>)
    requires |answers| == 6
  {
    setup.hooked && answers[2].hook.Gives?
  }

  predicate HookDenies(setup: Setup, answers: seq<Answer>)
    requires |answers| == 6
  {
    HookSays(setup, answers) && answers[2].hook.value.Deny?
  }

  predicate HookModifies(setup: Setup, answers: seq<Answer>)
    requires |answers| == 6
  {
    HookSays(setup, answers) && answers[2].hook.value.Modify?
  }

  /** The hook's tool_input when it changed it, and otherwise the call's own. */
  function Wanted(setup: Setup, call: Call, answers: seq<Answer>): Json
    requires |answers| == 6
  {
    if HookModifies(setup, answers) && answers[2].hook.value.input.Some? then answers[2].hook.value.input.value
    else call.input
  }

  /** The tool may run: the call's own input is valid and allowed, no hook objects, and a changed input is too. */
  predicate MayRun(setup: Setup, call: Call, answers: seq<Answer>)
    requires |answers| == 6
  {
    && call.name in setup.tools && setup.validate(call.name, call.input).Ok? && answers[1].permit == Gives(true)
    && (setup.hooked ==> HookSays(setup, answers) && !HookDenies(setup, answers))
    && (HookModifies(setup, answers) ==>
          setup.validate(call.name, Wanted(setup, call, answers)).Ok? && answers[3].permit == Gives(true))
  }

  /** The place of the tool's own answer. */
  function ToolsTurn(setup: Setup, answers: seq<Answer>): nat
    requires |answers| == 6
  {
    if !setup.hooked then 2 else if HookModifies(setup, answers) then 4 else 3
  }

  /** An output, cut to the limit and then wrapped if it comes from outside. */
  predicate Presented(setup: Setup, tool: Tool, output: string, isError: bool, shown: string) {
    var cut := if |output| <= setup.maxResultSize then output else output[..setup.maxResultSize] + "\n[truncated]";
    if setup.sourceWrap && tool.external && !isError then shown == setup.wrap(cut, tool.name) else shown == cut
  }

  // ---- What is noted.

  /** The announcement of the call and the questions to the permission checker, with its verdicts. */
  function Asked(setup: Setup, call: Call, answers: seq<Answer>): seq<Note>
    requires |answers| == 6
  {
    if call.name !in setup.tools then []
    else if setup.validate(call.name, call.input).Err? || answers[1].permit.Raises? then [Called(call.id, call.input)]
    else
      var first := Checked(setup.validate(call.name, call.input).value, answers[1].permit.value);
      var wanted := setup.validate(call.name, Wanted(setup, call, answers));
      if first.allowed && HookModifies(setup, answers) && wanted.Ok? && answers[3].permit.Gives?
      then [Called(call.id, call.input), first, Checked(wanted.value, answers[3].permit.value)]
      else [Called(call.id, call.input), first]
  }

  /** And then the one run of the tool, if it may run. */
  function AskedAndRun(setup: Setup, call: Call, answers: seq<Answer>): seq<Note>
    requires |answers| == 6
  {
    if MayRun(setup, call, answers)
    then Asked(setup, call, answers) + [Ran(setup.validate(call.name, Wanted(setup, call, answers)).value)]
    else Asked(setup, call, answers)
  }

  // ---- The result.

  /** What an objection to an input says: that of its validation, or else that of the permission checker. */
  predicate Objected(setup: Setup, call: Call, input: Json, permit: Reply<bool>, output: string)
    requires call.name in setup.tools
  {
    match setup.validate(call.name, input)
    case Err(message) => output == message
    case Ok(_) => if permit.Raises? then output == permit.message else output == Denial(setup.tools[call.name])
  }

  /** The result of a call whose tool did not run says why. */
  predicate Refused(setup: Setup, call: Call, answers: seq<Answer>, r: CallResult)
    requires |answers| == 6
  {
    && r.isError
    && if call.name !in setup.tools then r.output == "Tool not found: " + call.name
       else if setup.validate(call.name, call.input).Err? || answers[1].permit != Gives(true)
       then Objected(setup, call, call.input, answers[1].permit, r.output)
       else
         setup.hooked && match answers[2].hook
         case Raises(message) => r.output == message
         case Gives(Deny(reason)) => r.output == "Hook denied: " + if reason == "" then "denied by hook" else reason
         case Gives(Allow) => false
         case Gives(Modify(_, _)) => Objected(setup, call, Wanted(setup, call, answers), answers[3].permit, r.output)
  }

  /** The result of a call whose tool ran is the tool's output, or the post hook's, under the tool's error flag. */
  predicate Returned(setup: Setup, call: Call, answers: seq<Answer>, r: CallResult)
    requires |answers| == 6 && call.name in setup.tools
  {
    var k := ToolsTurn(setup, answers);
    match answers[k].body
    case Raises(message) => r.isError && r.output == message
    case Gives((output, isError)) =>
      if setup.hooked && answers[k + 1].hook.Raises? then r.isError && r.output == answers[k + 1].hook.message
      else if setup.hooked && answers[k + 1].hook.value.Modify? && answers[k + 1].hook.value.output.Some?
      then r.isError == isError && r.output == answers[k + 1].hook.value.output.value
      else r.isError == isError && Presented(setup, setup.tools[call.name], output, isError, r.output)
  }

  /** What a finished call comes to. */
  predicate CallTold(setup: Setup, call: Call, answers: seq<Answer>, r: CallResult, notes: seq<Note>)
    requires |answers| == 6
  {
    && r.callId == call.id
    && notes == AskedAndRun(setup, call, answers) + [Emitted(r)]
    && if MayRun(setup, call, answers) then Returned(setup, call, answers, r) else Refused(setup, call, answers, r)
  }

  // ---- A call stage by stage.

  /** Where a call stands after its first k answers. */
  predicate StageTold(setup: Setup, call: Call, answers: seq<Answer>, k: nat, stage: Stage, notes: seq<Note>)
    requires |answers| == 6
  {
    match stage
    case Fresh => k == 0 && notes == []
    case Checking(input, valid) =>
      && k == 1 && call.name in setup.tools && input == call.input && setup.validate(call.name, input) == Ok(valid)
      && notes == [Called(call.id, call.input)]
    case PreHook(input, valid) =>
      && k == 2 && call.name in setup.tools && input == call.input && setup.validate(call.name, input) == Ok(valid)
      && setup.hooked && answers[1].permit == Gives(true)
      && notes == [Called(call.id, call.input), Checked(valid, true)]
    case Rechecking(input, valid) =>
      && k == 3 && call.name in setup.tools && setup.validate(call.name, call.input).Ok?
      && answers[1].permit == Gives(true) && HookModifies(setup, answers)
      && input == Wanted(setup, call, answers) && setup.validate(call.name, input) == Ok(valid)
      && notes == [Called(call.id, call.input), Checked(setup.validate(call.name, call.input).value, true)]
    case Running(input, valid) =>
      && k == ToolsTurn(setup, answers) && MayRun(setup, call, answers) && notes == AskedAndRun(setup, call, answers)
    case PostHook(r) =>
      && setup.hooked && k == ToolsTurn(setup, answers) + 1 && MayRun(setup, call, answers)
      && notes == AskedAndRun(setup, call, answers)
      && r.callId == call.id && answers[k - 1].body.Gives? && r.isError == answers[k - 1].body.value.1
      && Presented(setup, setup.tools[call.name], answers[k - 1].body.value.0, r.isError, r.output)
    case Done(r) => CallTold(setup, call, answers, r, notes)
  }

  lemma FreshTold(setup: Setup, call: Call, answers: seq<Answer>, k: nat, stage: Stage, notes: seq<Note>)
    requires |answers| == 6 && k < 6 && StageTold(setup, call, answers, k, stage, notes) && stage.Fresh?
    ensures var (next, more) := Step(setup, call, stage, answers[k]);
      StageTold(setup, call, answers, k + 1, next, notes + more)
  {
    hide Returned, BodyResult, Denial;
  }

  lemma CheckingTold(setup: Setup, call: Call, answers: seq<Answer>, k: nat, stage: Stage, notes: seq<Note>)
    requires |answers| == 6 && k < 6 && StageTold(setup, call, answers, k, stage, notes) && stage.Checking?
    ensures var (next, more) := Step(setup, call, stage, answers[k]);
      StageTold(setup, call, answers, k + 1, next, notes + more)
  {
    hide Returned, BodyResult, Denial;
  }

  lemma PreHookTold(setup: Setup, call: Call, answers: seq<Answer>, k: nat, stage: Stage, notes: seq<Note>)
    requires |answers| == 6 && k < 6 && StageTold(setup, call, answers, k, stage, notes) && stage.PreHook?
    ensures var (next, more) := Step(setup, call, stage, answers[k]);
      StageTold(setup, call, answers, k + 1, next, notes + more)
  {
    hide Returned, BodyResult, Denial;
  }

  lemma RecheckingTold(setup: Setup, call: Call, answers: seq<Answer>, k: nat, stage: Stage, notes: seq<Note>)
    requires |answers| == 6 && k < 6 && StageTold(setup, call, answers, k, stage, notes) && stage.Rechecking?
    ensures var (next, more) := Step(setup, call, stage, answers[k]);
      StageTold(setup, call, answers, k + 1, next, notes + more)
  {
    hide Returned, BodyResult, Denial;
  }

  lemma RunningTold(setup: Setup, call: Call, answers: seq<Answer>, k: nat, stage: Stage, notes: seq<Note>)
    requires |answers| == 6 && k < 6 && StageTold(setup, call, answers, k, stage, notes) && stage.Running?
    ensures var (next, more) := Step(setup, call, stage, answers[k]);
      StageTold(setup, call, answers, k + 1, next, notes + more)
  {
    hide Refused, Denial, Asked;
  }

  lemma PostHookTold(setup: Setup, call: Call, answers: seq<Answer>, k: nat, stage: Stage, notes: seq<Note>)
    requires |answers| == 6 && k < 6 && StageTold(setup, call, answers, k, stage, notes) && stage.PostHook?
    ensures var (next, more) := Step(setup, call, stage, answers[k]);
      StageTold(setup, call, answers, k + 1, next, notes + more)
  {
    hide Refused, Denial, Asked;
  }

  lemma DoneTold(setup: Setup, call: Call, answers: seq<Answer>, k: nat, stage: Stage, notes: seq<Note>)
    requires |answers| == 6 && k < 6 && StageTold(setup, call, answers, k, stage, notes) && stage.Done?
    ensures var (next, more) := Step(setup, call, stage, answers[k]);
      StageTold(setup, call, answers, k + 1, next, notes + more)
  {
    hide CallTold;
    assert notes + [] == notes;
  }

  lemma StepTold(setup: Setup, call: Call, answers: seq<Answer>, k: nat, stage: Stage, notes: seq<Note>)
    requires |answers| == 6 && k < 6 && StageTold(setup, call, answers, k, stage, notes)
    ensures var (next, more) := Step(setup, call, stage, answers[k]);
      StageTold(setup, call, answers, k + 1, next, notes + more)
  {
    hide StageTold, Step;
    match stage {
      case Fresh => FreshTold(setup, call, answers, k, stage, notes);
      case Checking(_, _) => CheckingTold(setup, call, answers, k, stage, notes);
      case PreHook(_, _) => PreHookTold(setup, call, answers, k, stage, notes);
      case Rechecking(_, _) => RecheckingTold(setup, call, answers, k, stage, notes);
      case Running(_, _) => RunningTold(setup, call, answers, k, stage, notes);
      case PostHook(_) => PostHookTold(setup, call, answers, k, stage, notes);
      case Done(_) => DoneTold(setup, call, answers, k, stage, notes);
    }
  }

  lemma Begins(setup: Setup, call: Call, answers: seq<Answer>)
    requires |answers| == 6
    ensures Play(setup, call, answers[..0]) == (Fresh, []) && StageTold(setup, call, answers, 0, Fresh, [])
  {
  }

  lemma {:induction false} PlayTold(setup: Setup, call: Call, answers: seq<Answer>, k: nat)
    requires |answers| == 6 && k <= 6
    ensures var (stage, notes) := Play(setup, call, answers[..k]); StageTold(setup, call, answers, k, stage, notes)
  {
    hide Step, StageTold;
    if k == 0 {
      Begins(setup, call, answers);
    } else {
      PlayTold(setup, call, answers, k - 1);
      PlayNext(setup, call, answers, k - 1);
      var (stage, notes) := Play(setup, call, answers[..k - 1]);
      StepTold(setup, call, answers, k - 1, stage, notes);
    }
  }

  /**
   A call by itself: its tool runs exactly when its input is valid and allowed, no hook denies it and an input that a
   hook has changed is valid and allowed again; it runs once, on the validated form of the hook's input or else of the
   call's own; its result is the tool's output or the post hook's, or the first objection; and nothing else is noted.
   */
  lemma {:induction false} CallIsTold(setup: Setup, call: Call, answers: seq<Answer>)
    requires |answers| == 6
    ensures Play(setup, call, answers).0.Done?
    ensures CallTold(setup, call, answers, Play(setup, call, answers).0.result, Play(setup, call, answers).1)
  {
    hide Step, CallTold;
    assert answers[..6] == answers;
    PlayTold(setup, call, answers, 6);
  }

  /** The answers of a call that came to its end, made six. */
  lemma SixAnswers(setup: Setup, call: Call, answers: seq<Answer>) returns (six: seq<Answer>)
    requires Play(setup, call, answers).0.Done?
    ensures |six| == 6 && Play(setup, call, six) == Play(setup, call, answers)
  {
    hide Step;
    if |answers| >= 6 {
      six := answers[..6];
      CallIsTold(setup, call, six);
      DoneStays(setup, call, answers, 6);
    } else {
      var none := Answer(Raises(""), Raises(""), Raises(""));
      six := answers + seq(6 - |answers|, _ => none);
      assert six[..|answers|] == answers;
      DoneStays(setup, call, six, |answers|);
    }
  }

  /** And so it is for every call of an execution, whatever the interleaving: by the answers that the call was given. */
  lemma {:induction false} CallsAreTold(setup: Setup, calls: seq<Call>, schedule: seq<(nat, Answer)>, i: nat)
    returns (answers: seq<Answer>)
    requires Complete(Execution(setup, calls, schedule)) && i < |calls|
    ensures |answers| == 6
    ensures var s := Execution(setup, calls, schedule);
            CallTold(setup, calls[i], answers, Results(s)[i], Own(s.log, i))
  {
    hide CallTold, Own, Play;
    var given := CallsDoNotInterfere(setup, calls, schedule, i);
    answers := SixAnswers(setup, calls[i], given);
    CallIsTold(setup, calls[i], answers);
  }
}
