/** A round of tools in the loop, fed by the executor: neoagent/core/loop.py and neoagent/tools/executor.py. */
module ToolRounds {
  import opened Prelude
  import opened Types
  import History
  import opened ToolExecution

  /** The tool calls of a reply, in order. */
  function CallsOf(content: seq<Block>): seq<Call> {
    Map(Filter(content, (b: Block) => b.ToolUse?),
        (b: Block) => if b.ToolUse? then Call(b.id, b.name, b.input) else Call("", "", JNull))
  }

  /** The blocks of the message that answers them. */
  function ResultBlocks(results: seq<CallResult>): seq<Block> {
    Map(results, (r: CallResult) => ToolResult(r.callId, r.output, r.isError))
  }

  function OutputsOf(results: seq<CallResult>): nat -> History.ToolOutput {
    (i: nat) =>
      if i < |results| then History.ToolOutput.ToolOutput(results[i].output, results[i].isError)
      else History.ToolOutput.ToolOutput("", false)
  }

  lemma CallIds(content: seq<Block>)
    ensures |CallsOf(content)| == |ToolUseIdsOf(content)|
    ensures forall i :: 0 <= i < |CallsOf(content)| ==> CallsOf(content)[i].id == ToolUseIdsOf(content)[i]
  {
    var uses := Filter(content, (b: Block) => b.ToolUse?);
    FilterMembers(content, (b: Block) => b.ToolUse?);
    forall i | 0 <= i < |uses| ensures CallsOf(content)[i].id == ToolUseIdsOf(content)[i] {
      assert uses[i] in uses;
    }
  }

  /**
   * However the executor interleaves the calls of a reply, the blocks built from its results are a round of the
   * history model: one result block for each call, in the order of the calls and under their ids.
   */
  lemma {:induction false} ExecutorMakesARound(setup: Setup, content: seq<Block>, schedule: seq<(nat, Answer)>)
    requires Complete(Execution(setup, CallsOf(content), schedule))
    ensures var results := Results(Execution(setup, CallsOf(content), schedule));
            ResultBlocks(results) == History.ToolResults(content, OutputsOf(results))
  {
    ResultsAlign(setup, CallsOf(content), schedule);
    CallIds(content);
  }
}
