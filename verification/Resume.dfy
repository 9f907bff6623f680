/** Saving a session and loading it back, as a step of a run: save and resume in neoagent/session.py and agent.py. */
module Resuming {
  import opened Types
  import Codec = SessionCodec
  import History

  /** The fields of a session that no history step reads. */
  datatype Others = Others(
    createdAt: DateTime, updatedAt: DateTime, metadata: Json, counters: Codec.Counters,
    decisionCounter: nat, nudgeThreshold: int, nudgeCount: int,
    promotedTools: set<string>, toolNames: map<string, string>)

  function Saved(s: History.State, o: Others): Codec.Session {
    Codec.Session.Session(
      s.sessionId, o.createdAt, o.updatedAt, s.live, o.metadata,
      Codec.SessionState.SessionState(
        o.counters,
        Codec.Turning.Turning(s.msgCounter, s.batchCounter, o.decisionCounter, o.nudgeThreshold, o.nudgeCount,
                              s.turnsSince, s.userTurn),
        o.promotedTools, s.freed, o.toolNames, s.memory, s.compressed, s.batches, s.recalled))
  }

  predicate CountersNonNegative(t: Codec.Turning) {
    t.msgCounter >= 0 && t.batchCounter >= 0 && t.turnsSince >= 0 && t.userTurn >= 0
  }

  /** The state of a run that goes on with the loaded session; the bus and the provider are the ones before. */
  function Loaded(t: Codec.Session, s: History.State): History.State
    requires CountersNonNegative(t.state.turning)
  {
    History.State.State(
      t.id, t.messages, t.state.compressed, t.state.turning.msgCounter, t.state.turning.batchCounter, t.state.batches,
      t.state.turning.turnsSince, t.state.turning.userTurn, t.state.memory, t.state.freed, t.state.recalledThisTurn,
      s.trace, s.received, s.aborted)
  }

  /** Going through the JSON form is exactly the SaveAndResume step of a run, for any session. */
  lemma {:induction false} ResumeIsAStep(s: History.State, o: Others)
    ensures var loaded := Codec.DecodeSession(Codec.EncodeSession(Saved(s, o)));
            && loaded.Some? && CountersNonNegative(loaded.value.state.turning)
            && Loaded(loaded.value, s) == History.Perform(s, History.SaveAndResume)
  {
    Codec.SessionRoundTrip(Saved(s, o));
  }
}
