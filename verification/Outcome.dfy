/** Outcome records and their append-only stage history (internal/outcome/outcome.go). */
module Outcome {

  datatype Stage =
    | Discovered | Qualified | Prepared | Submitted | Responded | Interview
    | Offer | Rejected | Withdrawn
    | Unlisted(name: string)

  datatype StageEvent = StageEvent(stage: Stage, at: int)

  datatype FinalOutcome = InProgress | Final(stage: Stage)

  datatype Record = Record(
    applicationId: string,
    role: string,
    source: string,
    resumeVariant: string,
    resumeVersion: int,
    jobScore: int,
    stages: seq<StageEvent>,
    finalOutcome: FinalOutcome)
  {
    predicate HasStage(stage: Stage) {
      exists e | e in stages :: e.stage == stage
    }
  }

  predicate IsTerminal(stage: Stage) {
    stage == Offer || stage == Rejected || stage == Withdrawn
  }

  function AppendStage(r: Record, stage: Stage, at: int): Record {
    r.(stages := r.stages + [StageEvent(stage, at)],
    finalOutcome := if IsTerminal(stage) then Final(stage) else r.finalOutcome)
  }

  /** A history built by AppendStage alone. */
  function AppendAll(r: Record, history: seq<StageEvent>): Record {
    if history == [] then r
    else
      var last := history[|history| - 1];
      AppendStage(AppendAll(r, history[..|history| - 1]), last.stage, last.at)
  }

  /** The stages are the history, in order, after what was there; the final outcome is the last
      terminal stage of the history, or what it was if there is none. */
  lemma {:induction false} HistoryIsKept(r: Record, history: seq<StageEvent>)
    ensures AppendAll(r, history).stages == r.stages + history
    ensures (exists i :: 0 <= i < |history| && IsTerminal(history[i].stage)) ==>
      exists i :: 0 <= i < |history| && IsTerminal(history[i].stage)
        && AppendAll(r, history).finalOutcome == Final(history[i].stage)
        && forall j | i < j < |history| :: !IsTerminal(history[j].stage)
    ensures (forall i | 0 <= i < |history| :: !IsTerminal(history[i].stage)) ==>
      AppendAll(r, history).finalOutcome == r.finalOutcome
    decreases |history|
  {
    if history != [] {
      var n := |history| - 1;
      var front := history[..n];
      HistoryIsKept(r, front);
      assert history == front + [history[n]];
      if IsTerminal(history[n].stage) {
        assert AppendAll(r, history).finalOutcome == Final(history[n].stage);
      } else if exists i :: 0 <= i < n && IsTerminal(history[i].stage) {
        var i :| 0 <= i < n && IsTerminal(history[i].stage);
        assert IsTerminal(front[i].stage);
        var k :| 0 <= k < n && IsTerminal(front[k].stage)
          && AppendAll(r, front).finalOutcome == Final(front[k].stage)
          && forall j | k < j < n :: !IsTerminal(front[j].stage);
        assert history[k] == front[k];
        forall j | k < j < |history| ensures !IsTerminal(history[j].stage) {
          assert j < n ==> front[j] == history[j];
        }
      }
    }
  }

  /** Appending a stage reaches that stage and loses none. */
  lemma AppendKeepsStages(r: Record, stage: Stage, at: int)
    ensures AppendStage(r, stage, at).HasStage(stage)
    ensures forall s: Stage | r.HasStage(s) :: AppendStage(r, stage, at).HasStage(s)
    ensures forall s: Stage | AppendStage(r, stage, at).HasStage(s) :: s == stage || r.HasStage(s)
  {
    var after := AppendStage(r, stage, at);
    assert after.stages[|r.stages|] == StageEvent(stage, at);
    forall s: Stage | r.HasStage(s) ensures after.HasStage(s) {
      var e :| e in r.stages && e.stage == s;
      assert e in after.stages;
    }
  }
}
