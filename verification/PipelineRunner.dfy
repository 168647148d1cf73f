/** The pipeline as the program has it: early returns between lookups, model calls and writes to a
    mutable store (internal/job/pipeline.go). Each method is its specification function. */
module PipelineRunner {
  import opened Days
  import opened Scoring
  import opened PipelineProtocol

  class Pipeline {
    const limits: Limits

    var evaluations: map<Key, Evaluation>
    var writes: seq<Evaluation>
    var asked: seq<Key>
    var nextId: nat
    var clock: int

    ghost function View(): World
      reads this
    {
      World(evaluations, writes, asked, nextId, clock)
    }

    constructor (limits: Limits, clock: int)
      ensures View() == EmptyWorld(clock) && this.limits == limits
    {
      this.limits := limits;
      evaluations, writes, asked, nextId, this.clock := map[], [], [], 0, clock;
    }

    method Now(elapsed: nat) returns (t: int)
      modifies `clock
      ensures View() == old(View()).Tick(elapsed) && t == clock
    {
      clock := clock + elapsed;
      t := clock;
    }

    method NewID() returns (id: nat)
      modifies `nextId
      ensures id == old(nextId) && View() == old(View()).(nextId := id + 1)
    {
      id := nextId;
      nextId := nextId + 1;
    }

    method SaveEvaluation(e: Evaluation, reply: SaveReply) returns (ok: bool)
      modifies `evaluations, `writes
      ensures ok == reply.Saved?
      ensures View() == if reply.Refused? then old(View()) else old(View()).Write(e)
    {
      if !reply.Refused? {
        evaluations := evaluations[KeyOf(e) := e];
        writes := writes + [e];
      }
      ok := reply.Saved?;
    }

    /** Counts the deep evaluations created since then, one by one. */
    method CountDeepEvaluationsSince(since: int) returns (n: nat)
      ensures n == View().DeepCount(since)
    {
      n := 0;
      var todo := evaluations.Keys;
      ghost var counted: set<Key> := {};
      while todo != {}
        invariant todo <= evaluations.Keys
        invariant counted == set k |
          k in evaluations && k !in todo && k.1 == DeepEvaluation && evaluations[k].createdAt >= since
        invariant n == |counted|
        decreases |todo|
      {
        var k :| k in todo;
        if k.1 == DeepEvaluation && evaluations[k].createdAt >= since {
          n := n + 1;
          counted := counted + {k};
        }
        todo := todo - {k};
      }
      assert counted == set k | k in evaluations && k.1 == DeepEvaluation && evaluations[k].createdAt >= since;
    }

    method RunTriage(env: Env, jobId: string) returns (r: Outcome)
      modifies this
      ensures (View(), r)
           == RunStage(old(View()), (jobId, Triage), env.getTriage, TriageScore(env), env.toTriage, env.saveTriage)
    {
      if !env.getTriage {
        return Err(LookupFailed(Triage));
      }
      if (jobId, Triage) in evaluations {
        return Scored(evaluations[(jobId, Triage)].score);
      }
      asked := asked + [(jobId, Triage)];
      if env.triage.None? {
        return Err(ModelFailed(Triage));
      }
      var score := ApplyTriage(env.triage.value);
      var id := NewID();
      var now := Now(env.toTriage);
      var ok := SaveEvaluation(Evaluation(id, jobId, Triage, score, now), env.saveTriage);
      r := if ok then Scored(score) else Err(SaveFailed(Triage));
    }

    method RunDeepEvaluation(env: Env, jobId: string) returns (r: Outcome)
      modifies this
      ensures (View(), r)
           == RunStage(old(View()), (jobId, DeepEvaluation), env.getDeep, DeepScore(env), env.toDeep, env.saveDeep)
    {
      if !env.getDeep {
        return Err(LookupFailed(DeepEvaluation));
      }
      if (jobId, DeepEvaluation) in evaluations {
        return Scored(evaluations[(jobId, DeepEvaluation)].score);
      }
      asked := asked + [(jobId, DeepEvaluation)];
      if env.evaluation.None? {
        return Err(ModelFailed(DeepEvaluation));
      }
      var score := ApplyEvaluation(env.evaluation.value);
      var id := NewID();
      var now := Now(env.toDeep);
      var ok := SaveEvaluation(Evaluation(id, jobId, DeepEvaluation, score, now), env.saveDeep);
      r := if ok then Scored(score) else Err(SaveFailed(DeepEvaluation));
    }

    method Process(env: Env, jobId: string) returns (r: Outcome)
      modifies this
      ensures (View(), r) == PipelineProtocol.Process(old(View()), env, limits, jobId)
    {
      var now := Now(env.toStart);
      var startOfDay := StartOfDay(now);
      if env.discovered.None? {
        return Err(DiscoveryCountFailed);
      }
      if env.discovered.value >= limits.jobsPerDay {
        return Err(DiscoveryLimitReached);
      }
      r := RunTriage(env, jobId);
      if r.Err? || r.score.recommendation != Apply {
        return;
      }
      if !env.countDeep {
        return Err(DeepCountFailed);
      }
      var deepCount := CountDeepEvaluationsSince(startOfDay);
      if deepCount >= limits.deepPerDay {
        return;
      }
      r := RunDeepEvaluation(env, jobId);
    }
  }
}
